/** Decimal printing of big integers, and the storage keys built from it. */
module Keys {

  function Digit(d: nat): (c: char)
    requires d < 10
    ensures '0' <= c <= '9' && c as int == '0' as int + d
  {
    ('0' as int + d) as char
  }

  function Digits(n: nat): (s: string)
    ensures s != []
    ensures forall i | 0 <= i < |s| :: '0' <= s[i] <= '9'
  {
    if n < 10 then [Digit(n)] else Digits(n / 10) + [Digit(n % 10)]
  }

  /** The %v form of a big.Int. */
  function Decimal(v: int): (s: string)
    ensures forall i | 0 <= i < |s| :: s[i] == '-' || '0' <= s[i] <= '9'
  {
    if v < 0 then "-" + Digits(-v) else Digits(v)
  }

  /** PaymentChannelKey.String, which is also the lock name of the channel. */
  function ChannelKeyString(id: int): string {
    "{ID: " + Decimal(id) + "}"
  }

  /** Payment.ID, the key of a payment record. */
  function PaymentID(id: int, nonce: int): string {
    Decimal(id) + "/" + Decimal(nonce)
  }

  // ------------------------------------------------------------ reading keys

  /** The number a string of decimal digits stands for. */
  function ReadDigits(s: string): int {
    if s == [] then 0 else 10 * ReadDigits(s[..|s| - 1]) + (s[|s| - 1] as int - '0' as int)
  }

  function ReadDecimal(s: string): int {
    if s != [] && s[0] == '-' then -ReadDigits(s[1..]) else ReadDigits(s)
  }

  lemma {:induction false} DigitsRead(n: nat)
    ensures ReadDigits(Digits(n)) == n
  {
    if n < 10 {
      assert Digits(n)[..0] == [];
    } else {
      DigitsRead(n / 10);
      assert Digits(n)[..|Digits(n)| - 1] == Digits(n / 10);
    }
  }

  /** What is printed reads back as the same number. */
  lemma DecimalRead(v: int)
    ensures ReadDecimal(Decimal(v)) == v
  {
    DigitsRead(if v < 0 then -v else v);
    if v < 0 {
      assert Decimal(v)[1..] == Digits(-v);
    }
  }

  /** The lock name is the channel's number in braces; a payment's key is channel and nonce with a slash between. */
  lemma KeysRead(id: int, nonce: int)
    ensures var s := ChannelKeyString(id);
            |s| > 6 && s[..5] == "{ID: " && s[|s| - 1] == '}' && ReadDecimal(s[5..|s| - 1]) == id
    ensures exists k :: var s := PaymentID(id, nonce);
              0 <= k < |s| && s[k] == '/' && ReadDecimal(s[..k]) == id && ReadDecimal(s[k + 1..]) == nonce
  {
    DecimalRead(id);
    DecimalRead(nonce);
    var s, t, k := ChannelKeyString(id), PaymentID(id, nonce), |Decimal(id)|;
    assert Decimal(id) != [];
    assert s[5..|s| - 1] == Decimal(id);
    assert t[..k] == Decimal(id) && t[k + 1..] == Decimal(nonce) && t[k] == '/';
  }

  lemma {:induction false} DigitsInjective(a: nat, b: nat)
    requires Digits(a) == Digits(b)
    ensures a == b
    decreases a
  {
    var s, t := Digits(a), Digits(b);
    assert s[|s| - 1] == Digit(a % 10) && t[|t| - 1] == Digit(b % 10);
    if a >= 10 && b >= 10 {
      assert s[..|s| - 1] == Digits(a / 10) && t[..|t| - 1] == Digits(b / 10);
      DigitsInjective(a / 10, b / 10);
    }
  }

  lemma DecimalInjective(a: int, b: int)
    requires Decimal(a) == Decimal(b)
    ensures a == b
  {
    var s, t := Decimal(a), Decimal(b);
    assert s[0] == t[0];
    if a < 0 && b < 0 {
      assert s[1..] == Digits(-a) && t[1..] == Digits(-b);
      DigitsInjective(-a, -b);
    } else if a >= 0 && b >= 0 {
      DigitsInjective(a, b);
    }
  }

  /** A separator that occurs in neither left part fixes where the parts meet. */
  lemma SplitUnique(a: string, b: string, a': string, b': string, c: char)
    requires a + [c] + b == a' + [c] + b'
    requires c !in a && c !in a'
    ensures a == a' && b == b'
  {
    var s, t := a + [c] + b, a' + [c] + b';
    assert s[|a|] == c && forall i | 0 <= i < |a| :: s[i] == a[i] != c;
    assert t[|a'|] == c && forall i | 0 <= i < |a'| :: t[i] == a'[i] != c;
    assert a == s[..|a|] && a' == t[..|a'|];
    assert b == s[|a| + 1..] && b' == t[|a'| + 1..];
  }

  /** Distinct (channel, nonce) pairs have distinct payment keys. */
  lemma PaymentIDInjective(id: int, nonce: int, id': int, nonce': int)
    ensures PaymentID(id, nonce) == PaymentID(id', nonce') <==> id == id' && nonce == nonce'
  {
    if PaymentID(id, nonce) == PaymentID(id', nonce') {
      SplitUnique(Decimal(id), Decimal(nonce), Decimal(id'), Decimal(nonce'), '/');
      DecimalInjective(id, id');
      DecimalInjective(nonce, nonce');
    }
  }

  /** Distinct channels have distinct lock names. */
  lemma ChannelKeyStringInjective(id: int, id': int)
    ensures ChannelKeyString(id) == ChannelKeyString(id') <==> id == id'
  {
    var s, t := ChannelKeyString(id), ChannelKeyString(id');
    if s == t {
      assert s[5..|s| - 1] == Decimal(id) && t[5..|t| - 1] == Decimal(id');
      DecimalInjective(id, id');
    }
  }

  /** The payment key of (id, nonce) is the key of no other pair. */
  lemma PaymentIDUnique(id: int, nonce: int)
    ensures forall id', nonce' :: PaymentID(id', nonce') == PaymentID(id, nonce) ==> id' == id && nonce' == nonce
  {
    forall id', nonce' | PaymentID(id', nonce') == PaymentID(id, nonce) ensures id' == id && nonce' == nonce {
      PaymentIDInjective(id', nonce', id, nonce);
    }
  }
}
