/**
  Integers as 32-byte words and the messages that clients and the provider sign.
  Words are uint256 values in the big-endian form of the Ethereum Contract ABI
  Specification, section "Formal Specification of the Encoding".
 */
module Encoding {

  type byte = x: int | 0 <= x < 256

  /** An Ethereum address. */
  type Address = a: seq<byte> | |a| == 20 witness seq(20, i => 0)

  const WORD_BYTES: nat := 32

  /** 2^256, the first value that no longer fits a word. */
  const WORD_LIMIT: nat := Power256(WORD_BYTES)

  function Power256(n: nat): (r: nat)
    ensures r > 0
  {
    if n == 0 then 1 else 256 * Power256(n - 1)
  }

  function Abs(v: int): nat {
    if v < 0 then -v else v
  }

  /** big.Int.SetBytes: the value of a big-endian byte string of any length. */
  function BytesToBigInt(b: seq<byte>): nat {
    if b == [] then 0 else BytesToBigInt(b[..|b| - 1]) * 256 + b[|b| - 1]
  }

  /** big.Int.Bytes: the shortest big-endian form of the absolute value. */
  function MinimalBytes(n: nat): seq<byte> {
    if n == 0 then [] else MinimalBytes(n / 256) + [n % 256]
  }

  function Zeros(n: nat): seq<byte> {
    seq(n, i => 0)
  }

  /** common.BytesToHash: keep the last 32 bytes, or pad on the left. */
  function ToWord(b: seq<byte>): seq<byte> {
    if |b| > WORD_BYTES then b[|b| - WORD_BYTES..] else Zeros(WORD_BYTES - |b|) + b
  }

  function BigIntToBytes(v: int): seq<byte> {
    ToWord(MinimalBytes(Abs(v)))
  }

  /** abi.U256 of an int64: two's complement, so a negative value wraps. */
  function U256(v: int): seq<byte> {
    BigIntToBytes(v % WORD_LIMIT)
  }

  // ---------------------------------------------------------------- words

  lemma {:induction false} BytesToBigIntAppend(a: seq<byte>, b: seq<byte>)
    ensures BytesToBigInt(a + b) == BytesToBigInt(a) * Power256(|b|) + BytesToBigInt(b)
  {
    if b == [] {
      assert a + b == a;
    } else {
      var init := b[..|b| - 1];
      assert (a + b)[..|a + b| - 1] == a + init;
      BytesToBigIntAppend(a, init);
    }
  }

  lemma {:induction false} BytesToBigIntBound(b: seq<byte>)
    ensures BytesToBigInt(b) < Power256(|b|)
  {
    if b != [] {
      BytesToBigIntBound(b[..|b| - 1]);
    }
  }

  lemma {:induction false} MinimalBytesValue(n: nat)
    ensures BytesToBigInt(MinimalBytes(n)) == n
  {
    if n != 0 {
      MinimalBytesValue(n / 256);
      var b := MinimalBytes(n);
      assert b[..|b| - 1] == MinimalBytes(n / 256);
    }
  }

  lemma {:induction false} ZerosValue(n: nat)
    ensures BytesToBigInt(Zeros(n)) == 0
  {
    if n > 0 {
      assert Zeros(n)[..n - 1] == Zeros(n - 1);
      ZerosValue(n - 1);
    }
  }

  lemma MultipleGrows(m: nat, k: int)
    ensures k >= 1 ==> m * k >= m
    ensures k <= -1 ==> m * k <= 0 - m
  {
    if k >= 1 {
      assert m * (k - 1) >= 0;
    } else if k <= -1 {
      assert m * (-k - 1) >= 0;
    }
  }

  lemma ModUnique(q: nat, m: nat, r: nat)
    requires r < m
    ensures (q * m + r) % m == r
  {
    var x := q * m + r;
    assert m * (q - x / m) == x % m - r;
    MultipleGrows(m, q - x / m);
  }

  /** A byte string turned into a word keeps its value up to 2^256. */
  lemma ToWordValue(b: seq<byte>)
    ensures |ToWord(b)| == WORD_BYTES
    ensures BytesToBigInt(ToWord(b)) == BytesToBigInt(b) % WORD_LIMIT
  {
    if |b| > WORD_BYTES {
      CropValue(b[..|b| - WORD_BYTES], ToWord(b));
      assert b == b[..|b| - WORD_BYTES] + ToWord(b);
    } else {
      ZerosValue(WORD_BYTES - |b|);
      CropValue([], ToWord(b));
      assert [] + ToWord(b) == ToWord(b);
      BytesToBigIntAppend(Zeros(WORD_BYTES - |b|), b);
    }
  }

  lemma CropValue(high: seq<byte>, w: seq<byte>)
    requires |w| == WORD_BYTES
    ensures BytesToBigInt(high + w) % WORD_LIMIT == BytesToBigInt(w)
  {
    BytesToBigIntBound(w);
    BytesToBigIntAppend(high, w);
    ModUnique(BytesToBigInt(high), WORD_LIMIT, BytesToBigInt(w));
  }

  /** Every integer becomes one word holding its absolute value modulo 2^256. */
  lemma BigIntToBytesValue(v: int)
    ensures |BigIntToBytes(v)| == WORD_BYTES
    ensures BytesToBigInt(BigIntToBytes(v)) == Abs(v) % WORD_LIMIT
  {
    MinimalBytesValue(Abs(v));
    ToWordValue(MinimalBytes(Abs(v)));
  }

  /** The round trip is the identity exactly on the uint256 values. */
  lemma RoundTrip(v: int)
    ensures BytesToBigInt(BigIntToBytes(v)) == v <==> 0 <= v < WORD_LIMIT
  {
    BigIntToBytesValue(v);
    if 0 <= v < WORD_LIMIT {
      ModUnique(0, WORD_LIMIT, v);
    }
  }

  lemma {:induction false} BytesToBigIntInjective(a: seq<byte>, b: seq<byte>)
    requires |a| == |b| && BytesToBigInt(a) == BytesToBigInt(b)
    ensures a == b
  {
    if a != [] {
      var n := |a| - 1;
      BytesToBigIntInjective(a[..n], b[..n]);
      assert a == a[..n] + [a[n]] && b == b[..n] + [b[n]];
    }
  }

  /**
    Clients may send a word padded with zeros or not: reading at most 32 bytes and
    writing the value back gives the padded word, whatever the padding was.
   */
  lemma PaddingIrrelevant(b: seq<byte>, k: nat)
    requires k + |b| <= WORD_BYTES
    ensures BytesToBigInt(Zeros(k) + b) == BytesToBigInt(b)
    ensures BigIntToBytes(BytesToBigInt(Zeros(k) + b)) == Zeros(WORD_BYTES - |b|) + b
  {
    ZerosValue(k);
    BytesToBigIntAppend(Zeros(k), b);
    var v := BytesToBigInt(b);
    ToWordValue(b);
    BigIntToBytesValue(v);
    BytesToBigIntInjective(BigIntToBytes(v), ToWord(b));
  }

  /** Two integers share a word exactly when their absolute values agree modulo 2^256. */
  lemma SameWord(x: int, y: int)
    ensures BigIntToBytes(x) == BigIntToBytes(y) <==> Abs(x) % WORD_LIMIT == Abs(y) % WORD_LIMIT
  {
    BigIntToBytesValue(x);
    BigIntToBytesValue(y);
    if Abs(x) % WORD_LIMIT == Abs(y) % WORD_LIMIT {
      BytesToBigIntInjective(BigIntToBytes(x), BigIntToBytes(y));
    }
  }

  // ------------------------------------------------------------- messages

  /** What a client signs to authorise an amount. */
  function PaymentMessage(mpe: Address, channelID: int, nonce: int, amount: int): seq<byte> {
    mpe + BigIntToBytes(channelID) + BigIntToBytes(nonce) + BigIntToBytes(amount)
  }

  function Text(s: string): (r: seq<byte>)
    requires forall i | 0 <= i < |s| :: s[i] as int < 256
    ensures |r| == |s|
  {
    seq(|s|, i requires 0 <= i < |s| => s[i] as int)
  }

  function StartClaimMessage(mpe: Address, channelID: int, nonce: int): seq<byte> {
    Text("__start_claim") + mpe + BigIntToBytes(channelID) + BigIntToBytes(nonce)
  }

  function ListUnclaimedMessage(mpe: Address, block: int): seq<byte> {
    Text("__list_unclaimed") + mpe + U256(block)
  }

  function ListInProgressMessage(mpe: Address, block: int): seq<byte> {
    Text("__list_in_progress") + mpe + U256(block)
  }

  function ChannelStateMessage(channelID: int): seq<byte> {
    BigIntToBytes(channelID)
  }

  /**
    Two payments have the same signed message exactly when contract, channel, nonce and
    amount have the same words; so a signature never covers a different in-range payment.
   */
  lemma PaymentMessageInjective(m: Address, i: int, n: int, a: int, m': Address, i': int, n': int, a': int)
    ensures PaymentMessage(m, i, n, a) == PaymentMessage(m', i', n', a') <==>
            (m == m'
             && Abs(i) % WORD_LIMIT == Abs(i') % WORD_LIMIT
             && Abs(n) % WORD_LIMIT == Abs(n') % WORD_LIMIT
             && Abs(a) % WORD_LIMIT == Abs(a') % WORD_LIMIT)
  {
    SameWord(i, i');
    SameWord(n, n');
    SameWord(a, a');
    BigIntToBytesValue(i);
    BigIntToBytesValue(n);
    BigIntToBytesValue(a);
    BigIntToBytesValue(i');
    BigIntToBytesValue(n');
    BigIntToBytesValue(a');
    var x, y := PaymentMessage(m, i, n, a), PaymentMessage(m', i', n', a');
    assert x[..20] == m && x[20..52] == BigIntToBytes(i) && x[52..84] == BigIntToBytes(n) && x[84..] == BigIntToBytes(a);
    assert y[..20] == m' && y[20..52] == BigIntToBytes(i') && y[52..84] == BigIntToBytes(n') && y[84..] == BigIntToBytes(a');
  }

  /** In-range payments with the same signed message are the same payment. */
  lemma InRangePaymentsDiffer(m: Address, i: int, n: int, a: int, i': int, n': int, a': int)
    requires 0 <= i < WORD_LIMIT && 0 <= n < WORD_LIMIT && 0 <= a < WORD_LIMIT
    requires 0 <= i' < WORD_LIMIT && 0 <= n' < WORD_LIMIT && 0 <= a' < WORD_LIMIT
    requires PaymentMessage(m, i, n, a) == PaymentMessage(m, i', n', a')
    ensures i == i' && n == n' && a == a'
  {
    PaymentMessageInjective(m, i, n, a, m, i', n', a');
    forall v | v in {i, n, a, i', n', a'} ensures v % WORD_LIMIT == v {
      ModUnique(0, WORD_LIMIT, v);
    }
  }

  /** The bytes are the characters of the text. */
  predicate Spells(b: seq<byte>, text: string) {
    |b| == |text| && forall i | 0 <= i < |b| :: b[i] == text[i] as int
  }

  /** The words of a message decode to the numbers they were made of. */
  lemma PaymentMessageLayout(mpe: Address, i: int, n: int, a: int)
    requires 0 <= i < WORD_LIMIT && 0 <= n < WORD_LIMIT && 0 <= a < WORD_LIMIT
    ensures var m := PaymentMessage(mpe, i, n, a);
            && |m| == 116 && m[..20] == mpe
            && BytesToBigInt(m[20..52]) == i && BytesToBigInt(m[52..84]) == n && BytesToBigInt(m[84..]) == a
  {
    RoundTrip(i);
    RoundTrip(n);
    RoundTrip(a);
    MessageLengths(mpe, i, n, a, 0);
    var m := PaymentMessage(mpe, i, n, a);
    BigIntToBytesValue(i);
    BigIntToBytesValue(n);
    assert m[20..52] == BigIntToBytes(i) && m[52..84] == BigIntToBytes(n) && m[84..] == BigIntToBytes(a);
  }

  lemma StartClaimMessageLayout(mpe: Address, i: int, n: int)
    requires 0 <= i < WORD_LIMIT && 0 <= n < WORD_LIMIT
    ensures var m := StartClaimMessage(mpe, i, n);
            && |m| == 97 && Spells(m[..13], "__start_claim") && m[13..33] == mpe
            && BytesToBigInt(m[33..65]) == i && BytesToBigInt(m[65..]) == n
  {
    RoundTrip(i);
    RoundTrip(n);
    MessageLengths(mpe, i, n, 0, 0);
    var m := StartClaimMessage(mpe, i, n);
    BigIntToBytesValue(i);
    assert m[13..33] == mpe && m[33..65] == BigIntToBytes(i) && m[65..] == BigIntToBytes(n);
  }

  lemma U256Value(v: int)
    requires 0 - WORD_LIMIT <= v < WORD_LIMIT
    ensures |U256(v)| == WORD_BYTES
    ensures BytesToBigInt(U256(v)) == if v < 0 then v + WORD_LIMIT else v
  {
    BigIntToBytesValue(v % WORD_LIMIT);
    RoundTrip(v % WORD_LIMIT);
    ModOnce(v, WORD_LIMIT);
  }

  lemma ModOnce(v: int, m: nat)
    requires 0 - m <= v < m
    ensures v % m == if v < 0 then v + m else v
  {
    var w := if v < 0 then v + m else v;
    var q := if v < 0 then -1 else 0;
    assert m * (q - v / m) == v % m - w;
    MultipleGrows(m, q - v / m);
  }

  lemma TailOf(text: seq<byte>, mpe: Address, word: seq<byte>)
    ensures var m := text + mpe + word;
            |m| == |text| + 20 + |word| && m[..|text|] == text && m[|text|..|text| + 20] == mpe && m[|text| + 20..] == word
  {}

  /** The list messages end with the block; a negative one is read as its two's complement. */
  lemma ListMessageLayout(mpe: Address, block: int)
    requires 0 - WORD_LIMIT <= block < WORD_LIMIT
    ensures var m, m' := ListUnclaimedMessage(mpe, block), ListInProgressMessage(mpe, block);
            var word := if block < 0 then block + WORD_LIMIT else block;
            && |m| == 68 && Spells(m[..16], "__list_unclaimed") && m[16..36] == mpe && BytesToBigInt(m[36..]) == word
            && |m'| == 70 && Spells(m'[..18], "__list_in_progress") && m'[18..38] == mpe && BytesToBigInt(m'[38..]) == word
  {
    U256Value(block);
    TailOf(Text("__list_unclaimed"), mpe, U256(block));
    TailOf(Text("__list_in_progress"), mpe, U256(block));
  }

  /** No message of one kind can be replayed as another: the five lengths all differ. */
  lemma MessageLengths(mpe: Address, i: int, n: int, a: int, block: int)
    ensures |PaymentMessage(mpe, i, n, a)| == 116
    ensures |StartClaimMessage(mpe, i, n)| == 97
    ensures |ListInProgressMessage(mpe, block)| == 70
    ensures |ListUnclaimedMessage(mpe, block)| == 68
    ensures |ChannelStateMessage(i)| == 32
  {
    BigIntToBytesValue(i);
    BigIntToBytesValue(n);
    BigIntToBytesValue(a);
    BigIntToBytesValue(block % WORD_LIMIT);
  }
}
