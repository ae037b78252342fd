/**
  The reference the distributed daemon is compared with: one bookkeeper who serves every
  paid call and every claim of a channel completely, one after another, with no lock, no
  shared store and no failures.
 */
module Ledger {
  import opened Wrappers
  import opened Encoding
  import opened Records

  /** One served operation, with what was read from the blockchain while serving it. */
  datatype Op =
    | PayOp(payment: Payment, read: ChainRead, block: nat)
    | ClaimOp

  /**
    channel: the stored record. claims: every claim ever started, by nonce. paid: how many
    calls were paid for. lost: amounts dropped because the chain nonce overtook them.
   */
  datatype Books = Books(channel: Option<ChannelData>, claims: map<int, Payment>, paid: nat, lost: int)

  const EMPTY_BOOKS := Books(None, map[], 0, 0)

  function MergedFor(cfg: Config, id: int, b: Books, read: ChainRead): Option<ChannelData> {
    var m := Resolve(cfg, id, b.channel, read);
    if m.Success? then m.value else None
  }

  predicate Admissible(cfg: Config, id: int, b: Books, op: Op) {
    match op
    case PayOp(payment, read, block) =>
      var m := MergedFor(cfg, id, b, read);
      && payment.mpe == cfg.mpe && payment.channelID == id
      && m.Some?
      && Validate(cfg, payment, m.value, Some(block)).Success?
      && IncomeIsPrice(cfg, payment, m.value)
    case ClaimOp => b.channel.Some?
  }

  function Serve(cfg: Config, id: int, b: Books, op: Op): Books
    requires Admissible(cfg, id, b, op)
  {
    match op
    case PayOp(payment, read, block) =>
      var m := MergedFor(cfg, id, b, read).value;
      var dropped := if b.channel.Some? && b.channel.value.nonce != m.nonce then b.channel.value.authorizedAmount else 0;
      Books(Some(Paid(m, payment)), b.claims, b.paid + 1, b.lost + dropped)
    case ClaimOp =>
      var record := b.channel.value;
      Books(Some(IncrementNonce(record)), b.claims[record.nonce := ClaimOf(record)], b.paid, b.lost)
  }

  /** The books after serving a whole log; an operation that must be refused changes nothing. */
  function Replay(cfg: Config, id: int, log: seq<Op>): Books {
    if log == [] then EMPTY_BOOKS
    else
      var b := Replay(cfg, id, log[..|log| - 1]);
      var op := log[|log| - 1];
      if Admissible(cfg, id, b, op) then Serve(cfg, id, b, op) else b
  }

  /** Every operation of the log was one the bookkeeper would have accepted at its turn. */
  ghost predicate Accepted(cfg: Config, id: int, log: seq<Op>) {
    log == [] || (Accepted(cfg, id, log[..|log| - 1])
                  && Admissible(cfg, id, Replay(cfg, id, log[..|log| - 1]), log[|log| - 1]))
  }

  lemma ReplayNext(cfg: Config, id: int, log: seq<Op>, op: Op)
    requires Accepted(cfg, id, log) && Admissible(cfg, id, Replay(cfg, id, log), op)
    ensures Accepted(cfg, id, log + [op])
    ensures Replay(cfg, id, log + [op]) == Serve(cfg, id, Replay(cfg, id, log), op)
  {
    assert (log + [op])[..|log + [op]| - 1] == log;
  }

  // ------------------------------------------------------------ amounts owed

  /** The sum of the claims with a nonce in lo .. hi. */
  function Owed(claims: map<int, Payment>, lo: int, hi: int): int
    decreases hi - lo
  {
    if lo >= hi then 0
    else (if lo in claims then claims[lo].amount else 0) + Owed(claims, lo + 1, hi)
  }

  lemma {:induction false} OwedIgnoresOutside(claims: map<int, Payment>, n: int, p: Payment, lo: int, hi: int)
    requires n < lo || hi <= n
    ensures Owed(claims[n := p], lo, hi) == Owed(claims, lo, hi)
    decreases hi - lo
  {
    if lo < hi {
      OwedIgnoresOutside(claims, n, p, lo + 1, hi);
    }
  }

  lemma {:induction false} OwedSplit(claims: map<int, Payment>, lo: int, mid: int, hi: int)
    requires lo <= mid <= hi
    ensures Owed(claims, lo, hi) == Owed(claims, lo, mid) + Owed(claims, mid, hi)
    decreases mid - lo
  {
    if lo < mid {
      OwedSplit(claims, lo + 1, mid, hi);
    }
  }

  lemma {:induction false} OwedNothing(claims: map<int, Payment>, lo: int, hi: int)
    requires forall n | n in claims :: n < lo || hi <= n
    ensures Owed(claims, lo, hi) == 0
    decreases hi - lo
  {
    if lo < hi {
      OwedNothing(claims, lo + 1, hi);
    }
  }

  lemma {:induction false} OwedNonNegative(claims: map<int, Payment>, lo: int, hi: int)
    requires forall n | n in claims :: claims[n].amount >= 0
    ensures Owed(claims, lo, hi) >= 0
    decreases hi - lo
  {
    if lo < hi {
      OwedNonNegative(claims, lo + 1, hi);
    }
  }

  lemma OwedGrows(claims: map<int, Payment>, lo: int, n: int, p: Payment)
    requires lo <= n
    ensures Owed(claims[n := p], lo, n + 1) == Owed(claims, lo, n) + p.amount
  {
    OwedSplit(claims[n := p], lo, n, n + 1);
    OwedIgnoresOutside(claims, n, p, lo, n);
    assert Owed(claims[n := p], n + 1, n + 1) == 0;
  }

  /** Only the claims with these nonces. */
  function Only(claims: map<int, Payment>, nonces: set<int>): map<int, Payment> {
    map n | n in claims && n in nonces :: claims[n]
  }

  lemma {:induction false} OwedInThreeParts(claims: map<int, Payment>, a: set<int>, b: set<int>, c: set<int>, lo: int, hi: int)
    requires claims.Keys == a + b + c && a !! b && a !! c && b !! c
    ensures Owed(claims, lo, hi) == Owed(Only(claims, a), lo, hi) + Owed(Only(claims, b), lo, hi) + Owed(Only(claims, c), lo, hi)
    decreases hi - lo
  {
    if lo < hi {
      OwedInThreeParts(claims, a, b, c, lo + 1, hi);
      assert lo in claims <==> lo in claims.Keys;
    }
  }

  // --------------------------------------------------- what every log keeps

  /** Every claim was started below the stored nonce. */
  ghost predicate Ahead(claims: map<int, Payment>, nonce: int) {
    forall n | n in claims :: 0 <= n < nonce
  }

  /**
    The record is the payer's promise: 0 <= authorised <= deposited, and unless nothing is
    authorised it carries the payer's signature for exactly that amount and nonce.
   */
  ghost predicate RecordOk(cfg: Config, id: int, payer: Address, r: ChannelData) {
    && r.channelID == id && r.signer == payer
    && 0 <= r.nonce
    && 0 <= r.authorizedAmount <= r.fullAmount
    && SignedUnlessZero(cfg, r.signature, payer, id, r.nonce, r.authorizedAmount)
  }

  ghost predicate SignedUnlessZero(cfg: Config, signature: Option<Signature>, payer: Address, id: int, nonce: int, amount: int) {
    if signature.None? then amount == 0 else Authorises(cfg, signature, payer, id, nonce, amount)
  }

  /** A claim carries the payer's signature for exactly its amount, or is empty. */
  ghost predicate ClaimOk(cfg: Config, id: int, payer: Address, n: int, p: Payment) {
    && p.channelID == id && p.channelNonce == n && 0 <= p.amount
    && SignedUnlessZero(cfg, p.signature, payer, id, n, p.amount)
  }

  ghost predicate BooksOk(cfg: Config, id: int, payer: Address, b: Books) {
    && (forall n | n in b.claims :: ClaimOk(cfg, id, payer, n, b.claims[n]))
    && if b.channel.None? then b == EMPTY_BOOKS else
       var r := b.channel.value;
       && RecordOk(cfg, id, payer, r)
       && Ahead(b.claims, r.nonce)
       && 0 <= b.lost
       && Owed(b.claims, 0, r.nonce) + r.authorizedAmount + b.lost == cfg.price * b.paid
  }

  /** The payer opened the channel on the blockchain; its signer never changes there. */
  predicate ReadsPayer(payer: Address, op: Op) {
    op.PayOp? && op.read.Found? ==> op.read.channel.signer == payer
  }

  lemma PayKeepsBooks(cfg: Config, id: int, payer: Address, b: Books, op: Op)
    requires BooksOk(cfg, id, payer, b) && op.PayOp? && Admissible(cfg, id, b, op) && ReadsPayer(payer, op)
    ensures BooksOk(cfg, id, payer, Serve(cfg, id, b, op))
  {
    PayKeepsRecord(cfg, id, payer, b, op);
    PayKeepsIncome(cfg, id, payer, b, op);
  }

  lemma PayKeepsRecord(cfg: Config, id: int, payer: Address, b: Books, op: Op)
    requires BooksOk(cfg, id, payer, b) && op.PayOp? && Admissible(cfg, id, b, op) && ReadsPayer(payer, op)
    ensures RecordOk(cfg, id, payer, Serve(cfg, id, b, op).channel.value)
    ensures Nonce(b) <= Serve(cfg, id, b, op).channel.value.nonce
  {
    var m := MergedFor(cfg, id, b, op.read).value;
    assert Serve(cfg, id, b, op).channel.value.authorizedAmount == m.authorizedAmount + cfg.price;
  }

  lemma OnceMore(price: int, paid: int)
    ensures price * (paid + 1) == price * paid + price
  {}

  /** Nothing is owed above the stored nonce. */
  lemma OwedAbove(cfg: Config, id: int, payer: Address, b: Books, hi: int)
    requires BooksOk(cfg, id, payer, b) && Nonce(b) <= hi && 0 <= hi
    ensures Owed(b.claims, 0, hi) == if b.channel.Some? then Owed(b.claims, 0, Nonce(b)) else 0
  {
    if b.channel.Some? {
      OwedSplit(b.claims, 0, Nonce(b), hi);
      OwedNothing(b.claims, Nonce(b), hi);
    } else {
      OwedNothing(b.claims, 0, hi);
    }
  }

  lemma PayKeepsIncome(cfg: Config, id: int, payer: Address, b: Books, op: Op)
    requires BooksOk(cfg, id, payer, b) && op.PayOp? && Admissible(cfg, id, b, op)
    ensures var b' := Serve(cfg, id, b, op);
            var r' := b'.channel.value;
            0 <= b'.lost && Owed(b'.claims, 0, r'.nonce) + r'.authorizedAmount + b'.lost == cfg.price * b'.paid
  {
    var m := MergedFor(cfg, id, b, op.read).value;
    OnceMore(cfg.price, b.paid);
    OwedAbove(cfg, id, payer, b, m.nonce);
  }

  lemma ClaimKeepsBooks(cfg: Config, id: int, payer: Address, b: Books)
    requires BooksOk(cfg, id, payer, b) && b.channel.Some?
    ensures BooksOk(cfg, id, payer, Serve(cfg, id, b, ClaimOp))
  {
    var r := b.channel.value;
    OwedGrows(b.claims, 0, r.nonce, ClaimOf(r));
  }

  /**
    Exact income, sound records and signed claims after every log: what has been claimed
    plus what is authorised plus what was lost is the price times the number of paid calls.
   */
  lemma {:induction false} ReplayKeepsBooks(cfg: Config, id: int, payer: Address, log: seq<Op>)
    requires Accepted(cfg, id, log) && forall i | 0 <= i < |log| :: ReadsPayer(payer, log[i])
    ensures BooksOk(cfg, id, payer, Replay(cfg, id, log))
  {
    if log != [] {
      var init, op := log[..|log| - 1], log[|log| - 1];
      ReplayKeepsBooks(cfg, id, payer, init);
      if op.PayOp? {
        PayKeepsBooks(cfg, id, payer, Replay(cfg, id, init), op);
      } else {
        ClaimKeepsBooks(cfg, id, payer, Replay(cfg, id, init));
      }
    }
  }

  // ------------------------------------------------- what one claim is worth

  /** How many paid calls of the log named this nonce. */
  function PaysAt(log: seq<Op>, n: int): nat {
    if log == [] then 0
    else
      var last := log[|log| - 1];
      PaysAt(log[..|log| - 1], n) + if last.PayOp? && last.payment.channelNonce == n then 1 else 0
  }

  /** The amount is the price of that many calls, and there is a signature exactly if there was a call. */
  predicate WorthPaid(cfg: Config, pays: nat, amount: int, signature: Option<Signature>) {
    amount == cfg.price * pays && (signature.Some? <==> pays > 0)
  }

  ghost predicate WorthOk(cfg: Config, log: seq<Op>, b: Books) {
    && (forall n | n > Nonce(b) :: PaysAt(log, n) == 0)
    && (b.channel.Some? ==>
          var r := b.channel.value; WorthPaid(cfg, PaysAt(log, r.nonce), r.authorizedAmount, r.signature))
    && (forall n | n in b.claims ::
          n < Nonce(b) && WorthPaid(cfg, PaysAt(log, n), b.claims[n].amount, b.claims[n].signature))
  }

  lemma PaysAtNext(log: seq<Op>, op: Op)
    ensures forall n :: PaysAt(log + [op], n) == PaysAt(log, n) + if op.PayOp? && op.payment.channelNonce == n then 1 else 0
  {
    assert (log + [op])[..|log + [op]| - 1] == log;
  }

  lemma PayKeepsWorth(cfg: Config, id: int, log: seq<Op>, b: Books, op: Op)
    requires WorthOk(cfg, log, b) && op.PayOp? && Admissible(cfg, id, b, op)
    ensures WorthOk(cfg, log + [op], Serve(cfg, id, b, op))
  {
    var m := MergedFor(cfg, id, b, op.read).value;
    PaysAtNext(log, op);
    OnceMore(cfg.price, PaysAt(log, m.nonce));
  }

  lemma ClaimKeepsWorth(cfg: Config, id: int, log: seq<Op>, b: Books)
    requires WorthOk(cfg, log, b) && b.channel.Some?
    ensures WorthOk(cfg, log + [ClaimOp], Serve(cfg, id, b, ClaimOp))
  {
    PaysAtNext(log, ClaimOp);
  }

  /**
    After every log each claim is worth exactly the calls that were paid at its nonce, and
    the record those paid at the current one.
   */
  lemma {:induction false} ReplayKeepsWorth(cfg: Config, id: int, log: seq<Op>)
    requires Accepted(cfg, id, log)
    ensures WorthOk(cfg, log, Replay(cfg, id, log))
  {
    if log != [] {
      var init, op := log[..|log| - 1], log[|log| - 1];
      assert log == init + [op];
      ReplayKeepsWorth(cfg, id, init);
      if op.PayOp? {
        PayKeepsWorth(cfg, id, init, Replay(cfg, id, init), op);
      } else {
        ClaimKeepsWorth(cfg, id, init, Replay(cfg, id, init));
      }
    }
  }

  // --------------------------------------------------- the deposit, exactly

  /** The blockchain's channel as last read by a paid call that was not behind the record. */
  function LastDeposit(cfg: Config, id: int, log: seq<Op>): Option<ChainChannel> {
    if log == [] then None
    else
      var init, op := log[..|log| - 1], log[|log| - 1];
      if op.PayOp? && op.read.Found? && op.read.channel.recipient == cfg.recipient
         && Nonce(Replay(cfg, id, init)) <= op.read.channel.nonce
      then Some(op.read.channel) else LastDeposit(cfg, id, init)
  }

  /** The record's deposit is the one last read, less the claims started since, and its expiration is from there too. */
  ghost predicate DepositOk(b: Books, last: Option<ChainChannel>) {
    b.channel.Some? ==>
      var r := b.channel.value;
      && last.Some? && last.value.nonce <= r.nonce
      && r.fullAmount == last.value.value - Owed(b.claims, last.value.nonce, r.nonce)
      && r.expiration == last.value.expiration
  }

  lemma PayKeepsDeposit(cfg: Config, id: int, b: Books, op: Op, last: Option<ChainChannel>)
    requires DepositOk(b, last) && op.PayOp? && Admissible(cfg, id, b, op) && Ahead(b.claims, Nonce(b))
    ensures var current := op.read.Found? && op.read.channel.recipient == cfg.recipient && Nonce(b) <= op.read.channel.nonce;
            DepositOk(Serve(cfg, id, b, op), if current then Some(op.read.channel) else last)
  {
    if b.channel.Some? {
      ResolveStored(cfg, id, b.channel.value, op.read);
    } else {
      ResolveNew(cfg, id, op.read);
    }
    if op.read.Found? {
      assert Owed(b.claims, op.read.channel.nonce, op.read.channel.nonce) == 0;
    }
  }

  lemma ClaimKeepsDeposit(cfg: Config, id: int, b: Books, last: Option<ChainChannel>)
    requires DepositOk(b, last) && b.channel.Some?
    ensures DepositOk(Serve(cfg, id, b, ClaimOp), last)
  {
    OwedGrows(b.claims, last.value.nonce, b.channel.value.nonce, ClaimOf(b.channel.value));
  }

  /** After every log the deposit in the record is exact. */
  lemma {:induction false} ReplayKeepsDeposit(cfg: Config, id: int, payer: Address, log: seq<Op>)
    requires Accepted(cfg, id, log) && forall i | 0 <= i < |log| :: ReadsPayer(payer, log[i])
    ensures DepositOk(Replay(cfg, id, log), LastDeposit(cfg, id, log))
  {
    if log != [] {
      var init, op := log[..|log| - 1], log[|log| - 1];
      ReplayKeepsDeposit(cfg, id, payer, init);
      ReplayKeepsBooks(cfg, id, payer, init);
      if op.PayOp? {
        PayKeepsDeposit(cfg, id, Replay(cfg, id, init), op, LastDeposit(cfg, id, init));
      } else {
        ClaimKeepsDeposit(cfg, id, Replay(cfg, id, init), LastDeposit(cfg, id, init));
      }
    }
  }

  // ------------------------------------------------------------ monotonicity

  function Nonce(b: Books): int {
    if b.channel.Some? then b.channel.value.nonce else -1
  }

  /**
    Later books only grow: nonce, claims, paid calls. While the nonce stands still nothing is
    claimed or lost, and the authorised amount has risen by exactly the price of each call.
   */
  ghost predicate Follows(cfg: Config, b: Books, b': Books) {
    && Nonce(b) <= Nonce(b')
    && b.paid <= b'.paid && b.lost <= b'.lost
    && (forall n | n in b.claims :: n in b'.claims && b'.claims[n] == b.claims[n])
    && (Nonce(b) == Nonce(b') && b.channel.Some? && b'.channel.Some? ==>
          && b'.channel.value.authorizedAmount == b.channel.value.authorizedAmount + cfg.price * (b'.paid - b.paid)
          && b'.claims == b.claims && b'.lost == b.lost)
  }

  lemma ServeFollows(cfg: Config, id: int, payer: Address, b: Books, op: Op)
    requires BooksOk(cfg, id, payer, b) && Admissible(cfg, id, b, op)
    ensures Follows(cfg, b, Serve(cfg, id, b, op))
  {}

  lemma FollowsTransitive(cfg: Config, a: Books, b: Books, c: Books)
    requires Follows(cfg, a, b) && Follows(cfg, b, c) && (b.channel.None? ==> a.channel.None?)
    ensures Follows(cfg, a, c)
  {
    assert cfg.price * (c.paid - a.paid) == cfg.price * (c.paid - b.paid) + cfg.price * (b.paid - a.paid);
  }

  lemma {:induction false} ReplayFollows(cfg: Config, id: int, payer: Address, log: seq<Op>, i: nat)
    requires i <= |log| && Accepted(cfg, id, log) && forall k | 0 <= k < |log| :: ReadsPayer(payer, log[k])
    ensures Accepted(cfg, id, log[..i])
    ensures Follows(cfg, Replay(cfg, id, log[..i]), Replay(cfg, id, log))
    ensures Replay(cfg, id, log[..i]).channel.Some? ==> Replay(cfg, id, log).channel.Some?
  {
    if i == |log| {
      assert log[..i] == log;
    } else {
      var init, op := log[..|log| - 1], log[|log| - 1];
      assert init[..i] == log[..i];
      ReplayFollows(cfg, id, payer, init, i);
      ReplayKeepsBooks(cfg, id, payer, init);
      var b := Replay(cfg, id, init);
      ServeFollows(cfg, id, payer, b, op);
      FollowsTransitive(cfg, Replay(cfg, id, log[..i]), b, Serve(cfg, id, b, op));
    }
  }
}
