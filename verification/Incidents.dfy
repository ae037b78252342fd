/**
  Runs in which a claim becomes stranded: a crash between the two writes of StartClaim, and
  two claims that race past the test for a zero amount. Both are built from any reachable
  state in which the channel has a record and its lock is free; the last lemma builds such
  a state from nothing.
 */
module Incidents {
  import opened Wrappers
  import opened Encoding
  import opened Records
  import opened Ledger
  import opened Protocol
  import opened Exclusion
  import opened ClaimRecords
  import opened Runs
  import opened Collection
  import opened Alone
  import opened Control
  import opened Storage

  /** A claim whose replica crashes after the first write. */
  function CrashedClaim(pid: nat): seq<Action> {
    Request(pid, LockGet(Claim), Fines(4)) + [Crash(pid)]
  }

  /** The claim is started, but has no payment record and never will have one. */
  lemma CrashStrands(cfg: Config, id: int, s: Sys, pid: nat)
    requires Reachable(cfg, id, s) && LockFree(s.sh) && pid !in s.procs
    requires s.sh.stored.Some? && s.sh.chain.Some? && s.sh.chain.value.nonce <= s.sh.stored.value.nonce
    ensures var n, t := s.sh.stored.value.nonce, After(cfg, id, s, CrashedClaim(pid));
            && Allowed(cfg, id, s, CrashedClaim(pid)) && Reachable(cfg, id, t)
            && Stranded(cfg, id, t, n) && n !in t.sh.payments && n !in t.recorded && n !in BeingRecorded(t)
  {
    var r, half := s.sh.stored.value, Request(pid, LockGet(Claim), Fines(4));
    ClaimHalfway(cfg, id, s.sh, r);
    StartedAlone(cfg, id, s, pid, LockGet(Claim), Fines(4));
    var u := After(cfg, id, s, half);
    ReachableAfter(cfg, id, s, half);
    ReachableInv(cfg, id, u);
    assert ClaimFits(u.sh, ClaimsOf(cfg, id, u), u.recorded, u.procs[pid]);
    BeingRecordedIs(u, pid);
    AfterNext(cfg, id, s, half, Crash(pid));
    CrashWhileRecording(cfg, id, u, Crash(pid));
    ReachableAfter(cfg, id, s, CrashedClaim(pid));
  }

  /** Two claims, one after the other. */
  function TwoClaims(p: nat, q: nat): seq<Action> {
    Request(p, LockGet(Claim), Fines(6)) + Request(q, LockGet(Claim), Fines(6))
  }

  lemma ClaimStarts(cfg: Config, id: int, s: Sys, pid: nat)
    requires LockFree(s.sh) && s.sh.stored.Some? && pid !in s.procs
    ensures var r, run := s.sh.stored.value, Request(pid, LockGet(Claim), Fines(6));
            var t := After(cfg, id, s, run);
            && Allowed(cfg, id, s, run)
            && t.sh == s.sh.(lock := Some(UNLOCKED), stored := Some(IncrementNonce(r)), payments := s.sh.payments[r.nonce := ClaimOf(r)])
            && t.procs == s.procs[pid := Done(ClaimStarted(ClaimOf(r)))]
  {
    ClaimAlone(cfg, id, s.sh, Books(s.sh.stored, map[], 0, 0), Fines(6));
    StartedAlone(cfg, id, s, pid, LockGet(Claim), Fines(6));
  }

  /** p has claimed r, and q an empty payment without a signature at the next nonce. */
  predicate SecondIsEmpty(t: Sys, r: ChannelData, p: nat, q: nat) {
    var empty := Payment(ZERO_ADDRESS, r.channelID, r.nonce + 1, 0, None);
    && Lookup(t.sh.payments, r.nonce) == Some(ClaimOf(r)) && Lookup(t.sh.payments, r.nonce + 1) == Some(empty)
    && Lookup(t.procs, p) == Some(Done(ClaimStarted(ClaimOf(r)))) && Lookup(t.procs, q) == Some(Done(ClaimStarted(empty)))
  }

  lemma TwoClaimsRun(cfg: Config, id: int, s: Sys, p: nat, q: nat)
    requires LockFree(s.sh) && s.sh.stored.Some? && p !in s.procs && q !in s.procs && p != q
    ensures var t := After(cfg, id, s, TwoClaims(p, q));
            && Allowed(cfg, id, s, TwoClaims(p, q))
            && t.sh.chain == s.sh.chain && SecondIsEmpty(t, s.sh.stored.value, p, q)
  {
    var one := Request(p, LockGet(Claim), Fines(6));
    ClaimStarts(cfg, id, s, p);
    ClaimStarts(cfg, id, After(cfg, id, s, one), q);
    AfterAppend(cfg, id, s, one, Request(q, LockGet(Claim), Fines(6)));
  }

  lemma UnsignedIsStranded(cfg: Config, id: int, s: Sys, n: int)
    requires Reachable(cfg, id, s) && n in s.sh.payments && s.sh.payments[n].signature.None?
    requires s.sh.chain.Some? && s.sh.chain.value.nonce <= n
    ensures Stranded(cfg, id, s, n)
  {
    ReachableInv(cfg, id, s);
  }

  /**
    Two claims that have both passed the test for a zero amount on the same state: the first
    takes the amount, and the second records an empty payment without a signature, which
    strands every later claim.
   */
  lemma RaceRecordsEmptyClaim(cfg: Config, id: int, s: Sys, p: nat, q: nat)
    requires Reachable(cfg, id, s) && LockFree(s.sh) && p !in s.procs && q !in s.procs && p != q
    requires Claimable(cfg, id, s.sh)
    requires s.sh.stored.Some? && s.sh.chain.Some? && s.sh.chain.value.nonce <= s.sh.stored.value.nonce
    ensures var r, t := s.sh.stored.value, After(cfg, id, s, TwoClaims(p, q));
            && Allowed(cfg, id, s, TwoClaims(p, q)) && Reachable(cfg, id, t)
            && SecondIsEmpty(t, r, p, q) && Stranded(cfg, id, t, r.nonce + 1)
  {
    TwoClaimsRun(cfg, id, s, p, q);
    ReachableAfter(cfg, id, s, TwoClaims(p, q));
    UnsignedIsStranded(cfg, id, After(cfg, id, s, TwoClaims(p, q)), s.sh.stored.value.nonce + 1);
  }

  // ------------------------------------------------------------ from nothing

  /** A client's first call, on a channel just opened. */
  function FirstCall(payment: Payment): seq<Action> {
    Request(0, LockGet(Pay(payment)), Fines(9))
  }

  lemma FirstCallPays(cfg: Config, id: int, s0: Sys, payment: Payment)
    requires Init(s0) && Admissible(cfg, id, EMPTY_BOOKS, PayOp(payment, ReadOf(s0.sh, Fine), s0.sh.block))
    ensures var s := After(cfg, id, s0, FirstCall(payment));
            && Reachable(cfg, id, s) && LockFree(s.sh) && s.procs.Keys == {0} && s.sh.chain == s0.sh.chain
            && s.sh.stored == Serve(cfg, id, EMPTY_BOOKS, PayOp(payment, ReadOf(s0.sh, Fine), s0.sh.block)).channel
  {
    PayAlone(cfg, id, s0.sh, payment, EMPTY_BOOKS, Fines(9));
    StartedAlone(cfg, id, s0, 0, LockGet(Pay(payment)), Fines(9));
  }

  const TOKEN: Signature := Zeros(SIGNATURE_BYTES)

  /** One token deposited, one token a call, and every signature is the client's. */
  function Shop(): Config {
    Config(ZERO_ADDRESS, ZERO_ADDRESS, [], 1, 0, (message, signature) => Some(ZERO_ADDRESS))
  }

  function Opened(): Sys {
    var channel := ChainChannel(ZERO_ADDRESS, ZERO_ADDRESS, [], 1, 0, 1, ZERO_ADDRESS);
    Sys(ZERO_ADDRESS, Shared(Some(channel), 0, None, None, map[]), map[], [], {}, {}, 0)
  }

  const PAYMENT: Payment := Payment(ZERO_ADDRESS, 0, 0, 1, Some(TOKEN))

  /** From an empty store: the client pays one call; then a crash strands its claim, or a race the next one. */
  lemma IncidentsHappen()
    ensures var cfg, s := Shop(), After(Shop(), 0, Opened(), FirstCall(PAYMENT));
            && Init(Opened()) && Reachable(cfg, 0, s) && Claimable(cfg, 0, s.sh)
            && Stranded(cfg, 0, After(cfg, 0, s, CrashedClaim(1)), 0)
            && Stranded(cfg, 0, After(cfg, 0, s, TwoClaims(1, 2)), 1)
  {
    var cfg, s := Shop(), After(Shop(), 0, Opened(), FirstCall(PAYMENT));
    FirstCallPays(cfg, 0, Opened(), PAYMENT);
    assert Int64(1) != 0;
    CrashStrands(cfg, 0, s, 1);
    RaceRecordsEmptyClaim(cfg, 0, s, 1, 2);
  }
}
