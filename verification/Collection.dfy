/**
  What the provider can collect. Starting a claim takes the amount out of the channel record
  first and writes the payment record afterwards, so a claim can be dropped in between. The
  money is then neither in the channel nor in a payment record, and since the contract takes
  claims in nonce order, no later claim can be collected either.
 */
module Collection {
  import opened Wrappers
  import opened Encoding
  import opened Records
  import opened Ledger
  import opened Protocol
  import opened Exclusion
  import opened Serial
  import opened Funds
  import opened ClaimRecords
  import opened Runs

  // ------------------------------------------------------- where claims are

  /** Nonces of claims that left the channel record and whose payment record is about to be written. */
  function BeingRecorded(s: Sys): set<int> {
    set pid | pid in s.procs && s.procs[pid].ClaimRecord? :: s.procs[pid].payment.channelNonce
  }

  /** The claim an action takes out of the channel record, or stops, without a payment record. */
  function DroppedBy(s: Sys, a: Action): set<int> {
    if !(a.Run? || a.Crash?) || a.pid !in s.procs then {}
    else match s.procs[a.pid]
      case ClaimWrite(channel) => if a.Run? && a.choice.fault == FailsAfter then {channel.nonce} else {}
      case ClaimRecord(payment) => if a.Crash? || a.choice.fault == FailsBefore then {payment.channelNonce} else {}
      case _ => {}
  }

  function Dropped(cfg: Config, id: int, s: Sys, actions: seq<Action>): set<int> {
    if actions == [] then {}
    else
      var init := actions[..|actions| - 1];
      Dropped(cfg, id, s, init) + DroppedBy(After(cfg, id, s, init), actions[|actions| - 1])
  }

  /** Every started claim is in exactly one place. */
  ghost predicate Accounted(claims: set<int>, recorded: set<int>, pending: set<int>, dropped: set<int>) {
    && claims == recorded + pending + dropped
    && recorded !! pending && recorded !! dropped && pending !! dropped
  }

  /** The only claim in progress is that of the one request at ClaimRecord. */
  lemma BeingRecordedIs(s: Sys, pid: nat)
    requires LockOk(s) && pid in s.procs && s.procs[pid].ClaimRecord?
    ensures BeingRecorded(s) == {s.procs[pid].payment.channelNonce}
  {
    assert forall q | q in s.procs && s.procs[q].ClaimRecord? :: Holds(s.procs[q]);
    assert s.procs[pid].payment.channelNonce in BeingRecorded(s);
  }

  lemma NothingRecorded(s: Sys)
    requires forall pid | pid in s.procs :: !s.procs[pid].ClaimRecord?
    ensures BeingRecorded(s) == {}
  {}

  /** A request about to write holds the lock, so no claim is in progress. */
  lemma WriterIsAlone(s: Sys, pid: nat)
    requires LockOk(s) && pid in s.procs && Holds(s.procs[pid]) && !s.procs[pid].ClaimRecord?
    ensures BeingRecorded(s) == {}
  {}

  lemma StepKeepsAccount(cfg: Config, id: int, s: Sys, a: Action, dropped: set<int>)
    requires Inv(cfg, id, s) && Enabled(cfg, id, s, a) && Prudent(s, a)
    requires Accounted(ClaimsOf(cfg, id, s).Keys, s.recorded, BeingRecorded(s), dropped)
    ensures var t := Next(cfg, id, s, a);
            Accounted(ClaimsOf(cfg, id, t).Keys, t.recorded, BeingRecorded(t), dropped + DroppedBy(s, a))
  {
    var t := Next(cfg, id, s, a);
    StepKeepsInv(cfg, id, s, a);
    if a.Run? {
      RunKeepsAccount(cfg, id, s, a.pid, a.choice, dropped);
    } else {
      assert t.log == s.log;
      CrashWhileRecording(cfg, id, s, a);
    }
  }

  lemma CrashWhileRecording(cfg: Config, id: int, s: Sys, a: Action)
    requires LockOk(s) && Enabled(cfg, id, s, a) && !a.Run?
    ensures BeingRecorded(Next(cfg, id, s, a)) == BeingRecorded(s) - DroppedBy(s, a)
    ensures DroppedBy(s, a) <= BeingRecorded(s)
  {
    var t := Next(cfg, id, s, a);
    if DroppedBy(s, a) != {} {
      BeingRecordedIs(s, a.pid);
      assert forall q | q in t.procs && t.procs[q].ClaimRecord? :: Holds(s.procs[q]);
      NothingRecorded(t);
    } else {
      assert forall q | q in s.procs && s.procs[q].ClaimRecord? :: q in t.procs && t.procs[q] == s.procs[q];
      assert forall q | q in t.procs && t.procs[q].ClaimRecord? :: q in s.procs && t.procs[q] == s.procs[q];
    }
  }

  lemma RunKeepsAccount(cfg: Config, id: int, s: Sys, pid: nat, c: Choice, dropped: set<int>)
    requires Inv(cfg, id, s) && pid in s.procs && LockOk(RunStep(cfg, id, s, pid, c))
    requires Accounted(ClaimsOf(cfg, id, s).Keys, s.recorded, BeingRecorded(s), dropped)
    ensures var t := RunStep(cfg, id, s, pid, c);
            Accounted(ClaimsOf(cfg, id, t).Keys, t.recorded, BeingRecorded(t), dropped + DroppedBy(s, Run(pid, c)))
  {
    if s.procs[pid].ClaimWrite? {
      WriteKeepsAccount(cfg, id, s, pid, c, dropped);
    } else if s.procs[pid].ClaimRecord? {
      RecordFinishes(cfg, id, s, pid, c);
    } else {
      OthersMoveNothing(cfg, id, s, pid, c);
    }
  }

  lemma WriteKeepsAccount(cfg: Config, id: int, s: Sys, pid: nat, c: Choice, dropped: set<int>)
    requires Inv(cfg, id, s) && pid in s.procs && s.procs[pid].ClaimWrite? && LockOk(RunStep(cfg, id, s, pid, c))
    requires Accounted(ClaimsOf(cfg, id, s).Keys, s.recorded, BeingRecorded(s), dropped)
    ensures var t := RunStep(cfg, id, s, pid, c);
            Accounted(ClaimsOf(cfg, id, t).Keys, t.recorded, BeingRecorded(t), dropped + DroppedBy(s, Run(pid, c)))
  {
    WriteStarts(cfg, id, s, pid, c);
    assert s.procs[pid].channel.nonce !in ClaimsOf(cfg, id, s).Keys;
  }

  /** The first write of StartClaim, if it happens, starts a new claim. */
  lemma WriteStarts(cfg: Config, id: int, s: Sys, pid: nat, c: Choice)
    requires Inv(cfg, id, s) && pid in s.procs && s.procs[pid].ClaimWrite? && LockOk(RunStep(cfg, id, s, pid, c))
    ensures var n, t := s.procs[pid].channel.nonce, RunStep(cfg, id, s, pid, c);
            && n !in ClaimsOf(cfg, id, s)
            && ClaimsOf(cfg, id, t).Keys == ClaimsOf(cfg, id, s).Keys + (if c.fault == FailsBefore then {} else {n})
            && t.recorded == s.recorded
            && BeingRecorded(s) == {} && BeingRecorded(t) == if c.fault == Fine then {n} else {}
  {
    var t := RunStep(cfg, id, s, pid, c);
    BooksAfterStep(cfg, id, s, pid, c);
    ReplayKeepsBooks(cfg, id, s.payer, s.log);
    assert Fits(cfg, id, s.payer, s.sh.stored, s.procs[pid]);
    WriterIsAlone(s, pid);
    if c.fault == Fine {
      BeingRecordedIs(t, pid);
    } else {
      assert forall q | q in t.procs && t.procs[q].ClaimRecord? :: s.procs[q].ClaimRecord? && Holds(s.procs[q]);
    }
  }

  /** The second write ends the claim's progress; unless it failed before its effect, there is a record. */
  lemma RecordFinishes(cfg: Config, id: int, s: Sys, pid: nat, c: Choice)
    requires LockOk(s) && pid in s.procs && s.procs[pid].ClaimRecord?
    ensures var n, t := s.procs[pid].payment.channelNonce, RunStep(cfg, id, s, pid, c);
            && ClaimsOf(cfg, id, t) == ClaimsOf(cfg, id, s)
            && t.recorded == s.recorded + (if c.fault == FailsBefore then {} else {n})
            && BeingRecorded(s) == {n} && BeingRecorded(t) == {}
  {
    var t := RunStep(cfg, id, s, pid, c);
    BeingRecordedIs(s, pid);
    assert forall q | q in t.procs && t.procs[q].ClaimRecord? :: s.procs[q].ClaimRecord? && Holds(s.procs[q]);
  }

  lemma OthersMoveNothing(cfg: Config, id: int, s: Sys, pid: nat, c: Choice)
    requires SerialOk(cfg, id, s) && pid in s.procs && !s.procs[pid].ClaimWrite? && !s.procs[pid].ClaimRecord?
    ensures var t := RunStep(cfg, id, s, pid, c);
            && ClaimsOf(cfg, id, t) == ClaimsOf(cfg, id, s) && t.recorded == s.recorded
            && BeingRecorded(t) == BeingRecorded(s) && DroppedBy(s, Run(pid, c)) == {}
  {
    var t := RunStep(cfg, id, s, pid, c);
    BooksAfterStep(cfg, id, s, pid, c);
    StepOnPayments(cfg, id, s.sh, s.procs[pid], c);
    assert forall q | q in s.procs && s.procs[q].ClaimRecord? :: q in t.procs && t.procs[q] == s.procs[q];
    assert forall q | q in t.procs && t.procs[q].ClaimRecord? :: q in s.procs && t.procs[q] == s.procs[q];
  }

  /**
    In every run each started claim has a payment record, is about to get it, or was dropped
    by a failed write or a crash between the two writes, and only one of these.
   */
  lemma {:induction false} ClaimsAccounted(cfg: Config, id: int, s0: Sys, actions: seq<Action>)
    requires Init(s0) && Allowed(cfg, id, s0, actions)
    ensures var s := After(cfg, id, s0, actions);
            Accounted(ClaimsOf(cfg, id, s).Keys, s.recorded, BeingRecorded(s), Dropped(cfg, id, s0, actions))
  {
    if actions == [] {
      NothingRecorded(s0);
    } else {
      var init, a := actions[..|actions| - 1], actions[|actions| - 1];
      ClaimsAccounted(cfg, id, s0, init);
      InvAlways(cfg, id, s0, init);
      StepKeepsAccount(cfg, id, After(cfg, id, s0, init), a, Dropped(cfg, id, s0, init));
    }
  }

  // ------------------------------------------------------------ exact income

  /**
    Exact income over a whole run: what was claimed and recorded, what is between the two
    writes of a claim, what was dropped there, what is authorised and what was lost because
    the sender took the deposit back is together the price times the committed calls.
   */
  lemma ExactIncome(cfg: Config, id: int, s0: Sys, actions: seq<Action>)
    requires Init(s0) && Allowed(cfg, id, s0, actions)
    ensures var s, dropped := After(cfg, id, s0, actions), Dropped(cfg, id, s0, actions);
            var b := Replay(cfg, id, s.log);
            && (s.sh.stored.None? ==> Commits(cfg, id, s0, actions) == 0)
            && (s.sh.stored.Some? ==>
                  var r := s.sh.stored.value;
                  Owed(Only(b.claims, s.recorded), 0, r.nonce) + Owed(Only(b.claims, BeingRecorded(s)), 0, r.nonce)
                  + Owed(Only(b.claims, dropped), 0, r.nonce) + r.authorizedAmount + b.lost
                  == cfg.price * Commits(cfg, id, s0, actions))
            && 0 <= b.lost && (s.timeouts == 0 ==> b.lost == 0)
  {
    IncomeByBooks(cfg, id, s0, actions);
    ClaimsAccounted(cfg, id, s0, actions);
    var s := After(cfg, id, s0, actions);
    if s.sh.stored.Some? {
      OwedInThreeParts(ClaimsOf(cfg, id, s), s.recorded, BeingRecorded(s), Dropped(cfg, id, s0, actions), 0, s.sh.stored.value.nonce);
    }
  }

  // ------------------------------------------------------ presenting claims

  /** To collect a claim the provider presents its stored payment record, with its signature. */
  predicate Presentable(s: Sys, n: int) {
    n in s.sh.payments && s.sh.payments[n].signature.Some?
  }

  predicate Presents(s: Sys, a: Action) {
    a.Collect? ==> s.sh.chain.Some? && Presentable(s, s.sh.chain.value.nonce)
  }

  /** Every claim that is collected in the run is presented. */
  predicate ByPresenting(cfg: Config, id: int, s: Sys, actions: seq<Action>) {
    actions == [] ||
    (&& ByPresenting(cfg, id, s, actions[..|actions| - 1])
     && Presents(After(cfg, id, s, actions[..|actions| - 1]), actions[|actions| - 1]))
  }

  /** No failure of the run dropped the claim, it is not just being written, and calls were paid at its nonce. */
  predicate PaidAndRecorded(cfg: Config, id: int, s0: Sys, actions: seq<Action>, n: int) {
    && n !in Dropped(cfg, id, s0, actions) && n !in BeingRecorded(After(cfg, id, s0, actions))
    && CommitsAt(cfg, id, s0, actions, n) > 0
  }

  /** A claim the chain has not passed can be presented if and only if it was paid for and recorded. */
  lemma PresentableIff(cfg: Config, id: int, s0: Sys, actions: seq<Action>, n: int)
    requires Init(s0) && Allowed(cfg, id, s0, actions)
    requires n in ClaimsOf(cfg, id, After(cfg, id, s0, actions)) && !Passed(After(cfg, id, s0, actions).sh, n)
    ensures Presentable(After(cfg, id, s0, actions), n) <==> PaidAndRecorded(cfg, id, s0, actions, n)
  {
    var s := After(cfg, id, s0, actions);
    InvAlways(cfg, id, s0, actions);
    ClaimsAccounted(cfg, id, s0, actions);
    ClaimWorth(cfg, id, s0, actions, n);
    assert n in ClaimsOf(cfg, id, s).Keys;
  }

  /** Collecting the claims lo .. hi in order, each for its full amount. */
  function CollectPlan(claims: map<int, Payment>, lo: int, hi: int): seq<Action>
    decreases hi - lo
  {
    if lo >= hi then []
    else CollectPlan(claims, lo, hi - 1)
         + [Collect(if hi - 1 in claims && claims[hi - 1].amount >= 0 then claims[hi - 1].amount else 0)]
  }

  lemma {:induction false} PlanWorks(cfg: Config, id: int, s: Sys, hi: nat)
    requires s.sh.chain.Some? && s.sh.chain.value.nonce <= hi
    requires forall n | s.sh.chain.value.nonce <= n < hi :: n in ClaimsOf(cfg, id, s) && 0 <= ClaimsOf(cfg, id, s)[n].amount
    requires Owed(ClaimsOf(cfg, id, s), s.sh.chain.value.nonce, hi) <= s.sh.chain.value.value
    ensures var claims, chain := ClaimsOf(cfg, id, s), s.sh.chain.value;
            var left := chain.value - Owed(claims, chain.nonce, hi);
            && Allowed(cfg, id, s, CollectPlan(claims, chain.nonce, hi))
            && After(cfg, id, s, CollectPlan(claims, chain.nonce, hi)) ==
               s.(sh := s.sh.(chain := Some(chain.(nonce := hi, value := left))))
    decreases hi
  {
    var claims, chain := ClaimsOf(cfg, id, s), s.sh.chain.value;
    var lo := chain.nonce;
    if lo < hi {
      OwedSplit(claims, lo, hi - 1, hi);
      assert Owed(claims, hi, hi) == 0;
      PlanWorks(cfg, id, s, hi - 1);
      CollectOne(cfg, id, s, CollectPlan(claims, lo, hi - 1), hi - 1, chain.value - Owed(claims, lo, hi - 1));
    } else {
      assert chain.(nonce := hi, value := chain.value - 0) == chain;
    }
  }

  /** The next claim can be collected in full if the deposit is enough. */
  lemma CollectOne(cfg: Config, id: int, s: Sys, plan: seq<Action>, n: nat, value: nat)
    requires s.sh.chain.Some? && Allowed(cfg, id, s, plan)
    requires After(cfg, id, s, plan) == s.(sh := s.sh.(chain := Some(s.sh.chain.value.(nonce := n, value := value))))
    requires n in ClaimsOf(cfg, id, s) && 0 <= ClaimsOf(cfg, id, s)[n].amount <= value
    ensures var amount := ClaimsOf(cfg, id, s)[n].amount;
            && Allowed(cfg, id, s, plan + [Collect(amount)])
            && After(cfg, id, s, plan + [Collect(amount)]) ==
               s.(sh := s.sh.(chain := Some(s.sh.chain.value.(nonce := n + 1, value := value - amount))))
  {
    AfterNext(cfg, id, s, plan, Collect(ClaimsOf(cfg, id, s)[n].amount));
  }

  lemma PresentNext(cfg: Config, id: int, s: Sys, plan: seq<Action>, a: Action)
    ensures ByPresenting(cfg, id, s, plan + [a]) <==> ByPresenting(cfg, id, s, plan) && Presents(After(cfg, id, s, plan), a)
  {
    assert (plan + [a])[..|plan + [a]| - 1] == plan;
  }

  /** The plan presents every claim it collects. */
  lemma {:induction false} PlanPresents(cfg: Config, id: int, s: Sys, hi: nat)
    requires s.sh.chain.Some? && s.sh.chain.value.nonce <= hi
    requires forall n | s.sh.chain.value.nonce <= n < hi ::
               n in ClaimsOf(cfg, id, s) && 0 <= ClaimsOf(cfg, id, s)[n].amount && Presentable(s, n)
    requires Owed(ClaimsOf(cfg, id, s), s.sh.chain.value.nonce, hi) <= s.sh.chain.value.value
    ensures ByPresenting(cfg, id, s, CollectPlan(ClaimsOf(cfg, id, s), s.sh.chain.value.nonce, hi))
    ensures forall a | a in CollectPlan(ClaimsOf(cfg, id, s), s.sh.chain.value.nonce, hi) :: a.Collect?
    decreases hi
  {
    var claims, lo := ClaimsOf(cfg, id, s), s.sh.chain.value.nonce;
    if lo < hi {
      OwedSplit(claims, lo, hi - 1, hi);
      assert Owed(claims, hi, hi) == 0;
      PlanPresents(cfg, id, s, hi - 1);
      PlanWorks(cfg, id, s, hi - 1);
      PresentNext(cfg, id, s, CollectPlan(claims, lo, hi - 1), Collect(claims[hi - 1].amount));
    }
  }

  /** Collecting changes no payment record and presents the nonces one after another. */
  lemma {:induction false} CollectingPresents(cfg: Config, id: int, s: Sys, plan: seq<Action>)
    requires s.sh.chain.Some? && Allowed(cfg, id, s, plan) && ByPresenting(cfg, id, s, plan)
    requires forall a | a in plan :: a.Collect?
    ensures var t := After(cfg, id, s, plan);
            && t.sh.payments == s.sh.payments
            && t.sh.chain.Some? && t.sh.chain.value.nonce == s.sh.chain.value.nonce + |plan|
            && forall n | s.sh.chain.value.nonce <= n < t.sh.chain.value.nonce :: Presentable(s, n)
  {
    if plan != [] {
      CollectingPresents(cfg, id, s, plan[..|plan| - 1]);
    }
  }

  /** The plan collects all pending claims in full, in order, by presenting them. */
  ghost predicate CollectsAll(cfg: Config, id: int, s: Sys, plan: seq<Action>)
    requires s.sh.chain.Some? && s.sh.stored.Some?
  {
    var claims, chain, t := ClaimsOf(cfg, id, s), s.sh.chain.value, After(cfg, id, s, plan);
    && (forall a | a in plan :: a.Collect?)
    && Allowed(cfg, id, s, plan) && ByPresenting(cfg, id, s, plan)
    && t.sh.chain.Some? && t.sh.chain.value.nonce == s.sh.stored.value.nonce
    && t.sh.chain.value.value == chain.value - Owed(claims, chain.nonce, s.sh.stored.value.nonce)
  }

  ghost predicate Collectable(cfg: Config, id: int, s: Sys)
    requires s.sh.chain.Some? && s.sh.stored.Some?
  {
    exists plan :: CollectsAll(cfg, id, s, plan)
  }

  /** Every pending claim can be presented. */
  predicate AllPresentable(s: Sys)
    requires s.sh.chain.Some? && s.sh.stored.Some?
  {
    forall n | s.sh.chain.value.nonce <= n < s.sh.stored.value.nonce :: Presentable(s, n)
  }

  /**
    Before the stored expiration all pending claims can be collected in full, in order, if
    and only if each of them can be presented; the deposit left then still pays for the
    authorised amount.
   */
  lemma AllClaimsCollectable(cfg: Config, id: int, s: Sys)
    requires Reachable(cfg, id, s)
    requires s.sh.stored.Some? && s.sh.block < s.sh.stored.value.expiration
    ensures s.sh.chain.Some?
    ensures AllPresentable(s) <==> Collectable(cfg, id, s)
    ensures s.sh.stored.value.authorizedAmount
            <= s.sh.chain.value.value - Owed(ClaimsOf(cfg, id, s), s.sh.chain.value.nonce, s.sh.stored.value.nonce)
  {
    ReachableInv(cfg, id, s);
    var lo, hi := s.sh.chain.value.nonce, s.sh.stored.value.nonce;
    if AllPresentable(s) {
      PlanWorks(cfg, id, s, hi);
      PlanPresents(cfg, id, s, hi);
      assert CollectsAll(cfg, id, s, CollectPlan(ClaimsOf(cfg, id, s), lo, hi));
    }
    if Collectable(cfg, id, s) {
      var plan :| CollectsAll(cfg, id, s, plan);
      CollectingPresents(cfg, id, s, plan);
    }
  }

  lemma PendingAreStarted(cfg: Config, id: int, s: Sys)
    requires Reachable(cfg, id, s) && s.sh.stored.Some? && s.sh.block < s.sh.stored.value.expiration
    ensures s.sh.chain.Some?
    ensures forall n | s.sh.chain.value.nonce <= n < s.sh.stored.value.nonce :: n in ClaimsOf(cfg, id, s)
  {
    ReachableInv(cfg, id, s);
  }

  /**
    In terms of the run: everything pending can be collected if and only if no failure
    dropped a pending claim, none is just being written, and each was of a nonce at which
    calls were paid.
   */
  lemma CollectableAfterRunIff(cfg: Config, id: int, s0: Sys, actions: seq<Action>)
    requires Init(s0) && Allowed(cfg, id, s0, actions)
    requires After(cfg, id, s0, actions).sh.stored.Some?
    requires After(cfg, id, s0, actions).sh.block < After(cfg, id, s0, actions).sh.stored.value.expiration
    ensures var s := After(cfg, id, s0, actions);
            && s.sh.chain.Some?
            && (Collectable(cfg, id, s) <==>
                forall n | s.sh.chain.value.nonce <= n < s.sh.stored.value.nonce :: PaidAndRecorded(cfg, id, s0, actions, n))
  {
    var s := After(cfg, id, s0, actions);
    assert Reachable(cfg, id, s);
    AllClaimsCollectable(cfg, id, s);
    PendingAreStarted(cfg, id, s);
    forall n | s.sh.chain.value.nonce <= n < s.sh.stored.value.nonce
      ensures Presentable(s, n) <==> PaidAndRecorded(cfg, id, s0, actions, n)
    {
      PresentableIff(cfg, id, s0, actions, n);
    }
  }

  // --------------------------------------------------------- stranded claims

  /** A pending claim without a payment record that is still coming, or without a signature. */
  ghost predicate Stranded(cfg: Config, id: int, s: Sys, n: int) {
    var claims := ClaimsOf(cfg, id, s);
    && n in claims && s.sh.chain.Some? && s.sh.chain.value.nonce <= n
    && ((n !in s.recorded && n !in BeingRecorded(s)) || claims[n].signature.None?)
  }

  lemma StrandedNext(cfg: Config, id: int, s: Sys, n: int, a: Action)
    requires Inv(cfg, id, s) && Stranded(cfg, id, s, n)
    requires Enabled(cfg, id, s, a) && Prudent(s, a) && Presents(s, a) && !a.Timeout?
    ensures Stranded(cfg, id, Next(cfg, id, s, a), n)
  {
    StepKeepsInv(cfg, id, s, a);
    if a.Run? {
      StrandedRun(cfg, id, s, n, a.pid, a.choice);
    } else {
      CrashWhileRecording(cfg, id, s, a);
    }
  }

  lemma StrandedRun(cfg: Config, id: int, s: Sys, n: int, pid: nat, c: Choice)
    requires Inv(cfg, id, s) && Stranded(cfg, id, s, n) && pid in s.procs && LockOk(RunStep(cfg, id, s, pid, c))
    ensures Stranded(cfg, id, RunStep(cfg, id, s, pid, c), n)
  {
    ClaimsOnlyAdded(cfg, id, s, pid, c);
    StepOnPayments(cfg, id, s.sh, s.procs[pid], c);
    if s.procs[pid].ClaimWrite? {
      WriteStarts(cfg, id, s, pid, c);
    } else if s.procs[pid].ClaimRecord? {
      RecordFinishes(cfg, id, s, pid, c);
    } else {
      OthersMoveNothing(cfg, id, s, pid, c);
    }
  }

  /**
    A stranded claim stays stranded, and the chain nonce stays at or below it: whatever
    happens, no later claim is ever collected, unless the sender takes the deposit back.
   */
  lemma {:induction false} StrandedBlocksLater(cfg: Config, id: int, s: Sys, n: int, actions: seq<Action>)
    requires Inv(cfg, id, s) && Stranded(cfg, id, s, n)
    requires Allowed(cfg, id, s, actions) && ByPresenting(cfg, id, s, actions)
    requires forall a | a in actions :: !a.Timeout?
    ensures Inv(cfg, id, After(cfg, id, s, actions))
    ensures Stranded(cfg, id, After(cfg, id, s, actions), n)
  {
    if actions != [] {
      var init, a := actions[..|actions| - 1], actions[|actions| - 1];
      StrandedBlocksLater(cfg, id, s, n, init);
      StepKeepsInv(cfg, id, After(cfg, id, s, init), a);
      StrandedNext(cfg, id, After(cfg, id, s, init), n, a);
    }
  }
}
