/**
  One request without interference and without errors does what the bookkeeper of Ledger
  does in one operation; and a request run alone is a run of the system.
 */
module Alone {
  import opened Wrappers
  import opened Records
  import opened Ledger
  import opened Protocol
  import opened Exclusion

  /** n steps without an error, in which the service call completes. */
  predicate AllFine(cs: seq<Choice>, n: nat) {
    |cs| == n && forall i | 0 <= i < n :: cs[i] == FINE
  }

  /** Step k of a request run alone. */
  lemma FineNext(cfg: Config, id: int, sh: Shared, p: Proc, cs: seq<Choice>, k: nat)
    requires k < |cs| && cs[k] == FINE
    ensures var (sh', p') := RunAlone(cfg, id, sh, p, cs[..k]);
            RunAlone(cfg, id, sh, p, cs[..k + 1]) == ProcStep(cfg, id, sh', p', FINE)
  {
    assert cs[..k + 1] == cs[..k] + [FINE];
    RunAloneNext(cfg, id, sh, p, cs[..k], FINE);
  }

  /** The same with the states given: from (sh1, p1) after k steps to (sh2, p2) after one more. */
  lemma StepTo(cfg: Config, id: int, sh: Shared, p: Proc, cs: seq<Choice>, k: nat, sh1: Shared, p1: Proc, sh2: Shared, p2: Proc)
    requires k < |cs| && cs[k] == FINE
    requires RunAlone(cfg, id, sh, p, cs[..k]) == (sh1, p1)
    requires ProcStep(cfg, id, sh1, p1, FINE) == (sh2, p2)
    ensures RunAlone(cfg, id, sh, p, cs[..k + 1]) == (sh2, p2)
  {
    FineNext(cfg, id, sh, p, cs, k);
  }

  /** Through the lock and the two reads to the channel the payment is checked against. */
  lemma ReachesRead(cfg: Config, id: int, sh: Shared, payment: Payment, cs: seq<Choice>)
    requires |cs| >= 3 && AllFine(cs, |cs|)
    requires LockFree(sh)
    ensures RunAlone(cfg, id, sh, LockGet(Pay(payment)), cs[..3]) ==
            (sh.(lock := Some(LOCKED)), ReadChain(payment, sh.stored))
  {
    var start := LockGet(Pay(payment));
    FineNext(cfg, id, sh, start, cs, 0);
    FineNext(cfg, id, sh, start, cs, 1);
    FineNext(cfg, id, sh, start, cs, 2);
  }

  lemma ReachesChecks(cfg: Config, id: int, sh: Shared, payment: Payment, m: ChannelData, cs: seq<Choice>)
    requires |cs| >= 4 && AllFine(cs, |cs|)
    requires LockFree(sh)
    requires Resolve(cfg, id, sh.stored, ReadOf(sh, Fine)) == Success(Some(m))
    ensures RunAlone(cfg, id, sh, LockGet(Pay(payment)), cs[..4]) ==
            (sh.(lock := Some(LOCKED)), Check(payment, sh.stored, ReadOf(sh, Fine), m))
  {
    ReachesRead(cfg, id, sh, payment, cs);
    FineNext(cfg, id, sh, LockGet(Pay(payment)), cs, 3);
  }

  /** Once refused, a request releases the lock and stays where it is. */
  lemma {:induction false} RefusedStays(cfg: Config, id: int, sh0: Shared, p: Proc, sh: Shared, outcome: Outcome, cs: seq<Choice>, n: nat, more: nat)
    requires n + more < |cs| && AllFine(cs, |cs|)
    requires RunAlone(cfg, id, sh0, p, cs[..n]) == (sh, Release(outcome)) && sh.lock == Some(LOCKED)
    ensures RunAlone(cfg, id, sh0, p, cs[..n + more + 1]) == (sh.(lock := Some(UNLOCKED)), Done(outcome))
  {
    var free := sh.(lock := Some(UNLOCKED));
    if more == 0 {
      StepTo(cfg, id, sh0, p, cs, n, sh, Release(outcome), free, Done(outcome));
    } else {
      RefusedStays(cfg, id, sh0, p, sh, outcome, cs, n, more - 1);
      StepTo(cfg, id, sh0, p, cs, n + more, free, Done(outcome), free, Done(outcome));
    }
  }

  /**
    A paid call alone: it is served exactly if the bookkeeper would accept it, writes the
    record the bookkeeper would have, changes nothing else, and leaves the lock free. A
    refusal has the code of its reason.
   */
  lemma PayAlone(cfg: Config, id: int, sh: Shared, payment: Payment, b: Books, cs: seq<Choice>)
    requires AllFine(cs, 9)
    requires b.channel == sh.stored && payment.mpe == cfg.mpe && payment.channelID == id
    requires LockFree(sh)
    ensures var op := PayOp(payment, ReadOf(sh, Fine), sh.block);
            var (sh', p') := RunAlone(cfg, id, sh, LockGet(Pay(payment)), cs);
            && p'.Done? && (p' == Done(Served) <==> Admissible(cfg, id, b, op))
            && (p' != Done(Served) ==> p' == Done(Refused(CodeFor(Resolve(cfg, id, sh.stored, ReadOf(sh, Fine)), payment))))
            && sh' == sh.(lock := Some(UNLOCKED),
                          stored := if Admissible(cfg, id, b, op) then Serve(cfg, id, b, op).channel else sh.stored)
  {
    var resolved := Resolve(cfg, id, sh.stored, ReadOf(sh, Fine));
    if resolved.Failure? || resolved.value.None? {
      UnknownAlone(cfg, id, sh, payment, cs);
    } else {
      ChecksAlone(cfg, id, sh, payment, resolved.value.value, cs);
    }
  }

  lemma UnknownAlone(cfg: Config, id: int, sh: Shared, payment: Payment, cs: seq<Choice>)
    requires AllFine(cs, 9) && LockFree(sh)
    requires var resolved := Resolve(cfg, id, sh.stored, ReadOf(sh, Fine)); resolved.Failure? || resolved.value.None?
    ensures RunAlone(cfg, id, sh, LockGet(Pay(payment)), cs) ==
            (sh.(lock := Some(UNLOCKED)), Done(Refused(CodeFor(Resolve(cfg, id, sh.stored, ReadOf(sh, Fine)), payment))))
  {
    ReachesRead(cfg, id, sh, payment, cs);
    FineNext(cfg, id, sh, LockGet(Pay(payment)), cs, 3);
    RefusedStays(cfg, id, sh, LockGet(Pay(payment)), sh.(lock := Some(LOCKED)),
                 Refused(CodeFor(Resolve(cfg, id, sh.stored, ReadOf(sh, Fine)), payment)), cs, 4, 4);
    assert cs[..|cs|] == cs;
  }

  /** Internal if the channel could not be resolved, IncorrectNonce for another nonce, and otherwise Unauthenticated. */
  function CodeFor(resolved: Result<Option<ChannelData>, PaymentErrorCode>, payment: Payment): PaymentErrorCode {
    match resolved
    case Failure(_) => Internal
    case Success(None) => Unauthenticated
    case Success(Some(m)) => if payment.channelNonce != m.nonce then IncorrectNonce else Unauthenticated
  }

  /** On a channel whose lock is held a call is refused as a failed precondition, and a claim is refused; nothing changes. */
  lemma LockedAlone(cfg: Config, id: int, sh: Shared, job: Job)
    requires sh.lock == Some(LOCKED)
    ensures RunAlone(cfg, id, sh, LockGet(job), [FINE]) ==
            (sh, Done(if job.Pay? then Refused(FailedPrecondition) else ClaimRefused))
  {
    assert [] + [FINE] == [FINE];
    RunAloneNext(cfg, id, sh, LockGet(job), [], FINE);
  }

  /** An operation that reports an error ends a call as Internal; after a failed read of the block it may also be refused before. */
  lemma ErrorsRefuse(cfg: Config, id: int, sh: Shared, p: Proc, c: Choice)
    requires c.fault != Fine
    ensures var p' := ProcStep(cfg, id, sh, p, c).1;
            && ((p.LockGet? || p.LockSet?) ==> p' == Done(if p.job.Pay? then Refused(Internal) else ClaimRefused))
            && (p.ReadStored? || p.Commit? ==> p' == Release(Refused(Internal)))
            && (p.ClaimRead? || p.ClaimWrite? || p.ClaimRecord? ==> p' == Release(ClaimRefused))
            && (p.Check? ==> p' == Release(Refused(if p.payment.channelNonce != p.channel.nonce then IncorrectNonce
                                                   else if SignedByChannel(cfg, p.payment, p.channel) then Internal
                                                   else Unauthenticated)))
  {}

  lemma CommitsAlone(cfg: Config, id: int, sh: Shared, start: Proc, held: Shared, tx: Tx, cs: seq<Choice>)
    requires AllFine(cs, 9) && held.lock == Some(LOCKED)
    requires RunAlone(cfg, id, sh, start, cs[..6]) == (held, Call(tx))
    ensures RunAlone(cfg, id, sh, start, cs) ==
            (held.(stored := Some(Paid(tx.channel, tx.payment)), lock := Some(UNLOCKED)), Done(Served))
  {
    var written := held.(stored := Some(Paid(tx.channel, tx.payment)));
    StepTo(cfg, id, sh, start, cs, 6, held, Call(tx), held, Commit(tx));
    StepTo(cfg, id, sh, start, cs, 7, held, Commit(tx), written, Release(Served));
    StepTo(cfg, id, sh, start, cs, 8, written, Release(Served), written.(lock := Some(UNLOCKED)), Done(Served));
    assert cs[..9] == cs;
  }

  lemma ChecksAlone(cfg: Config, id: int, sh: Shared, payment: Payment, m: ChannelData, cs: seq<Choice>)
    requires AllFine(cs, 9)
    requires LockFree(sh)
    requires Resolve(cfg, id, sh.stored, ReadOf(sh, Fine)) == Success(Some(m))
    ensures var (sh', p') := RunAlone(cfg, id, sh, LockGet(Pay(payment)), cs);
            var accepted := Validate(cfg, payment, m, Some(sh.block)).Success? && IncomeIsPrice(cfg, payment, m);
            && p'.Done? && (p' == Done(Served) <==> accepted)
            && (p' != Done(Served) ==> p' == Done(Refused(CodeFor(Success(Some(m)), payment))))
            && sh' == sh.(lock := Some(UNLOCKED), stored := if accepted then Some(Paid(m, payment)) else sh.stored)
  {
    var start := LockGet(Pay(payment));
    var held := sh.(lock := Some(LOCKED));
    ReachesChecks(cfg, id, sh, payment, m, cs);
    FineNext(cfg, id, sh, start, cs, 4);
    var checked := Validate(cfg, payment, m, Some(sh.block));
    ValidateAcceptsIff(cfg, payment, m, Some(sh.block));
    if checked.Failure? {
      RefusedStays(cfg, id, sh, start, held, Refused(checked.error), cs, 5, 3);
      assert cs[..|cs|] == cs;
    } else {
      PriceAlone(cfg, id, sh, start, held, Tx(payment, sh.stored, ReadOf(sh, Fine), m, sh.block), cs);
    }
  }

  lemma PriceAlone(cfg: Config, id: int, sh: Shared, start: Proc, held: Shared, tx: Tx, cs: seq<Choice>)
    requires AllFine(cs, 9) && held.lock == Some(LOCKED)
    requires RunAlone(cfg, id, sh, start, cs[..5]) == (held, PriceCheck(tx))
    ensures RunAlone(cfg, id, sh, start, cs) ==
            if IncomeIsPrice(cfg, tx.payment, tx.channel)
            then (held.(stored := Some(Paid(tx.channel, tx.payment)), lock := Some(UNLOCKED)), Done(Served))
            else (held.(lock := Some(UNLOCKED)), Done(Refused(Unauthenticated)))
  {
    FineNext(cfg, id, sh, start, cs, 5);
    if IncomeIsPrice(cfg, tx.payment, tx.channel) {
      CommitsAlone(cfg, id, sh, start, held, tx, cs);
    } else {
      RefusedStays(cfg, id, sh, start, held, Refused(Unauthenticated), cs, 6, 2);
      assert cs[..|cs|] == cs;
    }
  }

  /** A claim alone: it starts exactly if there is a record, and does what the bookkeeper does. */
  lemma ClaimAlone(cfg: Config, id: int, sh: Shared, b: Books, cs: seq<Choice>)
    requires AllFine(cs, 6)
    requires b.channel == sh.stored && LockFree(sh)
    ensures var (sh', p') := RunAlone(cfg, id, sh, LockGet(Claim), cs);
            && (Admissible(cfg, id, b, ClaimOp) ==>
                  var r := b.channel.value;
                  && p' == Done(ClaimStarted(Serve(cfg, id, b, ClaimOp).claims[r.nonce]))
                  && sh' == sh.(lock := Some(UNLOCKED), stored := Serve(cfg, id, b, ClaimOp).channel,
                                payments := sh.payments[r.nonce := ClaimOf(r)]))
            && (!Admissible(cfg, id, b, ClaimOp) ==> p' == Done(ClaimRefused) && sh' == sh.(lock := Some(UNLOCKED)))
  {
    var start := LockGet(Claim);
    ClaimReachesRead(cfg, id, sh, cs);
    FineNext(cfg, id, sh, start, cs, 2);
    if sh.stored.None? {
      RefusedStays(cfg, id, sh, start, sh.(lock := Some(LOCKED)), ClaimRefused, cs, 3, 2);
    } else {
      ClaimWrites(cfg, id, sh, sh.stored.value, cs);
    }
    assert cs[..6] == cs;
  }

  lemma ClaimReachesRead(cfg: Config, id: int, sh: Shared, cs: seq<Choice>)
    requires AllFine(cs, 6) && LockFree(sh)
    ensures RunAlone(cfg, id, sh, LockGet(Claim), cs[..2]) == (sh.(lock := Some(LOCKED)), ClaimRead)
  {
    FineNext(cfg, id, sh, LockGet(Claim), cs, 0);
    FineNext(cfg, id, sh, LockGet(Claim), cs, 1);
  }

  lemma ClaimWrites(cfg: Config, id: int, sh: Shared, r: ChannelData, cs: seq<Choice>)
    requires AllFine(cs, 6)
    requires RunAlone(cfg, id, sh, LockGet(Claim), cs[..3]) == (sh.(lock := Some(LOCKED)), ClaimWrite(r))
    ensures RunAlone(cfg, id, sh, LockGet(Claim), cs[..6]) ==
            (sh.(lock := Some(UNLOCKED), stored := Some(IncrementNonce(r)), payments := sh.payments[r.nonce := ClaimOf(r)]),
             Done(ClaimStarted(ClaimOf(r))))
  {
    var start, p := LockGet(Claim), ClaimOf(r);
    var held := sh.(lock := Some(LOCKED));
    var moved := held.(stored := Some(IncrementNonce(r)));
    var recorded := moved.(payments := sh.payments[r.nonce := p]);
    StepTo(cfg, id, sh, start, cs, 3, held, ClaimWrite(r), moved, ClaimRecord(p));
    StepTo(cfg, id, sh, start, cs, 4, moved, ClaimRecord(p), recorded, Release(ClaimStarted(p)));
    StepTo(cfg, id, sh, start, cs, 5, recorded, Release(ClaimStarted(p)), recorded.(lock := Some(UNLOCKED)), Done(ClaimStarted(p)));
  }

  // ------------------------------------------------- part of the step system

  function StepsOf(pid: nat, cs: seq<Choice>): seq<Action> {
    if cs == [] then [] else StepsOf(pid, cs[..|cs| - 1]) + [Run(pid, cs[|cs| - 1])]
  }

  predicate IsOperator(p: Proc) {
    p.OperatorGet? || p.OperatorDelete?
  }

  /**
    The steps of a request run alone are actions of the system, and change only what
    RunAlone says. So the methods of Service, which are proved to be such steps, are runs
    of the system; the invariants of Runs are invariants of the code.
   */
  lemma {:induction false} AloneIsRun(cfg: Config, id: int, s: Sys, pid: nat, cs: seq<Choice>)
    requires pid in s.procs && !IsOperator(s.procs[pid])
    ensures var (sh', p') := RunAlone(cfg, id, s.sh, s.procs[pid], cs);
            var t := After(cfg, id, s, StepsOf(pid, cs));
            && Allowed(cfg, id, s, StepsOf(pid, cs))
            && t.sh == sh' && t.procs == s.procs[pid := p'] && !IsOperator(p')
  {
    if cs == [] {
      assert s.procs == s.procs[pid := s.procs[pid]];
    } else {
      var init, c := cs[..|cs| - 1], cs[|cs| - 1];
      AloneIsRun(cfg, id, s, pid, init);
      var t := After(cfg, id, s, StepsOf(pid, init));
      assert Prudent(t, Run(pid, c));
      AfterNext(cfg, id, s, StepsOf(pid, init), Run(pid, c));
      StaysRequest(cfg, id, t.sh, t.procs[pid], c);
    }
  }

  lemma StaysRequest(cfg: Config, id: int, sh: Shared, p: Proc, c: Choice)
    requires !IsOperator(p)
    ensures !IsOperator(ProcStep(cfg, id, sh, p, c).1)
  {}

  function Fines(n: nat): seq<Choice> {
    seq(n, _ => FINE)
  }

  /** A request that starts and then makes these steps. */
  function Request(pid: nat, start: Proc, cs: seq<Choice>): seq<Action> {
    [Spawn(pid, start)] + StepsOf(pid, cs)
  }

  lemma StartedAlone(cfg: Config, id: int, s: Sys, pid: nat, start: Proc, cs: seq<Choice>)
    requires pid !in s.procs && Startable(cfg, id, s, start) && !IsOperator(start)
    ensures var (sh', p') := RunAlone(cfg, id, s.sh, start, cs);
            var t := After(cfg, id, s, Request(pid, start, cs));
            && Allowed(cfg, id, s, Request(pid, start, cs))
            && t.sh == sh' && t.procs == s.procs[pid := p']
  {
    AfterNext(cfg, id, s, [], Spawn(pid, start));
    assert [] + [Spawn(pid, start)] == [Spawn(pid, start)];
    var u := After(cfg, id, s, [Spawn(pid, start)]);
    AloneIsRun(cfg, id, u, pid, cs);
    AfterAppend(cfg, id, s, [Spawn(pid, start)], StepsOf(pid, cs));
    assert u.procs[pid := RunAlone(cfg, id, s.sh, start, cs).1] == s.procs[pid := RunAlone(cfg, id, s.sh, start, cs).1];
  }

  /** A claim alone up to the point between its two writes. */
  lemma ClaimHalfway(cfg: Config, id: int, sh: Shared, r: ChannelData)
    requires LockFree(sh) && sh.stored == Some(r)
    ensures RunAlone(cfg, id, sh, LockGet(Claim), Fines(4)) ==
            (sh.(lock := Some(LOCKED), stored := Some(IncrementNonce(r))), ClaimRecord(ClaimOf(r)))
  {
    var cs, held := Fines(6), sh.(lock := Some(LOCKED));
    ClaimReachesRead(cfg, id, sh, cs);
    FineNext(cfg, id, sh, LockGet(Claim), cs, 2);
    StepTo(cfg, id, sh, LockGet(Claim), cs, 3, held, ClaimWrite(r), held.(stored := Some(IncrementNonce(r))), ClaimRecord(ClaimOf(r)));
    assert cs[..4] == Fines(4);
  }
}
