/**
  Payment records of started claims: each is written once, never changed, and deleted only
  after the chain nonce has passed it, although reconciliation runs without the lock.
 */
module ClaimRecords {
  import opened Wrappers
  import opened Encoding
  import opened Records
  import opened Ledger
  import opened Protocol
  import opened Exclusion
  import opened Serial
  import opened Funds

  /** The blockchain has moved past this nonce. */
  predicate Passed(sh: Shared, n: int) {
    sh.chain.Some? && sh.chain.value.nonce > n
  }

  ghost predicate RecordsOk(cfg: Config, id: int, s: Sys) {
    var claims := ClaimsOf(cfg, id, s);
    && (forall n | n in s.sh.payments :: n in s.recorded)
    && (forall n | n in s.recorded :: n in claims && (if n in s.sh.payments then s.sh.payments[n] == claims[n] else Passed(s.sh, n)))
    && (forall n | n in s.confirmed :: n in s.recorded)
    && (forall pid | pid in s.procs :: ClaimFits(s.sh, claims, s.recorded, s.procs[pid]))
  }

  predicate ClaimFits(sh: Shared, claims: map<int, Payment>, recorded: set<int>, p: Proc) {
    match p
    case ClaimRecord(payment) =>
      var n := payment.channelNonce;
      n in claims && claims[n] == payment && n !in recorded
    case Finish(n, _) => Passed(sh, n)
    case _ => Reports(p).Some? ==> Started(claims, recorded, Reports(p).value)
  }

  /** The payment is a started claim, and its record has been written. */
  predicate Started(claims: map<int, Payment>, recorded: set<int>, payment: Payment) {
    var n := payment.channelNonce;
    n in claims && claims[n] == payment && n in recorded
  }

  /** Reconciliation and starting claims are the only steps that touch payment records. */
  lemma StepOnPayments(cfg: Config, id: int, sh: Shared, p: Proc, c: Choice)
    ensures var (sh', p') := ProcStep(cfg, id, sh, p, c);
            && sh'.chain == sh.chain
            && (!p.ClaimRecord? && !p.Finish? ==> sh'.payments == sh.payments)
            && (p'.ClaimRecord? ==> p.ClaimWrite? && p'.payment == ClaimOf(p.channel) && Logged(p, c) == Some(ClaimOp))
            && (p'.Finish? ==> Passed(sh', p'.nonce))
  {}

  lemma StepKeepsRecords(cfg: Config, id: int, s: Sys, a: Action)
    requires RecordsOk(cfg, id, s) && SerialOk(cfg, id, s) && LockOk(s) && Enabled(cfg, id, s, a)
    ensures RecordsOk(cfg, id, Next(cfg, id, s, a))
  {
    if a.Run? {
      RunKeepsRecords(cfg, id, s, a.pid, a.choice);
    }
  }

  lemma RunKeepsRecords(cfg: Config, id: int, s: Sys, pid: nat, c: Choice)
    requires RecordsOk(cfg, id, s) && SerialOk(cfg, id, s) && LockOk(s) && pid in s.procs
    ensures RecordsOk(cfg, id, RunStep(cfg, id, s, pid, c))
  {
    var p, t := s.procs[pid], RunStep(cfg, id, s, pid, c);
    var claims, claims' := ClaimsOf(cfg, id, s), ClaimsOf(cfg, id, t);
    StepOnPayments(cfg, id, s.sh, p, c);
    ClaimsOnlyAdded(cfg, id, s, pid, c);
    forall q | q in t.procs && q != pid ensures ClaimFits(t.sh, claims', t.recorded, t.procs[q]) {
      assert ClaimFits(s.sh, claims, s.recorded, s.procs[q]);
      assert p.ClaimRecord? ==> Holds(p) && !s.procs[q].ClaimRecord?;
    }
  }

  /** The claim a request is about to report, or has reported, as started. */
  function Reports(p: Proc): Option<Payment> {
    match p
    case Release(ClaimStarted(payment)) => Some(payment)
    case Done(ClaimStarted(payment)) => Some(payment)
    case _ => None
  }

  /** It is reported only after its payment record was written without an error. */
  lemma StepOnReports(cfg: Config, id: int, sh: Shared, p: Proc, c: Choice)
    ensures var p' := ProcStep(cfg, id, sh, p, c).1;
            Reports(p').Some? ==> Reports(p') == Reports(p) || (p.ClaimRecord? && c.fault == Fine && Reports(p') == Some(p.payment))
  {}

  /** A step adds at most one claim, which has no payment record yet. */
  lemma ClaimsGrow(cfg: Config, id: int, s: Sys, pid: nat, c: Choice)
    requires RecordsOk(cfg, id, s) && SerialOk(cfg, id, s) && pid in s.procs
    ensures var claims, t, p := ClaimsOf(cfg, id, s), RunStep(cfg, id, s, pid, c), s.procs[pid];
            var claims' := ClaimsOf(cfg, id, t);
            && (forall n | n in claims :: n in claims' && claims'[n] == claims[n])
            && (Logged(p, c) == Some(ClaimOp) && p.ClaimWrite? ==>
                  var n := p.channel.nonce; n in claims' && claims'[n] == ClaimOf(p.channel) && n !in t.recorded)
  {
    BooksAfterStep(cfg, id, s, pid, c);
    ReplayKeepsBooks(cfg, id, s.payer, s.log);
    assert Fits(cfg, id, s.payer, s.sh.stored, s.procs[pid]);
  }

  lemma ClaimsOnlyAdded(cfg: Config, id: int, s: Sys, pid: nat, c: Choice)
    requires RecordsOk(cfg, id, s) && SerialOk(cfg, id, s) && pid in s.procs
    ensures var claims, t := ClaimsOf(cfg, id, s), RunStep(cfg, id, s, pid, c);
            var claims' := ClaimsOf(cfg, id, t);
            && (forall n | n in claims :: n in claims' && claims'[n] == claims[n])
            && ClaimFits(t.sh, claims', t.recorded, t.procs[pid])
  {
    StepOnPayments(cfg, id, s.sh, s.procs[pid], c);
    StepOnReports(cfg, id, s.sh, s.procs[pid], c);
    ClaimsGrow(cfg, id, s, pid, c);
    assert ClaimFits(s.sh, ClaimsOf(cfg, id, s), s.recorded, s.procs[pid]);
  }
}
