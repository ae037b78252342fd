/**
  What holds in every run of the daemon, from an empty store, over every interleaving of
  any number of requests with storage errors, crashes, blockchain events and a prudent
  operator.
 */
module Runs {
  import opened Wrappers
  import opened Encoding
  import opened Records
  import opened Ledger
  import opened Protocol
  import opened Exclusion
  import opened Serial
  import opened Funds
  import opened ClaimRecords

  ghost predicate Inv(cfg: Config, id: int, s: Sys) {
    && LockOk(s)
    && SerialOk(cfg, id, s)
    && FundsOk(cfg, id, s)
    && CalmOk(cfg, id, s)
    && RecordsOk(cfg, id, s)
  }

  lemma StepKeepsInv(cfg: Config, id: int, s: Sys, a: Action)
    requires Inv(cfg, id, s) && Enabled(cfg, id, s, a) && Prudent(s, a)
    ensures Inv(cfg, id, Next(cfg, id, s, a))
  {
    StepKeepsLock(cfg, id, s, a);
    StepKeepsSerial(cfg, id, s, a);
    StepKeepsFunds(cfg, id, s, a);
    StepKeepsCalm(cfg, id, s, a);
    StepKeepsRecords(cfg, id, s, a);
  }

  /** Every state a run can reach keeps the whole invariant. */
  lemma {:induction false} InvAlways(cfg: Config, id: int, s0: Sys, actions: seq<Action>)
    requires Init(s0) && Allowed(cfg, id, s0, actions)
    ensures Inv(cfg, id, After(cfg, id, s0, actions))
  {
    if actions != [] {
      var init, a := actions[..|actions| - 1], actions[|actions| - 1];
      InvAlways(cfg, id, s0, init);
      StepKeepsInv(cfg, id, After(cfg, id, s0, init), a);
    }
  }

  /** s is reached by some run. */
  ghost predicate Reachable(cfg: Config, id: int, s: Sys) {
    exists s0: Sys, actions: seq<Action> ::
      Init(s0) && Allowed(cfg, id, s0, actions) && s == After(cfg, id, s0, actions)
  }

  lemma ReachableInv(cfg: Config, id: int, s: Sys)
    requires Reachable(cfg, id, s)
    ensures Inv(cfg, id, s)
    ensures BooksOk(cfg, id, s.payer, Replay(cfg, id, s.log))
  {
    var s0: Sys, actions: seq<Action> :|
      Init(s0) && Allowed(cfg, id, s0, actions) && s == After(cfg, id, s0, actions);
    InvAlways(cfg, id, s0, actions);
    ReplayKeepsBooks(cfg, id, s.payer, s.log);
  }

  /** What comes after a reachable state is reachable. */
  lemma ReachableAfter(cfg: Config, id: int, s: Sys, actions: seq<Action>)
    requires Reachable(cfg, id, s) && Allowed(cfg, id, s, actions)
    ensures Reachable(cfg, id, After(cfg, id, s, actions))
  {
    var s0: Sys, past: seq<Action> :| Init(s0) && Allowed(cfg, id, s0, past) && s == After(cfg, id, s0, past);
    AfterAppend(cfg, id, s0, past, actions);
  }

  // -------------------------------------------------------------- the lock

  /** At most one live request holds the lock, and then the key reads "locked". */
  lemma MutualExclusion(cfg: Config, id: int, s: Sys, p: nat, q: nat)
    requires Reachable(cfg, id, s)
    requires p in s.procs && q in s.procs && Holds(s.procs[p]) && Holds(s.procs[q])
    ensures p == q && s.sh.lock == Some(LOCKED)
  {
    ReachableInv(cfg, id, s);
  }

  // ------------------------------------------------------- serialisability

  /**
    The stored channel record is the one a bookkeeper has who served the operations that
    wrote it one after another, each accepted at its turn; and the record every request in
    progress is about to overwrite is still the one it read.
   */
  lemma Serialisable(cfg: Config, id: int, s: Sys)
    requires Reachable(cfg, id, s)
    ensures Accepted(cfg, id, s.log) && Replay(cfg, id, s.log).channel == s.sh.stored
    ensures forall pid | pid in s.procs && s.procs[pid].Commit? :: s.procs[pid].tx.before == s.sh.stored
    ensures forall pid | pid in s.procs && s.procs[pid].ClaimWrite? :: Some(s.procs[pid].channel) == s.sh.stored
  {
    ReachableInv(cfg, id, s);
    forall pid | pid in s.procs && (s.procs[pid].Commit? || s.procs[pid].ClaimWrite?)
      ensures s.procs[pid].Commit? ==> s.procs[pid].tx.before == s.sh.stored
      ensures s.procs[pid].ClaimWrite? ==> Some(s.procs[pid].channel) == s.sh.stored
    {
      assert Fits(cfg, id, s.payer, s.sh.stored, s.procs[pid]);
    }
  }

  /** History is only ever extended. */
  lemma {:induction false} LogGrows(cfg: Config, id: int, s: Sys, actions: seq<Action>)
    requires Allowed(cfg, id, s, actions)
    ensures s.log <= After(cfg, id, s, actions).log
    ensures s.recorded <= After(cfg, id, s, actions).recorded
    ensures s.timeouts <= After(cfg, id, s, actions).timeouts
    ensures s.payer == After(cfg, id, s, actions).payer
  {
    if actions != [] {
      LogGrows(cfg, id, s, actions[..|actions| - 1]);
    }
  }

  /**
    From s to t the stored nonce has not decreased; and if it stood still the authorised
    amount has risen by exactly the price of every call paid in between.
   */
  ghost predicate RecordGrew(cfg: Config, id: int, s: Sys, t: Sys) {
    var b, c := Replay(cfg, id, s.log), Replay(cfg, id, t.log);
    && Follows(cfg, b, c)
    && (s.sh.stored.Some? ==>
          && t.sh.stored.Some? && s.sh.stored.value.nonce <= t.sh.stored.value.nonce
          && (s.sh.stored.value.nonce == t.sh.stored.value.nonce ==>
                t.sh.stored.value.authorizedAmount == s.sh.stored.value.authorizedAmount + cfg.price * (c.paid - b.paid)))
  }

  /** Between any two moments of a run the stored record only grows. */
  lemma RecordMonotone(cfg: Config, id: int, s0: Sys, actions: seq<Action>, i: nat)
    requires Init(s0) && i <= |actions| && Allowed(cfg, id, s0, actions)
    ensures RecordGrew(cfg, id, After(cfg, id, s0, actions[..i]), After(cfg, id, s0, actions))
  {
    AllowedPrefix(cfg, id, s0, actions, i);
    SerialAlways(cfg, id, s0, actions[..i]);
    SerialAlways(cfg, id, s0, actions);
    LogGrows(cfg, id, After(cfg, id, s0, actions[..i]), actions[i..]);
    LogPrefixGrew(cfg, id, After(cfg, id, s0, actions[..i]), After(cfg, id, s0, actions));
  }

  lemma SerialAlways(cfg: Config, id: int, s0: Sys, actions: seq<Action>)
    requires Init(s0) && Allowed(cfg, id, s0, actions)
    ensures SerialOk(cfg, id, After(cfg, id, s0, actions))
  {
    InvAlways(cfg, id, s0, actions);
  }

  lemma LogPrefixGrew(cfg: Config, id: int, s: Sys, t: Sys)
    requires SerialOk(cfg, id, s) && SerialOk(cfg, id, t) && s.log <= t.log
    ensures RecordGrew(cfg, id, s, t)
  {
    assert t.log[..|s.log|] == s.log;
    ReplayFollows(cfg, id, t.payer, t.log, |s.log|);
  }

  // --------------------------------------------------------- backed payments

  /**
    Solvency: until the block reaches the stored expiration, the deposit on the blockchain
    pays for the authorised amount and for every claim started and not yet collected.
   */
  lemma Solvent(cfg: Config, id: int, s: Sys)
    requires Reachable(cfg, id, s)
    requires s.sh.stored.Some? && s.sh.block < s.sh.stored.value.expiration
    ensures var r := s.sh.stored.value;
            && s.sh.chain.Some? && s.sh.chain.value.nonce <= r.nonce
            && 0 <= r.authorizedAmount <= r.fullAmount
            && r.authorizedAmount + Owed(ClaimsOf(cfg, id, s), s.sh.chain.value.nonce, r.nonce) <= s.sh.chain.value.value
  {
    ReachableInv(cfg, id, s);
  }

  /**
    An accepted payment stays backed, together with all pending claims, from its validation
    until the block has advanced by the expiration threshold, whatever happens meanwhile.
   */
  lemma AcceptedPaymentBacked(cfg: Config, id: int, s: Sys, pid: nat)
    requires Reachable(cfg, id, s) && pid in s.procs
    requires s.procs[pid].PriceCheck? || s.procs[pid].Call? || s.procs[pid].Commit?
    requires s.sh.block <= s.procs[pid].tx.block + cfg.threshold
    ensures var tx := s.procs[pid].tx;
            && s.sh.chain.Some? && s.sh.chain.value.nonce <= tx.payment.channelNonce
            && tx.payment.amount + Owed(ClaimsOf(cfg, id, s), s.sh.chain.value.nonce, tx.payment.channelNonce) <= s.sh.chain.value.value
  {
    ReachableInv(cfg, id, s);
    assert Fits(cfg, id, s.payer, s.sh.stored, s.procs[pid]);
    assert FlightOk(s.sh, ClaimsOf(cfg, id, s), s.procs[pid]);
  }

  /** The request has just been accepted by this step. */
  predicate JustAccepted(cfg: Config, id: int, s: Sys, pid: nat, c: Choice) {
    pid in s.procs && s.procs[pid].Check? && ProcStep(cfg, id, s.sh, s.procs[pid], c).1.PriceCheck?
  }

  /**
    A payment is accepted only at a block that was really read: the block of that moment,
    with the expiration further away than the threshold, a sufficient deposit, the
    channel's nonce, and the payer's signature. Right then the deposit on the blockchain
    pays for it together with all pending claims.
   */
  lemma AcceptedAtTheCurrentBlock(cfg: Config, id: int, s: Sys, pid: nat, c: Choice)
    requires Reachable(cfg, id, s) && JustAccepted(cfg, id, s, pid, c)
    ensures var t := Next(cfg, id, s, Run(pid, c));
            var tx := t.procs[pid].tx;
            && c.fault == Fine && tx.block == s.sh.block
            && s.sh.block + cfg.threshold < tx.channel.expiration
            && tx.payment.amount <= tx.channel.fullAmount && tx.payment.channelNonce == tx.channel.nonce
            && SignerOfPayment(cfg, tx.payment) == Some(s.payer)
            && t.sh.chain.Some? && t.sh.chain.value.nonce <= tx.payment.channelNonce
            && tx.payment.amount + Owed(ClaimsOf(cfg, id, t), t.sh.chain.value.nonce, tx.payment.channelNonce) <= t.sh.chain.value.value
  {
    ReachableInv(cfg, id, s);
    var p := s.procs[pid];
    ValidateAcceptsIff(cfg, p.payment, p.channel, if c.fault == Fine then Some(s.sh.block) else None);
    assert Fits(cfg, id, s.payer, s.sh.stored, p);
    assert FlightOk(s.sh, ClaimsOf(cfg, id, s), p);
  }

  /**
    And it stays so until the block has advanced by the threshold from the block at which it
    was accepted, as long as the request is under way, whatever happens meanwhile.
   */
  lemma BackedSinceAccepted(cfg: Config, id: int, s: Sys, pid: nat, c: Choice, actions: seq<Action>)
    requires Reachable(cfg, id, s) && JustAccepted(cfg, id, s, pid, c)
    requires Allowed(cfg, id, Next(cfg, id, s, Run(pid, c)), actions)
    ensures var u := Next(cfg, id, s, Run(pid, c));
            var t, tx := After(cfg, id, u, actions), u.procs[pid].tx;
            pid in t.procs && (t.procs[pid] == PriceCheck(tx) || t.procs[pid] == Call(tx) || t.procs[pid] == Proc.Commit(tx))
            && t.sh.block <= s.sh.block + cfg.threshold ==>
              && t.sh.chain.Some? && t.sh.chain.value.nonce <= tx.payment.channelNonce
              && tx.payment.amount + Owed(ClaimsOf(cfg, id, t), t.sh.chain.value.nonce, tx.payment.channelNonce) <= t.sh.chain.value.value
  {
    var u := Next(cfg, id, s, Run(pid, c));
    var t, tx := After(cfg, id, u, actions), u.procs[pid].tx;
    AcceptedAtTheCurrentBlock(cfg, id, s, pid, c);
    AfterNext(cfg, id, s, [], Run(pid, c));
    assert [] + [Run(pid, c)] == [Run(pid, c)];
    ReachableAfter(cfg, id, s, [Run(pid, c)]);
    ReachableAfter(cfg, id, u, actions);
    if pid in t.procs && (t.procs[pid] == PriceCheck(tx) || t.procs[pid] == Call(tx) || t.procs[pid] == Proc.Commit(tx))
       && t.sh.block <= s.sh.block + cfg.threshold {
      AcceptedPaymentBacked(cfg, id, t, pid);
    }
  }

  // ------------------------------------------------------------- the deposit

  /**
    The deposit in the stored record is exactly the one last read from the blockchain less
    the claims started since, and so is the expiration; a paid call takes nothing from it.
   */
  lemma DepositExact(cfg: Config, id: int, s: Sys)
    requires Reachable(cfg, id, s) && s.sh.stored.Some?
    ensures var r, last := s.sh.stored.value, LastDeposit(cfg, id, s.log);
            && last.Some? && last.value.nonce <= r.nonce
            && r.fullAmount == last.value.value - Owed(ClaimsOf(cfg, id, s), last.value.nonce, r.nonce)
            && r.expiration == last.value.expiration
  {
    ReachableInv(cfg, id, s);
    ReplayKeepsDeposit(cfg, id, s.payer, s.log);
  }

  /**
    So the whole rest can be spent: while the blockchain is as it was last read, a payment
    with the channel's nonce and signature, in time, is accepted exactly if it is at most
    the deposit less the pending claims.
   */
  lemma RestSpendable(cfg: Config, id: int, s: Sys, payment: Payment)
    requires Reachable(cfg, id, s) && s.sh.stored.Some? && s.sh.chain == LastDeposit(cfg, id, s.log)
    requires payment.channelNonce == s.sh.stored.value.nonce && SignerOfPayment(cfg, payment) == Some(s.payer)
    requires s.sh.chain.Some? && s.sh.block + cfg.threshold < s.sh.chain.value.expiration
    ensures var r, m := s.sh.stored.value, Resolve(cfg, id, s.sh.stored, ReadOf(s.sh, Fine));
            && m.Success? && m.value.Some?
            && (Validate(cfg, payment, m.value.value, Some(s.sh.block)).Success? <==>
                payment.amount <= s.sh.chain.value.value - Owed(ClaimsOf(cfg, id, s), s.sh.chain.value.nonce, r.nonce))
  {
    ReachableInv(cfg, id, s);
    DepositExact(cfg, id, s);
    var r := s.sh.stored.value;
    ResolveStored(cfg, id, r, ReadOf(s.sh, Fine));
    ValidateAcceptsIff(cfg, payment, Resolve(cfg, id, s.sh.stored, ReadOf(s.sh, Fine)).value.value, Some(s.sh.block));
    assert Owed(ClaimsOf(cfg, id, s), r.nonce, r.nonce) == 0;
  }

  /**
    Falling back to the stored record is harmless: once the chain nonce has overtaken it,
    no payment at any later block passes validation against the record alone.
   */
  lemma StaleRecordRejectsAll(cfg: Config, id: int, s: Sys, payment: Payment, block: nat)
    requires Reachable(cfg, id, s)
    requires s.sh.stored.Some? && s.sh.chain.Some? && s.sh.chain.value.nonce > s.sh.stored.value.nonce
    requires block >= s.sh.block
    ensures Resolve(cfg, id, s.sh.stored, Unreadable) == Success(s.sh.stored)
    ensures Validate(cfg, payment, s.sh.stored.value, Some(block)).Failure?
  {
    ReachableInv(cfg, id, s);
  }

  // ------------------------------------------------------------ exact income

  /** The nonce of the payment an action commits, if it commits one. */
  function PaidNonce(s: Sys, a: Action): Option<int> {
    if a.Run? && a.pid in s.procs && s.procs[a.pid].Commit? && a.choice.fault != FailsBefore
    then Some(s.procs[a.pid].tx.payment.channelNonce) else None
  }

  /** How many Commit writes of a run took effect. */
  function Commits(cfg: Config, id: int, s: Sys, actions: seq<Action>): nat {
    if actions == [] then 0
    else
      var init := actions[..|actions| - 1];
      Commits(cfg, id, s, init) + if PaidNonce(After(cfg, id, s, init), actions[|actions| - 1]).Some? then 1 else 0
  }

  /** How many of them were at this nonce. */
  function CommitsAt(cfg: Config, id: int, s: Sys, actions: seq<Action>, n: int): nat {
    if actions == [] then 0
    else
      var init := actions[..|actions| - 1];
      CommitsAt(cfg, id, s, init, n) + if PaidNonce(After(cfg, id, s, init), actions[|actions| - 1]) == Some(n) then 1 else 0
  }

  lemma {:induction false} PaidIsCommits(cfg: Config, id: int, s0: Sys, actions: seq<Action>)
    requires Init(s0) && Allowed(cfg, id, s0, actions)
    ensures Replay(cfg, id, After(cfg, id, s0, actions).log).paid == Commits(cfg, id, s0, actions)
  {
    if actions != [] {
      var init, a := actions[..|actions| - 1], actions[|actions| - 1];
      PaidIsCommits(cfg, id, s0, init);
      InvAlways(cfg, id, s0, init);
      if a.Run? {
        BooksAfterStep(cfg, id, After(cfg, id, s0, init), a.pid, a.choice);
      }
    }
  }

  /** All claims ever started plus the authorised amount are the price times the committed calls, up to what was lost. */
  lemma IncomeByBooks(cfg: Config, id: int, s0: Sys, actions: seq<Action>)
    requires Init(s0) && Allowed(cfg, id, s0, actions)
    ensures var s := After(cfg, id, s0, actions);
            var b := Replay(cfg, id, s.log);
            && (s.sh.stored.None? ==> Commits(cfg, id, s0, actions) == 0)
            && (s.sh.stored.Some? ==>
                  Owed(b.claims, 0, s.sh.stored.value.nonce) + s.sh.stored.value.authorizedAmount + b.lost
                  == cfg.price * Commits(cfg, id, s0, actions))
            && 0 <= b.lost && (s.timeouts == 0 ==> b.lost == 0)
  {
    InvAlways(cfg, id, s0, actions);
    PaidIsCommits(cfg, id, s0, actions);
    var s := After(cfg, id, s0, actions);
    ReplayKeepsBooks(cfg, id, s.payer, s.log);
  }

  lemma PaysAtStep(cfg: Config, id: int, s: Sys, a: Action, n: int)
    requires Enabled(cfg, id, s, a)
    ensures PaysAt(Next(cfg, id, s, a).log, n) == PaysAt(s.log, n) + if PaidNonce(s, a) == Some(n) then 1 else 0
  {
    if a.Run? && Logged(s.procs[a.pid], a.choice).Some? {
      PaysAtNext(s.log, Logged(s.procs[a.pid], a.choice).value);
    }
  }

  lemma {:induction false} PaysAtIsCommits(cfg: Config, id: int, s0: Sys, actions: seq<Action>, n: int)
    requires Allowed(cfg, id, s0, actions) && s0.log == []
    ensures PaysAt(After(cfg, id, s0, actions).log, n) == CommitsAt(cfg, id, s0, actions, n)
  {
    if actions != [] {
      var init := actions[..|actions| - 1];
      PaysAtIsCommits(cfg, id, s0, init, n);
      PaysAtStep(cfg, id, After(cfg, id, s0, init), actions[|actions| - 1], n);
    }
  }

  lemma PaidNothing(price: int, paid: nat)
    ensures price * paid == 0 <==> price == 0 || paid == 0
  {}

  /**
    Every claim is worth the price times the calls paid at its nonce. So a claim is empty if
    and only if calls are free or none was paid at its nonce, and it lacks a signature if
    and only if none was.
   */
  lemma ClaimWorth(cfg: Config, id: int, s0: Sys, actions: seq<Action>, n: int)
    requires Init(s0) && Allowed(cfg, id, s0, actions)
    requires n in ClaimsOf(cfg, id, After(cfg, id, s0, actions))
    ensures var claim, paid := ClaimsOf(cfg, id, After(cfg, id, s0, actions))[n], CommitsAt(cfg, id, s0, actions, n);
            && claim.amount == cfg.price * paid
            && (claim.amount == 0 <==> cfg.price == 0 || paid == 0)
            && (claim.signature.None? <==> paid == 0)
  {
    SerialAlways(cfg, id, s0, actions);
    PaysAtIsCommits(cfg, id, s0, actions, n);
    ReplayKeepsWorth(cfg, id, After(cfg, id, s0, actions).log);
    PaidNothing(cfg.price, CommitsAt(cfg, id, s0, actions, n));
  }

  // ----------------------------------------------------------------- claims

  /**
    No claim is lost: a claim reported as started is in the payment storage, unchanged,
    until the chain nonce has passed it. Every record there is a claim that was started,
    below the stored nonce, and carries the payer's signature unless it is empty.
   */
  lemma ClaimsKept(cfg: Config, id: int, s: Sys, n: int)
    requires Reachable(cfg, id, s)
    ensures n in s.confirmed && !Passed(s.sh, n) ==> n in s.sh.payments
    ensures n in s.sh.payments ==>
              && n in ClaimsOf(cfg, id, s) && s.sh.payments[n] == ClaimsOf(cfg, id, s)[n]
              && s.sh.stored.Some? && 0 <= n < s.sh.stored.value.nonce
              && ClaimOk(cfg, id, s.payer, n, s.sh.payments[n])
  {
    ReachableInv(cfg, id, s);
  }

  /** The nonce of the payment record an action writes, if it writes one. */
  function RecordWritten(s: Sys, a: Action): Option<int> {
    if a.Run? && a.pid in s.procs && s.procs[a.pid].ClaimRecord? && a.choice.fault != FailsBefore
    then Some(s.procs[a.pid].payment.channelNonce) else None
  }

  /** No two steps of a run write a payment record for the same nonce. */
  lemma WrittenOnce(cfg: Config, id: int, s0: Sys, actions: seq<Action>, i: nat, j: nat)
    requires Init(s0) && Allowed(cfg, id, s0, actions) && i < j < |actions|
    requires RecordWritten(After(cfg, id, s0, actions[..i]), actions[i]).Some?
    ensures RecordWritten(After(cfg, id, s0, actions[..i]), actions[i]) != RecordWritten(After(cfg, id, s0, actions[..j]), actions[j])
  {
    var upto := actions[..j];
    AllowedPrefix(cfg, id, s0, actions, j);
    AllowedPrefix(cfg, id, s0, upto, i + 1);
    var early := upto[..i + 1];
    assert early[..|early| - 1] == actions[..i] && early[|early| - 1] == actions[i];
    InvAlways(cfg, id, s0, upto);
    LogGrows(cfg, id, After(cfg, id, s0, early), upto[i + 1..]);
    var t := After(cfg, id, s0, upto);
    if RecordWritten(t, actions[j]).Some? {
      assert ClaimFits(t.sh, ClaimsOf(cfg, id, t), t.recorded, t.procs[actions[j].pid]);
    }
  }

  // ------------------------------------------------------------- signatures

  /** The stored record is the payer's own promise, signed for exactly its nonce and amount. */
  lemma RecordSigned(cfg: Config, id: int, s: Sys)
    requires Reachable(cfg, id, s) && s.sh.stored.Some?
    ensures RecordOk(cfg, id, s.payer, s.sh.stored.value)
  {
    ReachableInv(cfg, id, s);
  }
}
