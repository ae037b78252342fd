/** Mutual exclusion of the lock built from Get, CompareAndSwap and PutIfAbsent. */
module Exclusion {
  import opened Wrappers
  import opened Records
  import opened Protocol

  /** At most one live holder, and whenever there is one the key says "locked". */
  predicate LockOk(s: Sys) {
    && (s.sh.lock.None? || s.sh.lock == Some(LOCKED) || s.sh.lock == Some(UNLOCKED))
    && (forall p, q | p in s.procs && q in s.procs && Holds(s.procs[p]) && Holds(s.procs[q]) :: p == q)
    && (forall p | p in s.procs && Holds(s.procs[p]) :: s.sh.lock == Some(LOCKED))
  }

  /** What a step of one request can do to the lock. */
  lemma StepOnLock(cfg: Config, id: int, sh: Shared, p: Proc, c: Choice)
    ensures var (sh', p') := ProcStep(cfg, id, sh, p, c);
            && (Holds(p') && !Holds(p) ==> sh.lock != Some(LOCKED) && sh'.lock == Some(LOCKED))
            && (Holds(p') && Holds(p) ==> sh'.lock == sh.lock)
            && (!Holds(p) && sh.lock == Some(LOCKED) && !p.OperatorDelete? ==> sh'.lock == sh.lock)
            && (p.OperatorDelete? && c.fault == FailsBefore ==> sh'.lock == sh.lock)
  {}

  lemma StepKeepsLock(cfg: Config, id: int, s: Sys, a: Action)
    requires LockOk(s) && Enabled(cfg, id, s, a) && Prudent(s, a)
    ensures LockOk(Next(cfg, id, s, a))
  {
    if a.Run? {
      StepOnLock(cfg, id, s.sh, s.procs[a.pid], a.choice);
    }
  }

  lemma {:induction false} RunKeepsLock(cfg: Config, id: int, s: Sys, actions: seq<Action>)
    requires LockOk(s) && Allowed(cfg, id, s, actions)
    ensures LockOk(After(cfg, id, s, actions))
  {
    if actions != [] {
      var init := actions[..|actions| - 1];
      RunKeepsLock(cfg, id, s, init);
      StepKeepsLock(cfg, id, After(cfg, id, s, init), actions[|actions| - 1]);
    }
  }

  // --------------------------------------------------------- crash recovery

  lemma FreshPid(pids: set<nat>) returns (pid: nat)
    ensures pid !in pids
  {
    pid := 0;
    var below: set<nat> := {};
    while pid in pids
      invariant below <= pids && |below| == pid
      invariant forall q | q in below :: q < pid
      decreases |pids| - |below|
    {
      below := below + {pid};
      CardinalityOfSubset(below, pids);
      pid := pid + 1;
    }
  }

  lemma {:induction false} CardinalityOfSubset(a: set<nat>, b: set<nat>)
    requires a <= b
    ensures |a| <= |b|
  {
    if a != {} {
      var x :| x in a;
      CardinalityOfSubset(a - {x}, b - {x});
    }
  }

  /** A claim request that starts and takes its first two steps without an error. */
  function LockAttempt(pid: nat): seq<Action> {
    [Spawn(pid, LockGet(Claim)), Run(pid, FINE), Run(pid, FINE)]
  }

  lemma AttemptTakesSteps(cfg: Config, id: int, s: Sys, pid: nat)
    requires pid !in s.procs
    ensures Allowed(cfg, id, s, LockAttempt(pid))
    ensures var t := After(cfg, id, s, LockAttempt(pid));
            && pid in t.procs && t.procs == s.procs[pid := t.procs[pid]]
            && (Holds(t.procs[pid]) <==> LockFree(s.sh))
  {
    var start, step := Spawn(pid, LockGet(Claim)), Run(pid, FINE);
    AfterNext(cfg, id, s, [], start);
    assert [] + [start] == [start];
    var t1 := After(cfg, id, s, [start]);
    AfterNext(cfg, id, s, [start], step);
    assert [start] + [step] == [start, step];
    AfterNext(cfg, id, s, [start, step], step);
    assert [start, step] + [step] == LockAttempt(pid);
    assert t1.procs == s.procs[pid := LockGet(Claim)];
  }

  /** Uncontended and without storage errors, a new attempt gets the lock exactly when the key is not "locked". */
  lemma AttemptSucceedsIffUnlocked(cfg: Config, id: int, s: Sys, pid: nat)
    requires LockOk(s) && pid !in s.procs
    ensures Allowed(cfg, id, s, LockAttempt(pid))
    ensures var t := After(cfg, id, s, LockAttempt(pid));
            pid in t.procs && (Holds(t.procs[pid]) <==> s.sh.lock != Some(LOCKED))
  {
    AttemptTakesSteps(cfg, id, s, pid);
  }

  /** The action makes the operator's deletion of the lock key. */
  predicate Deletes(s: Sys, a: Action) {
    a.Run? && a.pid in s.procs && s.procs[a.pid].OperatorDelete?
  }

  /**
    A lock left behind by a crash, or by an unlock that failed, blocks the channel for good:
    whatever else happens, nobody gets the lock until the operator deletes the key.
   */
  lemma {:induction false} OrphanedLockBlocks(cfg: Config, id: int, s: Sys, actions: seq<Action>)
    requires s.sh.lock == Some(LOCKED) && NobodyHolds(s) && Allowed(cfg, id, s, actions)
    requires forall i | 0 <= i < |actions| :: !Deletes(After(cfg, id, s, actions[..i]), actions[i])
    ensures var t := After(cfg, id, s, actions); t.sh.lock == Some(LOCKED) && NobodyHolds(t)
  {
    if actions != [] {
      var init, a := actions[..|actions| - 1], actions[|actions| - 1];
      forall i | 0 <= i < |init| ensures !Deletes(After(cfg, id, s, init[..i]), init[i]) {
        assert init[..i] == actions[..i];
      }
      OrphanedLockBlocks(cfg, id, s, init);
      var t := After(cfg, id, s, init);
      if a.Run? {
        StepOnLock(cfg, id, t.sh, t.procs[a.pid], a.choice);
      }
    }
  }

  /**
    The operator's deletion of a lock key keeps mutual exclusion in everything that can
    happen afterwards exactly when no live request holds the lock.
   */
  lemma DeletionSafeIffNobodyHolds(cfg: Config, id: int, s: Sys, pid: nat, c: Choice)
    requires LockOk(s) && pid in s.procs && s.procs[pid].OperatorDelete? && c.fault != FailsBefore
    ensures var t := Next(cfg, id, s, Run(pid, c));
            NobodyHolds(s) <==> forall actions | Allowed(cfg, id, t, actions) :: LockOk(After(cfg, id, t, actions))
  {
    var t := Next(cfg, id, s, Run(pid, c));
    if NobodyHolds(s) {
      StepKeepsLock(cfg, id, s, Run(pid, c));
      forall actions | Allowed(cfg, id, t, actions) ensures LockOk(After(cfg, id, t, actions)) {
        RunKeepsLock(cfg, id, t, actions);
      }
    } else {
      var holder :| holder in s.procs && Holds(s.procs[holder]);
      var q := FreshPid(t.procs.Keys);
      AttemptTakesSteps(cfg, id, t, q);
      var u := After(cfg, id, t, LockAttempt(q));
      assert t.procs[holder] == s.procs[holder] && u.procs[holder] == t.procs[holder];
      assert Holds(u.procs[holder]) && Holds(u.procs[q]) && holder != q;
    }
  }

  /** None of these actions is one of this request's. */
  predicate Idle(pid: nat, actions: seq<Action>) {
    forall a | a in actions && (a.Spawn? || a.Run? || a.Crash?) :: a.pid != pid
  }

  lemma {:induction false} IdleStays(cfg: Config, id: int, s: Sys, pid: nat, actions: seq<Action>)
    requires pid in s.procs && Allowed(cfg, id, s, actions) && Idle(pid, actions)
    ensures pid in After(cfg, id, s, actions).procs && After(cfg, id, s, actions).procs[pid] == s.procs[pid]
  {
    if actions != [] {
      IdleStays(cfg, id, s, pid, actions[..|actions| - 1]);
      assert actions[|actions| - 1] in actions;
    }
  }

  /**
    An attempt that has read the key, and then waits while anything happens, the operator's
    deletion of the key included: it gets the lock exactly if the key is then still free in
    the way it was seen. It never does so wrongly, as nobody else holds the lock then; and
    having seen a value it fails on a key that was deleted and not created again.
   */
  lemma StaleAttempt(cfg: Config, id: int, s: Sys, pid: nat, actions: seq<Action>, c: Choice)
    requires LockOk(s) && pid in s.procs && s.procs[pid].LockSet?
    requires Allowed(cfg, id, s, actions) && Idle(pid, actions)
    ensures var seen, t := s.procs[pid].seen, After(cfg, id, s, actions);
            && pid in t.procs
            && var u := Next(cfg, id, t, Run(pid, c));
               && (Holds(u.procs[pid]) <==> c.fault == Fine && t.sh.lock == (if seen.Some? then Some(UNLOCKED) else None))
               && (Holds(u.procs[pid]) ==> NobodyHolds(t) && u.sh.lock == Some(LOCKED))
               && (seen.Some? && t.sh.lock.None? ==> !Holds(u.procs[pid]) && u.sh == t.sh)
  {
    IdleStays(cfg, id, s, pid, actions);
    RunKeepsLock(cfg, id, s, actions);
  }
}
