/**
  The etcd client. CompareAndSwap is one transaction; PutIfAbsent is not: it takes a mutex,
  reads the key and then writes it. On keys that are only created this way, as the lock
  keys are, it still behaves like the atomic operation the storage contract asks for.
 */
module Etcd {
  import opened Wrappers
  import opened Keys
  import opened Storage

  // ------------------------------------------------------------ transactions

  /** One comparison of a transaction; a key without a value is never equal. */
  predicate Holds(data: map<string, string>, compare: (string, string)) {
    Lookup(data, compare.0) == Some(compare.1)
  }

  function PutAll(data: map<string, string>, puts: seq<(string, string)>): map<string, string> {
    if puts == [] then data
    else PutAll(data, puts[..|puts| - 1])[puts[|puts| - 1].0 := puts[|puts| - 1].1]
  }

  /** Writing some keys, all different: each gets its value, and no other key changes. */
  lemma {:induction false} PutAllAt(data: map<string, string>, puts: seq<(string, string)>)
    requires forall i, j | 0 <= i < j < |puts| :: puts[i].0 != puts[j].0
    ensures forall i | 0 <= i < |puts| :: Lookup(PutAll(data, puts), puts[i].0) == Some(puts[i].1)
    ensures forall k | forall i | 0 <= i < |puts| :: puts[i].0 != k :: Lookup(PutAll(data, puts), k) == Lookup(data, k)
  {
    if puts != [] {
      var init := puts[..|puts| - 1];
      assert forall i | 0 <= i < |init| :: init[i] == puts[i];
      PutAllAt(data, init);
    }
  }

  class EtcdClient {
    var data: map<string, string>

    constructor ()
      ensures data == map[]
    {
      data := map[];
    }

    /** The server's If(...).Then(...).Commit(), one atomic step; it may report an error before or after it. */
    method Commit(cmps: array<(string, string)>, ops: array<(string, string)>) returns (succeeded: bool, err: bool)
      modifies this
      ensures var holds := forall i | 0 <= i < cmps.Length :: Holds(old(data), cmps[i]);
              && (!err ==> (succeeded <==> holds) && data == if holds then PutAll(old(data), ops[..]) else old(data))
              && (err ==> !succeeded && (data == old(data) || (holds && data == PutAll(old(data), ops[..]))))
    {
      err := *;
      var happens := *;
      succeeded := true;
      for i := 0 to cmps.Length
        invariant succeeded <==> forall j | 0 <= j < i :: Holds(data, cmps[j])
      {
        succeeded := succeeded && Lookup(data, cmps[i].0) == Some(cmps[i].1);
      }
      if succeeded && (happens || !err) {
        ghost var before := data;
        for i := 0 to ops.Length
          invariant data == PutAll(before, ops[..i])
        {
          assert ops[..i + 1][..i] == ops[..i];
          data := data[ops[i].0 := ops[i].1];
        }
        assert ops[..ops.Length] == ops[..];
      }
      succeeded := succeeded && !err;
    }

    /** All the writes happen if all the comparisons hold, otherwise none; an error leaves open which. */
    method Transaction(compare: seq<(string, string)>, swap: seq<(string, string)>) returns (ok: bool, err: bool)
      modifies this
      ensures var holds := forall c | c in compare :: Holds(old(data), c);
              && (!err ==> (ok <==> holds) && data == if holds then PutAll(old(data), swap) else old(data))
              && (err ==> !ok && (data == old(data) || (holds && data == PutAll(old(data), swap))))
    {
      var cmps := new (string, string)[|compare|](_ => ("", ""));
      for index := 0 to |compare|
        modifies cmps
        invariant forall j | 0 <= j < index :: cmps[j] == compare[j]
      {
        cmps[index] := compare[index];
      }
      var ops := new (string, string)[|swap|](_ => ("", ""));
      for index := 0 to |swap|
        modifies ops
        invariant forall j | 0 <= j < index :: ops[j] == swap[j]
      {
        ops[index] := swap[index];
      }
      assert ops[..] == swap;
      ok, err := Commit(cmps, ops);
      assert forall i | 0 <= i < |compare| :: cmps[i] == compare[i] && compare[i] in compare;
    }

    /** The contract of AtomicStorage.CompareAndSwap. */
    method CompareAndSwap(key: string, prevValue: string, newValue: string) returns (ok: bool, err: bool)
      modifies this
      ensures var op := CompareAndSwapOp(key, prevValue, newValue);
              && (!err ==> (ok <==> Succeeds(old(data), op)) && data == Apply(old(data), op))
              && (err ==> !ok && (data == old(data) || data == Apply(old(data), op)))
    {
      ok, err := Transaction([(key, prevValue)], [(key, newValue)]);
      assert Holds(old(data), (key, prevValue)) <==> forall c | c in [(key, prevValue)] :: Holds(old(data), c);
      assert PutAll(old(data), [(key, newValue)]) == old(data)[key := newValue] by {
        assert [(key, newValue)][..0] == [];
      }
    }
  }

  // -------------------------------------- PutIfAbsent as a system of clients

  /** A call of PutIfAbsent: waiting for the mutex, reading, writing, releasing the mutex; Dead never goes on. */
  datatype Client =
    | Waiting(value: string)
    | Reading(value: string)
    | Writing(value: string)
    | Leaving(value: string, ok: bool, err: bool)
    | Returned(value: string, ok: bool, err: bool)
    | Dead(value: string)

  /** An atomic operation on the key, as the history records it. */
  datatype KeyOp = Create(value: string) | Replace(prev: string, next: string) | Remove | Overwrite(value: string)

  /** An operation with its result, and the call of PutIfAbsent it was made for. */
  datatype Entry = Entry(op: KeyOp, ok: bool, caller: Option<nat>)

  /**
    One key, its mutex and the calls in progress. done lists, in order, the atomic
    operations the steps so far amount to, each with its result.
   */
  datatype KeySys = KeySys(
    value: Option<string>,
    mutex: Option<nat>,
    clients: map<nat, Client>,
    done: seq<Entry>
  )

  datatype KeyAction =
    | Start(pid: nat, value: string)
    | TakeMutex(pid: nat)
    | Read(pid: nat, fails: bool)
    | Write(pid: nat, fails: bool, happens: bool)
    | Leave(pid: nat)
    | Die(pid: nat)
    // other users of the key: lock and unlock, the operator, an unconditional write
    | Cas(prev: string, next: string)
    | Delete
    | PlainPut(value: string)

  /** plain tells whether the key may also be written unconditionally. */
  predicate Can(plain: bool, s: KeySys, a: KeyAction) {
    match a
    case Start(pid, _) => pid !in s.clients
    case TakeMutex(pid) => pid in s.clients && s.clients[pid].Waiting? && s.mutex.None?
    case Read(pid, _) => pid in s.clients && s.clients[pid].Reading?
    case Write(pid, fails, happens) => pid in s.clients && s.clients[pid].Writing? && (!fails ==> happens)
    case Leave(pid) => pid in s.clients && s.clients[pid].Leaving?
    case Die(pid) => pid in s.clients && !s.clients[pid].Dead?
    case Cas(_, _) => true
    case Delete => true
    case PlainPut(_) => plain
  }

  function Do(plain: bool, s: KeySys, a: KeyAction): KeySys
    requires Can(plain, s, a)
  {
    match a
    case Start(pid, value) => s.(clients := s.clients[pid := Waiting(value)])
    case TakeMutex(pid) => s.(mutex := Some(pid), clients := s.clients[pid := Reading(s.clients[pid].value)])
    case Read(pid, fails) =>
      var v := s.clients[pid].value;
      if fails then s.(clients := s.clients[pid := Leaving(v, false, true)])
      else if s.value.Some? then
        s.(clients := s.clients[pid := Leaving(v, false, false)], done := s.done + [Entry(Create(v), false, Some(pid))])
      else s.(clients := s.clients[pid := Writing(v)])
    case Write(pid, fails, happens) =>
      var v := s.clients[pid].value;
      s.(clients := s.clients[pid := Leaving(v, !fails, fails)],
         value := if happens then Some(v) else s.value,
         done := if happens then s.done + [Entry(Create(v), true, Some(pid))] else s.done)
    case Leave(pid) =>
      var c := s.clients[pid];
      s.(mutex := None, clients := s.clients[pid := Returned(c.value, c.ok, c.err)])
    // the session of a dead client expires and frees its mutex
    case Die(pid) =>
      s.(clients := s.clients[pid := Dead(s.clients[pid].value)], mutex := if s.mutex == Some(pid) then None else s.mutex)
    case Cas(prev, next) =>
      var swaps := s.value == Some(prev);
      s.(value := if swaps then Some(next) else s.value, done := s.done + [Entry(Replace(prev, next), swaps, None)])
    case Delete => s.(value := None, done := s.done + [Entry(Remove, true, None)])
    case PlainPut(v) => s.(value := Some(v), done := s.done + [Entry(Overwrite(v), true, None)])
  }

  function DoAll(plain: bool, s: KeySys, actions: seq<KeyAction>): KeySys {
    if actions == [] then s
    else
      var t := DoAll(plain, s, actions[..|actions| - 1]);
      if Can(plain, t, actions[|actions| - 1]) then Do(plain, t, actions[|actions| - 1]) else t
  }

  /** What an atomic storage does with one operation: the value after it, and its result. */
  function Atomic(value: Option<string>, op: KeyOp): (Option<string>, bool) {
    match op
    case Create(v) => if value.None? then (Some(v), true) else (value, false)
    case Replace(prev, next) => if value == Some(prev) then (Some(next), true) else (value, false)
    case Remove => (None, true)
    case Overwrite(v) => (Some(v), true)
  }

  function AtomicValue(value: Option<string>, done: seq<Entry>): Option<string> {
    if done == [] then value
    else Atomic(AtomicValue(value, done[..|done| - 1]), done[|done| - 1].op).0
  }

  /** Served one at a time by an atomic storage, the operations give the same results. */
  ghost predicate AtomicResults(value: Option<string>, done: seq<Entry>) {
    done == [] ||
    (&& AtomicResults(value, done[..|done| - 1])
     && Atomic(AtomicValue(value, done[..|done| - 1]), done[|done| - 1].op).1 == done[|done| - 1].ok)
  }

  lemma AtomicNext(value: Option<string>, done: seq<Entry>, e: Entry)
    ensures AtomicValue(value, done + [e]) == Atomic(AtomicValue(value, done), e.op).0
    ensures AtomicResults(value, done + [e]) <==>
              AtomicResults(value, done) && Atomic(AtomicValue(value, done), e.op).1 == e.ok
  {
    assert (done + [e])[..|done + [e]| - 1] == done;
  }

  // ------------------------------------------------- what callers are told

  /** The operations made for one call, in order. */
  function MadeFor(done: seq<Entry>, pid: nat): seq<Entry> {
    if done == [] then []
    else
      var last := done[|done| - 1];
      MadeFor(done[..|done| - 1], pid) + if last.caller == Some(pid) then [last] else []
  }

  lemma MadeForNext(done: seq<Entry>, e: Entry, pid: nat)
    ensures MadeFor(done + [e], pid) == MadeFor(done, pid) + if e.caller == Some(pid) then [e] else []
  {
    assert (done + [e])[..|done + [e]| - 1] == done;
  }

  /**
    A call without an error was exactly one creation of its own value, with the result it
    reports; a call that failed or died was at most one, which then took place.
   */
  predicate ToldRight(c: Client, pid: nat, made: seq<Entry>) {
    match c
    case Waiting(_) => made == []
    case Reading(_) => made == []
    case Writing(_) => made == []
    case Leaving(v, ok, err) => if err then !ok && Once(v, pid, made) else made == [Entry(Create(v), ok, Some(pid))]
    case Returned(v, ok, err) => if err then !ok && Once(v, pid, made) else made == [Entry(Create(v), ok, Some(pid))]
    case Dead(v) => made == [] || made == [Entry(Create(v), made[0].ok, Some(pid))]
  }

  predicate Once(v: string, pid: nat, made: seq<Entry>) {
    made == [] || made == [Entry(Create(v), true, Some(pid))]
  }

  predicate CallerOk(s: KeySys, pid: nat) {
    if pid in s.clients then ToldRight(s.clients[pid], pid, MadeFor(s.done, pid)) else MadeFor(s.done, pid) == []
  }

  ghost predicate CallersOk(s: KeySys) {
    forall pid: nat :: CallerOk(s, pid)
  }

  /** The request an action is a step of. */
  function CallerOf(a: KeyAction): Option<nat> {
    if a.Cas? || a.Delete? || a.PlainPut? then None else Some(a.pid)
  }

  /** A step adds at most one entry, for its own caller. */
  lemma MadeForStep(plain: bool, s: KeySys, a: KeyAction, pid: nat)
    requires Can(plain, s, a)
    ensures var t := Do(plain, s, a);
            || (t.done == s.done && MadeFor(t.done, pid) == MadeFor(s.done, pid))
            || (&& |t.done| == |s.done| + 1 && t.done[|s.done|].caller == CallerOf(a)
                && MadeFor(t.done, pid) == MadeFor(s.done, pid) + if CallerOf(a) == Some(pid) then [t.done[|s.done|]] else [])
  {
    var t := Do(plain, s, a);
    if t.done != s.done {
      MadeForNext(s.done, t.done[|s.done|], pid);
      assert t.done == s.done + [t.done[|s.done|]];
    }
  }

  lemma OtherCaller(plain: bool, s: KeySys, a: KeyAction, pid: nat)
    requires CallerOk(s, pid) && Can(plain, s, a) && CallerOf(a) != Some(pid)
    ensures CallerOk(Do(plain, s, a), pid)
  {
    MadeForStep(plain, s, a, pid);
  }

  lemma OwnCaller(plain: bool, s: KeySys, a: KeyAction, pid: nat)
    requires CallerOk(s, pid) && Can(plain, s, a) && CallerOf(a) == Some(pid)
    ensures CallerOk(Do(plain, s, a), pid)
  {
    MadeForStep(plain, s, a, pid);
    var made, made' := MadeFor(s.done, pid), MadeFor(Do(plain, s, a).done, pid);
    assert !a.Leave? && !a.Die? ==> made == [] && (made' == [] || made' == [Do(plain, s, a).done[|s.done|]]);
  }

  lemma StepKeepsCallers(plain: bool, s: KeySys, a: KeyAction)
    requires CallersOk(s) && Can(plain, s, a)
    ensures CallersOk(Do(plain, s, a))
  {
    forall pid: nat ensures CallerOk(Do(plain, s, a), pid) {
      if CallerOf(a) == Some(pid) {
        OwnCaller(plain, s, a, pid);
      } else {
        OtherCaller(plain, s, a, pid);
      }
    }
  }

  predicate Inside(c: Client) {
    c.Reading? || c.Writing? || c.Leaving?
  }

  predicate InitKey(s: KeySys) {
    s.mutex == None && s.clients == map[] && s.done == []
  }

  /** Whoever is inside holds the mutex, and a client about to write still finds the key absent. */
  predicate MutexOk(s: KeySys) {
    && (forall pid | pid in s.clients && Inside(s.clients[pid]) :: s.mutex == Some(pid))
    && (forall pid | pid in s.clients && s.clients[pid].Writing? :: s.value == None)
  }

  /** And the history of atomic operations explains the value, and what every caller is told. */
  ghost predicate KeyOk(start: Option<string>, s: KeySys) {
    && MutexOk(s) && CallersOk(s)
    && AtomicResults(start, s.done) && AtomicValue(start, s.done) == s.value
  }

  /** The clients inside hold the mutex, so only one of them can be about to write. */
  lemma StepKeepsMutex(s: KeySys, a: KeyAction)
    requires MutexOk(s) && Can(false, s, a)
    ensures MutexOk(Do(false, s, a))
  {}

  /** The action writes a new value over a present one, and so creates a key that exists. */
  predicate Clobbers(s: KeySys, a: KeyAction) {
    a.Write? && a.happens && s.value.Some?
  }

  /** Any other step adds at most one operation to the history, and it is the atomic one. */
  lemma StepIsAtomic(plain: bool, s: KeySys, a: KeyAction)
    requires Can(plain, s, a) && !Clobbers(s, a)
    ensures var t := Do(plain, s, a);
            || (t.done == s.done && t.value == s.value)
            || (&& |t.done| == |s.done| + 1 && s.done <= t.done
                && Atomic(s.value, t.done[|s.done|].op) == (t.value, t.done[|s.done|].ok))
  {}

  lemma StepKeepsKey(start: Option<string>, s: KeySys, a: KeyAction)
    requires KeyOk(start, s) && Can(false, s, a)
    ensures KeyOk(start, Do(false, s, a)) && !Clobbers(s, a)
  {
    StepKeepsMutex(s, a);
    StepKeepsCallers(false, s, a);
    HistoryNext(false, start, s, a);
  }

  lemma HistoryNext(plain: bool, start: Option<string>, s: KeySys, a: KeyAction)
    requires Can(plain, s, a) && !Clobbers(s, a)
    requires AtomicResults(start, s.done) && AtomicValue(start, s.done) == s.value
    ensures AtomicResults(start, Do(plain, s, a).done) && AtomicValue(start, Do(plain, s, a).done) == Do(plain, s, a).value
  {
    var t := Do(plain, s, a);
    StepIsAtomic(plain, s, a);
    if t.done != s.done {
      var last := t.done[|s.done|];
      AtomicNext(start, s.done, last);
      assert t.done == s.done + [last];
    }
  }

  /** No write of the run finds the key present. */
  predicate NeverClobbers(plain: bool, s: KeySys, actions: seq<KeyAction>) {
    actions == [] ||
    (&& NeverClobbers(plain, s, actions[..|actions| - 1])
     && var t, a := DoAll(plain, s, actions[..|actions| - 1]), actions[|actions| - 1];
        Can(plain, t, a) ==> !Clobbers(t, a))
  }

  /** A history that is not atomic stays so. */
  lemma HistoryStays(plain: bool, start: Option<string>, s: KeySys, a: KeyAction)
    requires Can(plain, s, a) && !AtomicResults(start, s.done)
    ensures !AtomicResults(start, Do(plain, s, a).done)
  {
    var t := Do(plain, s, a);
    if t.done != s.done {
      assert t.done[..|t.done| - 1] == s.done;
    }
  }

  /**
    Run by run: the values of a run, and the results its callers are told, are those of a
    sequence of atomic operations if and only if no write of a PutIfAbsent finds the key
    present.
   */
  lemma {:induction false} AtomicRunIff(plain: bool, s: KeySys, actions: seq<KeyAction>)
    requires InitKey(s)
    ensures AtomicResults(s.value, DoAll(plain, s, actions).done) <==> NeverClobbers(plain, s, actions)
    ensures CallersOk(DoAll(plain, s, actions))
    ensures AtomicRun(plain, s, actions) <==> NeverClobbers(plain, s, actions)
  {
    if actions != [] {
      var init, a := actions[..|actions| - 1], actions[|actions| - 1];
      AtomicRunIff(plain, s, init);
      var t := DoAll(plain, s, init);
      if Can(plain, t, a) {
        StepKeepsCallers(plain, t, a);
        if !NeverClobbers(plain, s, init) {
          HistoryStays(plain, s.value, t, a);
        } else if Clobbers(t, a) {
          AtomicNext(s.value, t.done, Entry(Create(t.clients[a.pid].value), true, Some(a.pid)));
        } else {
          HistoryNext(plain, s.value, t, a);
        }
      }
    }
  }

  lemma {:induction false} RunKeepsKey(s: KeySys, actions: seq<KeyAction>)
    requires InitKey(s)
    ensures KeyOk(s.value, DoAll(false, s, actions))
  {
    if actions != [] {
      var init := actions[..|actions| - 1];
      RunKeepsKey(s, init);
      if Can(false, DoAll(false, s, init), actions[|actions| - 1]) {
        StepKeepsKey(s.value, DoAll(false, s, init), actions[|actions| - 1]);
      }
    }
  }

  /**
    PutIfAbsent refines the atomic operation in every run exactly when nobody writes the key
    unconditionally: then every interleaving gives the values and results of a sequence of
    atomic operations.
   */
  lemma PutIfAbsentAtomicIff(plain: bool)
    ensures (forall s: KeySys, actions: seq<KeyAction> | InitKey(s) :: AtomicRun(plain, s, actions)) <==> !plain
  {
    if plain {
      var s := KeySys(None, None, map[], []);
      var actions := Overwritten("a", "b");
      OverwriteHappens("a", "b");
      assert !AtomicRun(plain, s, actions);
    } else {
      forall s: KeySys, actions: seq<KeyAction> | InitKey(s) ensures AtomicRun(plain, s, actions) {
        RunKeepsKey(s, actions);
      }
    }
  }

  ghost predicate AtomicRun(plain: bool, s: KeySys, actions: seq<KeyAction>) {
    var t := DoAll(plain, s, actions);
    AtomicResults(s.value, t.done) && AtomicValue(s.value, t.done) == t.value && CallersOk(t)
  }

  /** An unconditional write between the read and the write of a PutIfAbsent. */
  function Overwritten(v: string, w: string): seq<KeyAction> {
    [Start(0, v), TakeMutex(0), Read(0, false), PlainPut(w), Write(0, false, true)]
  }

  lemma DoAllNext(plain: bool, s: KeySys, actions: seq<KeyAction>, a: KeyAction)
    requires Can(plain, DoAll(plain, s, actions), a)
    ensures DoAll(plain, s, actions + [a]) == Do(plain, DoAll(plain, s, actions), a)
  {
    assert (actions + [a])[..|actions + [a]| - 1] == actions;
  }

  /** It is lost, although PutIfAbsent reports that the key was absent. */
  lemma OverwriteHappens(v: string, w: string)
    ensures var s := KeySys(None, None, map[], []);
            var t := DoAll(true, s, Overwritten(v, w));
            && Lookup(t.clients, 0) == Some(Leaving(v, true, false)) && t.value == Some(v)
            && !AtomicResults(None, t.done)
  {
    var s := KeySys(None, None, map[], []);
    var as1 := [Start(0, v)];
    var as2 := as1 + [TakeMutex(0)];
    var as3 := as2 + [Read(0, false)];
    var as4 := as3 + [PlainPut(w)];
    assert [] + [Start(0, v)] == as1;
    DoAllNext(true, s, [], Start(0, v));
    DoAllNext(true, s, as1, TakeMutex(0));
    DoAllNext(true, s, as2, Read(0, false));
    DoAllNext(true, s, as3, PlainPut(w));
    DoAllNext(true, s, as4, Write(0, false, true));
    assert as4 + [Write(0, false, true)] == Overwritten(v, w);
    AtomicNext(None, [], Entry(Overwrite(w), true, None));
    AtomicNext(None, [] + [Entry(Overwrite(w), true, None)], Entry(Create(v), true, Some(0)));
  }

  /** A call works with the value it was given. */
  lemma {:induction false} OwnValue(plain: bool, s: KeySys, actions: seq<KeyAction>, pid: nat)
    requires s.clients == map[] && pid in DoAll(plain, s, actions).clients
    ensures Start(pid, DoAll(plain, s, actions).clients[pid].value) in actions
  {
    if actions != [] {
      var init := actions[..|actions| - 1];
      if pid in DoAll(plain, s, init).clients {
        OwnValue(plain, s, init, pid);
      }
    }
  }

  /** The steps of one call when nothing fails. */
  function OneCall(pid: nat, value: string, absent: bool): seq<KeyAction> {
    [Start(pid, value), TakeMutex(pid), Read(pid, false)] + (if absent then [Write(pid, false, true)] else []) + [Leave(pid)]
  }

  /** Alone and without errors a call reports whether the key was absent, writes exactly then, and frees the mutex. */
  lemma OneCallAlone(s: KeySys, pid: nat, value: string)
    requires s.mutex == None && pid !in s.clients
    ensures var t := DoAll(false, s, OneCall(pid, value, s.value.None?));
            && Lookup(t.clients, pid) == Some(Returned(value, s.value.None?, false))
            && t.mutex == None && t.value == if s.value.None? then Some(value) else s.value
  {
    var as1 := [Start(pid, value)];
    var as2 := as1 + [TakeMutex(pid)];
    var as3 := as2 + [Read(pid, false)];
    assert [] + [Start(pid, value)] == as1;
    DoAllNext(false, s, [], Start(pid, value));
    DoAllNext(false, s, as1, TakeMutex(pid));
    DoAllNext(false, s, as2, Read(pid, false));
    if s.value.None? {
      var as4 := as3 + [Write(pid, false, true)];
      DoAllNext(false, s, as3, Write(pid, false, true));
      DoAllNext(false, s, as4, Leave(pid));
      assert as4 + [Leave(pid)] == OneCall(pid, value, true);
    } else {
      DoAllNext(false, s, as3, Leave(pid));
      assert as3 + [Leave(pid)] == OneCall(pid, value, false);
    }
  }

  /** The key etcd's mutex uses for a lock key, here with any lease, is no channel's lock key. */
  lemma MutexKeyIsNoLockKey(id: int, id': int, lease: string)
    ensures ChannelKeyString(id) + "/" + lease != ChannelKeyString(id')
  {
    var s, t := ChannelKeyString(id) + "/" + lease, ChannelKeyString(id');
    assert s[|ChannelKeyString(id)|] == '/';
    assert '/' !in t;
  }
}
