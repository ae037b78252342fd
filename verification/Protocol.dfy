/**
  The daemon as a system of steps. Requests served by any number of replicas share the
  lock key, the channel record and the payment records of one channel. Each step of a
  request is one storage or blockchain operation, and steps interleave in any order.
  An operation may report an error, with or without having taken effect; a replica may
  crash at any point. The keys of other channels are other keys (see Keys and Storage),
  so the system of all channels is the product of systems like this one.
 */
module Protocol {
  import opened Wrappers
  import opened Encoding
  import opened Records
  import opened Ledger

  const LOCKED := "locked"
  const UNLOCKED := "unlocked"

  /** Everything the requests on one channel share: the blockchain and the store. */
  datatype Shared = Shared(
    chain: Option<ChainChannel>,
    block: nat,
    lock: Option<string>,
    stored: Option<ChannelData>,
    payments: map<int, Payment>
  )

  /** What an operation does to its caller: success, or an error before or after the effect. */
  datatype Fault = Fine | FailsBefore | FailsAfter

  /** How a service call ends; Vanished is panic(nil) or runtime.Goexit, which leave nothing to recover. */
  datatype HandlerResult = Completed | ReturnedError | Panicked | Vanished

  /** What the deferred completion takes for success: nothing was recovered and there is no error. */
  predicate LooksDone(handled: HandlerResult) {
    handled.Completed? || handled.Vanished?
  }

  /** What the environment decides in one step. */
  datatype Choice = Choice(fault: Fault, handled: HandlerResult)

  const FINE := Choice(Fine, Completed)

  /** No operation reported an error, and the service call, if there was one, completed. */
  predicate Smooth(cs: seq<Choice>) {
    forall c | c in cs :: c == FINE
  }

  predicate NoFaults(cs: seq<Choice>) {
    forall c | c in cs :: c.fault == Fine
  }

  datatype Job = Pay(payment: Payment) | Claim

  datatype Outcome =
    | Served
    | Refused(code: PaymentErrorCode)
    | ServiceFailed
    | ServicePanicked
    | ClaimStarted(payment: Payment)
    | ClaimRefused

  /** A validated payment: the channel it was checked against and what that was computed from. */
  datatype Tx = Tx(
    payment: Payment,
    before: Option<ChannelData>,
    read: ChainRead,
    channel: ChannelData,
    block: nat
  )

  /** The next operation of a request. */
  datatype Proc =
    // Locker.Lock
    | LockGet(job: Job)
    | LockSet(job: Job, seen: Option<string>)
    // StartPaymentTransaction
    | ReadStored(payment: Payment)
    | ReadChain(payment: Payment, before: Option<ChannelData>)
    | Check(payment: Payment, before: Option<ChannelData>, read: ChainRead, channel: ChannelData)
    // the income check, the service call, Commit
    | PriceCheck(tx: Tx)
    | Call(tx: Tx)
    | Commit(tx: Tx)
    // StartClaim
    | ClaimRead
    | ClaimWrite(channel: ChannelData)
    | ClaimRecord(payment: Payment)
    // Lock.Unlock, and then the outcome
    | Release(outcome: Outcome)
    | Done(outcome: Outcome)
    // removeClaimedPayments: nonces still to look at; a payment about to be deleted
    | Reconcile(todo: seq<int>)
    | Finish(nonce: int, todo: seq<int>)
    // the operator's unlock command
    | OperatorGet
    | OperatorDelete
    | Stopped

  function LockError(job: Job): Outcome {
    if job.Pay? then Refused(Internal) else ClaimRefused
  }

  function LockBusy(job: Job): Outcome {
    if job.Pay? then Refused(FailedPrecondition) else ClaimRefused
  }

  /** CompareAndSwap on the lock key; a missing key is never equal. */
  function Swap(lock: Option<string>, prev: string, next: string, fault: Fault): Option<string> {
    if lock == Some(prev) && fault != FailsBefore then Some(next) else lock
  }

  function ReadOf(sh: Shared, fault: Fault): ChainRead {
    if fault != Fine then Unreadable
    else if sh.chain.None? then Missing
    else Found(sh.chain.value)
  }

  function LockGetStep(sh: Shared, job: Job, fault: Fault): Proc {
    if fault != Fine then Done(LockError(job))
    else if sh.lock == Some(LOCKED) then Done(LockBusy(job))
    else LockSet(job, sh.lock)
  }

  function LockSetStep(sh: Shared, job: Job, seen: Option<string>, fault: Fault): (Shared, Proc) {
    var swaps := if seen.Some? then sh.lock == Some(UNLOCKED) else sh.lock.None?;
    var lock' := if swaps && fault != FailsBefore then Some(LOCKED) else sh.lock;
    var next :=
      if fault != Fine then Done(LockError(job))
      else if !swaps then Done(LockBusy(job))
      else if job.Pay? then ReadStored(job.payment)
      else ClaimRead;
    (sh.(lock := lock'), next)
  }

  function ReadChainStep(cfg: Config, id: int, sh: Shared, payment: Payment, before: Option<ChannelData>, fault: Fault): Proc {
    var read := ReadOf(sh, fault);
    match Resolve(cfg, id, before, read)
    case Failure(_) => Release(Refused(Internal))
    case Success(None) => Release(Refused(Unauthenticated))
    case Success(Some(channel)) => Check(payment, before, read, channel)
  }

  function CheckStep(cfg: Config, sh: Shared, p: Proc, fault: Fault): Proc
    requires p.Check?
  {
    match Validate(cfg, p.payment, p.channel, if fault == Fine then Some(sh.block) else None)
    case Failure(code) => Release(Refused(code))
    case Success(block) => PriceCheck(Tx(p.payment, p.before, p.read, p.channel, block))
  }

  /** The interceptor commits when it sees neither an error nor a recovered panic. */
  function AfterCall(tx: Tx, handled: HandlerResult): Proc {
    match handled
    case Completed => Commit(tx)
    case Vanished => Commit(tx)
    case ReturnedError => Release(ServiceFailed)
    case Panicked => Release(ServicePanicked)
  }

  /** A pass ends at a channel that is not found, not readable, or pays somebody else. */
  function ReconcileStep(cfg: Config, id: int, sh: Shared, todo: seq<int>, fault: Fault): Proc {
    if todo == [] then Stopped
    else match FromBlockchain(cfg, id, ReadOf(sh, fault))
      case Success(Some(channel)) => if channel.nonce > todo[0] then Finish(todo[0], todo[1..]) else Reconcile(todo[1..])
      case _ => Stopped
  }

  /** One step of a request: what it does to the shared state and where it goes next. */
  function ProcStep(cfg: Config, id: int, sh: Shared, p: Proc, c: Choice): (Shared, Proc) {
    var happens := c.fault != FailsBefore;
    match p
    case LockGet(job) => (sh, LockGetStep(sh, job, c.fault))
    case LockSet(job, seen) => LockSetStep(sh, job, seen, c.fault)
    case ReadStored(payment) =>
      (sh, if c.fault != Fine then Release(Refused(Internal)) else ReadChain(payment, sh.stored))
    case ReadChain(payment, before) => (sh, ReadChainStep(cfg, id, sh, payment, before, c.fault))
    case Check(_, _, _, _) => (sh, CheckStep(cfg, sh, p, c.fault))
    case PriceCheck(tx) =>
      (sh, if IncomeIsPrice(cfg, tx.payment, tx.channel) then Call(tx) else Release(Refused(Unauthenticated)))
    case Call(tx) => (sh, AfterCall(tx, c.handled))
    case Commit(tx) =>
      (if happens then sh.(stored := Some(Paid(tx.channel, tx.payment))) else sh,
       Release(if c.fault == Fine then Served else Refused(Internal)))
    case ClaimRead =>
      (sh, if c.fault != Fine || sh.stored.None? then Release(ClaimRefused) else ClaimWrite(sh.stored.value))
    case ClaimWrite(channel) =>
      (if happens then sh.(stored := Some(IncrementNonce(channel))) else sh,
       if c.fault == Fine then ClaimRecord(ClaimOf(channel)) else Release(ClaimRefused))
    case ClaimRecord(payment) =>
      (if happens then sh.(payments := sh.payments[payment.channelNonce := payment]) else sh,
       Release(if c.fault == Fine then ClaimStarted(payment) else ClaimRefused))
    case Release(outcome) => (sh.(lock := Swap(sh.lock, LOCKED, UNLOCKED, c.fault)), Done(outcome))
    case Done(_) => (sh, p)
    case Reconcile(todo) => (sh, ReconcileStep(cfg, id, sh, todo, c.fault))
    case Finish(nonce, todo) =>
      (if happens then sh.(payments := sh.payments - {nonce}) else sh,
       if c.fault == Fine then Reconcile(todo) else Stopped)
    case OperatorGet => (sh, if c.fault != Fine || sh.lock.None? then Stopped else OperatorDelete)
    case OperatorDelete => (if happens then sh.(lock := None) else sh, Stopped)
    case Stopped => (sh, p)
  }

  /** The operation a step completes, if it writes the channel record. */
  function Logged(p: Proc, c: Choice): Option<Op> {
    if c.fault == FailsBefore then None
    else match p
      case Commit(tx) => Some(PayOp(tx.payment, tx.read, tx.block))
      case ClaimWrite(_) => Some(ClaimOp)
      case _ => None
  }

  // ------------------------------------------------------------- the system

  /**
    payer is the signer the channel was opened with. The other fields after procs are
    history, read by no step of a request: the operations that wrote the channel record in
    order, the claims whose payment record was written and those reported as started, and
    how many times the sender took back the deposit.
   */
  datatype Sys = Sys(
    payer: Address,
    sh: Shared,
    procs: map<nat, Proc>,
    log: seq<Op>,
    recorded: set<int>,
    confirmed: set<int>,
    timeouts: nat
  )

  datatype Action =
    | Spawn(pid: nat, start: Proc)
    | Run(pid: nat, choice: Choice)
    | Crash(pid: nat)
    // the blockchain
    | OpenChannel(channel: ChainChannel)
    | AddFunds(amount: nat)
    | Extend(expiration: nat)
    | Collect(amount: nat)
    | Timeout(newExpiration: nat)
    | Tick(blocks: nat)

  /** A request may start at any time; a reconciliation pass starts with a list of stored payments. */
  predicate Startable(cfg: Config, id: int, s: Sys, p: Proc) {
    match p
    case LockGet(Pay(payment)) => payment.mpe == cfg.mpe && payment.channelID == id
    case LockGet(Claim) => true
    case Reconcile(todo) => forall n | n in todo :: n in s.sh.payments
    case OperatorGet => true
    case _ => false
  }

  function ClaimsOf(cfg: Config, id: int, s: Sys): map<int, Payment> {
    Replay(cfg, id, s.log).claims
  }

  /**
    When an action can happen. The contract is not part of this model: a claim needs the
    channel's current nonce and a payment some StartClaim produced, collects at most its
    amount and sends nothing back; the sender takes the deposit back only once the block
    has reached the expiration.
   */
  predicate Enabled(cfg: Config, id: int, s: Sys, a: Action) {
    match a
    case Spawn(pid, start) => pid !in s.procs && Startable(cfg, id, s, start)
    case Run(pid, _) => pid in s.procs
    case Crash(pid) => pid in s.procs
    case OpenChannel(ch) => s.sh.chain.None? && ch.signer == s.payer
    case AddFunds(_) => s.sh.chain.Some?
    case Extend(x) => s.sh.chain.Some? && x >= s.sh.chain.value.expiration
    case Collect(amount) =>
      && s.sh.chain.Some?
      && s.sh.chain.value.nonce in ClaimsOf(cfg, id, s)
      && amount <= ClaimsOf(cfg, id, s)[s.sh.chain.value.nonce].amount
      && amount <= s.sh.chain.value.value
    case Timeout(_) => s.sh.chain.Some? && s.sh.block >= s.sh.chain.value.expiration
    case Tick(_) => true
  }

  function RunStep(cfg: Config, id: int, s: Sys, pid: nat, c: Choice): Sys
    requires pid in s.procs
  {
    var p := s.procs[pid];
    var (sh', p') := ProcStep(cfg, id, s.sh, p, c);
    s.(sh := sh',
       procs := s.procs[pid := p'],
       log := if Logged(p, c).Some? then s.log + [Logged(p, c).value] else s.log,
       recorded := if p.ClaimRecord? && c.fault != FailsBefore then s.recorded + {p.payment.channelNonce} else s.recorded,
       confirmed := if p.ClaimRecord? && c.fault == Fine then s.confirmed + {p.payment.channelNonce} else s.confirmed)
  }

  function ChainStep(sh: Shared, a: Action): Shared
    requires a.OpenChannel? || a.Tick? || (sh.chain.Some? && !a.Spawn? && !a.Run? && !a.Crash?)
    requires a.Collect? ==> a.amount <= sh.chain.value.value
  {
    match a
    case OpenChannel(ch) => sh.(chain := Some(ch))
    case AddFunds(amount) => sh.(chain := Some(sh.chain.value.(value := sh.chain.value.value + amount)))
    case Extend(x) => sh.(chain := Some(sh.chain.value.(expiration := x)))
    case Collect(amount) =>
      sh.(chain := Some(sh.chain.value.(value := sh.chain.value.value - amount, nonce := sh.chain.value.nonce + 1)))
    case Timeout(x) =>
      sh.(chain := Some(sh.chain.value.(value := 0, nonce := sh.chain.value.nonce + 1, expiration := x)))
    case Tick(blocks) => sh.(block := sh.block + blocks)
  }

  function Next(cfg: Config, id: int, s: Sys, a: Action): Sys
    requires Enabled(cfg, id, s, a)
  {
    match a
    case Spawn(pid, start) => s.(procs := s.procs[pid := start])
    case Run(pid, c) => RunStep(cfg, id, s, pid, c)
    case Crash(pid) => s.(procs := s.procs - {pid})
    case Timeout(_) => s.(sh := ChainStep(s.sh, a), timeouts := s.timeouts + 1)
    case _ => s.(sh := ChainStep(s.sh, a))
  }

  /** The store starts empty; the channel may or may not be open already. */
  predicate Init(s: Sys) {
    && s.sh.lock == None && s.sh.stored == None && s.sh.payments == map[]
    && s.procs == map[] && s.log == [] && s.recorded == {} && s.confirmed == {} && s.timeouts == 0
    && (s.sh.chain.Some? ==> s.sh.chain.value.signer == s.payer)
  }

  // ---------------------------------------------------------------- the lock

  predicate LockFree(sh: Shared) {
    sh.lock == None || sh.lock == Some(UNLOCKED)
  }

  /** Between acquiring the lock and the end of Unlock. */
  predicate Holds(p: Proc) {
    || p.ReadStored? || p.ReadChain? || p.Check? || p.PriceCheck? || p.Call? || p.Commit?
    || p.ClaimRead? || p.ClaimWrite? || p.ClaimRecord? || p.Release?
  }

  predicate NobodyHolds(s: Sys) {
    forall pid | pid in s.procs :: !Holds(s.procs[pid])
  }

  /** The operator deletes a lock key only when no live request holds the lock. */
  predicate Prudent(s: Sys, a: Action) {
    a.Run? && a.pid in s.procs && s.procs[a.pid].OperatorDelete? && a.choice.fault != FailsBefore ==> NobodyHolds(s)
  }

  // ---------------------------------------------------- runs of the system

  /** The system after a sequence of actions. */
  function After(cfg: Config, id: int, s: Sys, actions: seq<Action>): Sys {
    if actions == [] then s
    else
      var t := After(cfg, id, s, actions[..|actions| - 1]);
      if Enabled(cfg, id, t, actions[|actions| - 1]) then Next(cfg, id, t, actions[|actions| - 1]) else t
  }

  /** Each action of the sequence is enabled at its turn, and the operator is prudent. */
  predicate Allowed(cfg: Config, id: int, s: Sys, actions: seq<Action>) {
    actions == [] ||
    (&& Allowed(cfg, id, s, actions[..|actions| - 1])
     && var t := After(cfg, id, s, actions[..|actions| - 1]);
        Enabled(cfg, id, t, actions[|actions| - 1]) && Prudent(t, actions[|actions| - 1]))
  }

  lemma AfterNext(cfg: Config, id: int, s: Sys, actions: seq<Action>, a: Action)
    requires Enabled(cfg, id, After(cfg, id, s, actions), a)
    ensures After(cfg, id, s, actions + [a]) == Next(cfg, id, After(cfg, id, s, actions), a)
    ensures Allowed(cfg, id, s, actions) && Prudent(After(cfg, id, s, actions), a) ==> Allowed(cfg, id, s, actions + [a])
  {
    assert (actions + [a])[..|actions + [a]| - 1] == actions;
  }

  lemma {:induction false} AfterAppend(cfg: Config, id: int, s: Sys, actions: seq<Action>, more: seq<Action>)
    ensures var t := After(cfg, id, s, actions);
            && After(cfg, id, s, actions + more) == After(cfg, id, t, more)
            && (Allowed(cfg, id, s, actions) && Allowed(cfg, id, t, more) ==> Allowed(cfg, id, s, actions + more))
  {
    if more == [] {
      assert actions + more == actions;
    } else {
      var init := more[..|more| - 1];
      assert (actions + more)[..|actions + more| - 1] == actions + init;
      AfterAppend(cfg, id, s, actions, init);
    }
  }

  lemma {:induction false} AllowedPrefix(cfg: Config, id: int, s: Sys, actions: seq<Action>, i: nat)
    requires i <= |actions| && Allowed(cfg, id, s, actions)
    ensures Allowed(cfg, id, s, actions[..i])
    ensures Allowed(cfg, id, After(cfg, id, s, actions[..i]), actions[i..])
    ensures After(cfg, id, After(cfg, id, s, actions[..i]), actions[i..]) == After(cfg, id, s, actions)
  {
    if i == |actions| {
      assert actions[..i] == actions && actions[i..] == [];
    } else {
      var init := actions[..|actions| - 1];
      AllowedPrefix(cfg, id, s, init, i);
      assert init[..i] == actions[..i];
      assert actions[i..][..|actions[i..]| - 1] == init[i..];
    }
  }

  // ----------------------------------------- one request without interference

  /** A request run alone: the shared state and its position after some of its steps. */
  function RunAlone(cfg: Config, id: int, sh: Shared, p: Proc, cs: seq<Choice>): (Shared, Proc) {
    if cs == [] then (sh, p)
    else
      var (sh', p') := RunAlone(cfg, id, sh, p, cs[..|cs| - 1]);
      ProcStep(cfg, id, sh', p', cs[|cs| - 1])
  }

  lemma RunAloneNext(cfg: Config, id: int, sh: Shared, p: Proc, cs: seq<Choice>, c: Choice)
    ensures var (sh', p') := RunAlone(cfg, id, sh, p, cs);
            RunAlone(cfg, id, sh, p, cs + [c]) == ProcStep(cfg, id, sh', p', c)
  {
    assert (cs + [c])[..|cs + [c]| - 1] == cs;
  }

  lemma {:induction false} RunAloneAppend(cfg: Config, id: int, sh: Shared, p: Proc, cs: seq<Choice>, ds: seq<Choice>)
    ensures var (sh', p') := RunAlone(cfg, id, sh, p, cs);
            RunAlone(cfg, id, sh, p, cs + ds) == RunAlone(cfg, id, sh', p', ds)
  {
    if ds == [] {
      assert cs + ds == cs;
    } else {
      var init := ds[..|ds| - 1];
      assert (cs + ds)[..|cs + ds| - 1] == cs + init;
      RunAloneAppend(cfg, id, sh, p, cs, init);
    }
  }
}
