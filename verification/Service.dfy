/**
  The payment channel service as the code runs it: lock, read, decide, write, unlock, on
  storage that may report errors. Every method is proved to make exactly the steps of a
  request of Protocol: it returns, as a ghost, the choices of the environment, and the
  state it leaves is the one RunAlone gives. The step system then says what happens when
  the steps of several requests interleave.
 */
module Service {
  import opened Wrappers
  import opened Encoding
  import opened Keys
  import opened Records
  import opened Protocol
  import opened Storage
  import opened Disks

  /** What happens to one operation; nothing does to one of a reliable storage or node. */
  method AnyFault(reliable: bool) returns (fault: Fault)
    ensures reliable ==> fault == Fine
  {
    fault := *;
    if reliable {
      fault := Fine;
    }
  }

  /** One namespace of the shared storage; unless it is reliable any operation may report an error. */
  class Store<K(==), V(==)> {
    const reliable: bool
    var data: map<K, V>

    constructor (reliable: bool)
      ensures data == map[] && this.reliable == reliable
    {
      this.reliable, data := reliable, map[];
    }

    method Get(key: K) returns (value: Option<V>, err: bool, ghost fault: Fault)
      ensures (err <==> fault != Fine) && (reliable ==> !err)
      ensures !err ==> value == Lookup(data, key)
    {
      var f := AnyFault(reliable);
      fault, err := f, f != Fine;
      value := if err then None else Lookup(data, key);
    }

    method Put(key: K, value: V) returns (err: bool, ghost fault: Fault)
      modifies this
      ensures (err <==> fault != Fine) && (reliable ==> !err)
      ensures data == if fault == FailsBefore then old(data) else old(data)[key := value]
    {
      var f := AnyFault(reliable);
      fault, err := f, f != Fine;
      if f != FailsBefore {
        data := data[key := value];
      }
    }

    method PutIfAbsent(key: K, value: V) returns (ok: bool, err: bool, ghost fault: Fault)
      modifies this
      ensures (err <==> fault != Fine) && (reliable ==> !err)
      ensures !err ==> (ok <==> key !in old(data))
      ensures data == if fault == FailsBefore || key in old(data) then old(data) else old(data)[key := value]
    {
      var f := AnyFault(reliable);
      fault, err, ok := f, f != Fine, key !in data;
      if f != FailsBefore && ok {
        data := data[key := value];
      }
    }

    method CompareAndSwap(key: K, prev: V, next: V) returns (ok: bool, err: bool, ghost fault: Fault)
      modifies this
      ensures (err <==> fault != Fine) && (reliable ==> !err)
      ensures !err ==> (ok <==> Lookup(old(data), key) == Some(prev))
      ensures data == if fault == FailsBefore || Lookup(old(data), key) != Some(prev) then old(data)
                      else old(data)[key := next]
    {
      var f := AnyFault(reliable);
      fault, err, ok := f, f != Fine, Lookup(data, key) == Some(prev);
      if f != FailsBefore && ok {
        data := data[key := next];
      }
    }

    method Delete(key: K) returns (err: bool, ghost fault: Fault)
      modifies this
      ensures (err <==> fault != Fine) && (reliable ==> !err)
      ensures data == if fault == FailsBefore then old(data) else old(data) - {key}
    {
      var f := AnyFault(reliable);
      fault, err := f, f != Fine;
      if f != FailsBefore {
        data := data - {key};
      }
    }

    /** Every record once, in an order the storage chooses. */
    method GetAll() returns (values: seq<V>, err: bool, ghost keys: seq<K>)
      ensures reliable ==> !err
      ensures !err ==> Enumerates(data, keys, values)
    {
      var f := AnyFault(reliable);
      values, err, keys := [], f != Fine, [];
      if err {
        return;
      }
      var rest := data;
      while rest.Keys != {}
        invariant forall k | k in rest :: k in data && data[k] == rest[k]
        invariant forall k | k in data :: k in rest || k in keys
        invariant forall k | k in rest :: k !in keys
        invariant |keys| == |values|
        invariant forall i | 0 <= i < |keys| :: keys[i] in data && data[keys[i]] == values[i]
        invariant forall i, j | 0 <= i < j < |keys| :: keys[i] != keys[j]
        decreases |rest.Keys|
      {
        var k :| k in rest.Keys;
        values, keys := values + [rest[k]], keys + [k];
        var less := rest - {k};
        assert less.Keys == rest.Keys - {k};
        rest := less;
      }
    }
  }

  /** The blockchain node: the open channels and the current block. */
  class Blockchain {
    const reliable: bool
    var channels: map<int, ChainChannel>
    var block: nat

    constructor (reliable: bool)
      ensures channels == map[] && block == 0 && this.reliable == reliable
    {
      this.reliable, channels, block := reliable, map[], 0;
    }

    method ReadChannel(id: int) returns (read: ChainRead, ghost fault: Fault)
      ensures reliable ==> fault == Fine
      ensures read == (if fault != Fine then Unreadable
                       else if id !in channels then Missing else Found(channels[id]))
    {
      var f := AnyFault(reliable);
      fault := f;
      read := if f != Fine then Unreadable else if id !in channels then Missing else Found(channels[id]);
    }

    method CurrentBlock() returns (current: Option<nat>, ghost fault: Fault)
      ensures reliable ==> fault == Fine
      ensures current == if fault == Fine then Some(block) else None
    {
      var f := AnyFault(reliable);
      fault := f;
      current := if f == Fine then Some(block) else None;
    }
  }

  // ------------------------------------------------------------------ locks

  class Lock {
    const name: string
    const storage: Store<string, string>
    ghost var unlocks: nat

    constructor (name: string, storage: Store<string, string>)
      ensures this.name == name && this.storage == storage && unlocks == 0
    {
      this.name, this.storage, unlocks := name, storage, 0;
    }

    /** Frees the lock; an error or a lock that is not held is only logged by the callers. */
    method Unlock() returns (err: bool, ghost fault: Fault)
      modifies this`unlocks, storage
      ensures (err <==> fault != Fine) && (storage.reliable ==> !err)
      ensures unlocks == old(unlocks) + 1
      ensures Lookup(storage.data, name) == Swap(Lookup(old(storage.data), name), LOCKED, UNLOCKED, fault)
      ensures forall other | other != name :: Lookup(storage.data, other) == Lookup(old(storage.data), other)
    {
      unlocks := unlocks + 1;
      var ok;
      ok, err, fault := storage.CompareAndSwap(name, LOCKED, UNLOCKED);
    }
  }

  class Locker {
    const storage: Store<string, string>

    constructor (storage: Store<string, string>)
      ensures this.storage == storage
    {
      this.storage := storage;
    }

    /**
      A handle means the key was free and now reads "locked"; without a handle and without
      an error nothing changed; after an error the key is as it was or "locked".
     */
    method Lock(name: string, ghost cfg: Config, ghost id: int, ghost sh: Shared, ghost job: Job)
      returns (lock: Lock?, err: bool, ghost steps: seq<Choice>)
      requires sh.lock == Lookup(storage.data, name)
      modifies storage
      ensures lock != null ==> !err && fresh(lock) && lock.name == name && lock.storage == storage && lock.unlocks == 0
      ensures lock != null ==> Lookup(old(storage.data), name) != Some(LOCKED)
                               && storage.data == old(storage.data)[name := LOCKED]
      ensures lock == null && !err ==> storage.data == old(storage.data)
      ensures storage.reliable ==> !err && Smooth(steps)
      ensures storage.reliable && Lookup(old(storage.data), name) in {None, Some(UNLOCKED)} ==> lock != null
      ensures storage.data == old(storage.data) || storage.data == old(storage.data)[name := LOCKED]
      ensures RunAlone(cfg, id, sh, LockGet(job), steps) ==
              (sh.(lock := Lookup(storage.data, name)),
               if err then Done(LockError(job)) else if lock == null then Done(LockBusy(job))
               else if job.Pay? then ReadStored(job.payment) else ClaimRead)
    {
      steps, lock, err := [], null, false;
      var value, ok;
      ghost var fault;
      value, err, fault := storage.Get(name);
      RunAloneNext(cfg, id, sh, LockGet(job), steps, Choice(fault, Completed));
      steps := steps + [Choice(fault, Completed)];
      assert sh.(lock := Lookup(storage.data, name)) == sh;
      if err {
        return;
      }
      if value.Some? {
        if value.value == LOCKED {
          return;
        }
        ok, err, fault := storage.CompareAndSwap(name, UNLOCKED, LOCKED);
      } else {
        ok, err, fault := storage.PutIfAbsent(name, LOCKED);
      }
      RunAloneNext(cfg, id, sh, LockGet(job), steps, Choice(fault, Completed));
      steps := steps + [Choice(fault, Completed)];
      if err || !ok {
        return;
      }
      lock := new Lock(name, storage);
    }
  }

  // ---------------------------------------------------------- transactions

  /** The channels other than id, in all three namespaces, are as they were. */
  ghost predicate SameElsewhere(id: int, records: map<int, ChannelData>, records': map<int, ChannelData>,
                                payments: map<string, Payment>, payments': map<string, Payment>,
                                locks: map<string, string>, locks': map<string, string>) {
    && (forall other | other != id :: Lookup(records', other) == Lookup(records, other))
    && (forall other, n | other != id :: Lookup(payments', PaymentID(other, n)) == Lookup(payments, PaymentID(other, n)))
    && (forall name | name != ChannelKeyString(id) :: Lookup(locks', name) == Lookup(locks, name))
  }

  /**
    What a started claim does to the channel records: the authorised amount, with its nonce
    and signature, is now the claim's, and the record goes on at the next nonce with the rest.
   */
  ghost predicate Moved(id: int, records: map<int, ChannelData>, records': map<int, ChannelData>, claim: Payment) {
    && id in records && id in records'
    && var r, r' := records[id], records'[id];
       && records' == records[id := r']
       && claim.channelID == r.channelID && claim.channelNonce == r.nonce
       && claim.amount == r.authorizedAmount && claim.signature == r.signature
       && r'.nonce == r.nonce + 1 && r'.fullAmount + claim.amount == r.fullAmount
       && r'.authorizedAmount == 0 && r'.signature == None
       && r'.expiration == r.expiration && r'.signer == r.signer
  }

  /** The update StartClaim applies to its copy of the record, field by field. */
  method IncrementChannelNonce(channel: ChannelData) returns (next: ChannelData)
    ensures next == IncrementNonce(channel)
  {
    next := channel;
    next := next.(nonce := next.nonce + 1);
    next := next.(fullAmount := next.fullAmount - next.authorizedAmount);
    next := next.(authorizedAmount := 0);
    next := next.(signature := None);
  }

  /** Writing one payment record is seen on its own channel, at its own nonce, and nowhere else. */
  lemma PaymentPutSeen(id: int, payments: map<int, Payment>, data: map<string, Payment>, p: Payment)
    requires forall n :: Lookup(payments, n) == Lookup(data, PaymentID(id, n))
    ensures forall n :: Lookup(payments[p.channelNonce := p], n) == Lookup(data[PaymentID(id, p.channelNonce) := p], PaymentID(id, n))
    ensures forall other, n | other != id ::
              Lookup(data[PaymentID(id, p.channelNonce) := p], PaymentID(other, n)) == Lookup(data, PaymentID(other, n))
  {
    PaymentIDUnique(id, p.channelNonce);
  }

  /** The channel as read now without errors, if the payment passes its validation. */
  function Validated(cfg: Config, sh: Shared, payment: Payment): Option<ChannelData> {
    match Resolve(cfg, payment.channelID, sh.stored, ReadOf(sh, Fine))
    case Success(Some(m)) => if Validate(cfg, payment, m, Some(sh.block)).Success? then Some(m) else None
    case _ => None
  }

  class PaymentChannelService {
    const cfg: Config
    const storage: Store<int, ChannelData>
    const paymentStorage: Store<string, Payment>
    const locker: Locker
    const blockchain: Blockchain

    constructor (cfg: Config, storage: Store<int, ChannelData>, paymentStorage: Store<string, Payment>,
                 locker: Locker, blockchain: Blockchain)
      requires (paymentStorage as object) != locker.storage
      requires storage.data == map[] && paymentStorage.data == map[]
      ensures Valid()
      ensures this.cfg == cfg && this.storage == storage && this.paymentStorage == paymentStorage
      ensures this.locker == locker && this.blockchain == blockchain
    {
      this.cfg, this.storage, this.paymentStorage := cfg, storage, paymentStorage;
      this.locker, this.blockchain := locker, blockchain;
    }

    /** The namespaces are separate storages, and every record is stored under its own key. */
    ghost predicate Valid()
      reads storage, paymentStorage
    {
      && (paymentStorage as object) != locker.storage
      && (forall id | id in storage.data :: storage.data[id].channelID == id)
      && forall k | k in paymentStorage.data ::
           k == PaymentID(paymentStorage.data[k].channelID, paymentStorage.data[k].channelNonce)
    }

    /** sh is what the storages and the blockchain hold for channel id. */
    ghost predicate Shows(sh: Shared, id: int)
      reads storage, paymentStorage, locker.storage, blockchain
    {
      Shown(Disk(blockchain.channels, blockchain.block, storage.data, paymentStorage.data, locker.storage.data), sh, id)
    }

    /** The request at start has made these steps, is now at end, and left what the storages hold. */
    ghost predicate Took(id: int, sh: Shared, start: Proc, steps: seq<Choice>, end: Proc)
      reads storage, paymentStorage, locker.storage, blockchain
    {
      RunAlone(cfg, id, sh, start, steps).1 == end && Shows(RunAlone(cfg, id, sh, start, steps).0, id)
    }

    /** Neither the storages nor the blockchain report errors. */
    predicate Reliable() {
      storage.reliable && paymentStorage.reliable && locker.storage.reliable && blockchain.reliable
    }

    twostate predicate OnlyChannel(id: int)
      reads storage, paymentStorage, locker.storage
    {
      SameElsewhere(id, old(storage.data), storage.data, old(paymentStorage.data), paymentStorage.data,
                    old(locker.storage.data), locker.storage.data)
    }

    /** The latest state of the channel, from the shared storage and the blockchain. */
    method PaymentChannel(id: int) returns (channel: Option<ChannelData>, err: bool, ghost get: Fault, ghost chain: Fault)
      ensures Reliable() ==> get == Fine && chain == Fine
      ensures get != Fine ==> err
      ensures !err ==>
                var read := if id in blockchain.channels then Found(blockchain.channels[id]) else Missing;
                || Resolve(cfg, id, Lookup(storage.data, id), read) == Success(channel)
                || Resolve(cfg, id, Lookup(storage.data, id), Unreadable) == Success(channel)
      ensures get == Fine && chain == Fine ==>
                var read := if id in blockchain.channels then Found(blockchain.channels[id]) else Missing;
                (if err then Resolve(cfg, id, Lookup(storage.data, id), read).Failure?
                 else Resolve(cfg, id, Lookup(storage.data, id), read) == Success(channel))
      ensures get == Fine && chain != Fine ==>
                (if err then Resolve(cfg, id, Lookup(storage.data, id), Unreadable).Failure?
                 else Resolve(cfg, id, Lookup(storage.data, id), Unreadable) == Success(channel))
    {
      var stored, read;
      channel, chain := None, Fine;
      stored, err, get := storage.Get(id);
      if err {
        return;
      }
      read, chain := blockchain.ReadChannel(id);
      var found := FromBlockchain(cfg, id, read);
      if stored.None? {
        if found.Success? && found.value.Some? && found.value.value.groupID != cfg.groupID {
          err := true;
          return;
        }
        if found.Success? {
          channel := found.value;
        } else {
          err := true;
        }
        return;
      }
      if found.Failure? || found.value.None? {
        channel := stored;
        return;
      }
      channel := Some(Merge(stored.value, found.value.value));
    }

    /** At the current block the channel is far enough from its expiration, and it has the payment's nonce, signer and amount. */
    ghost predicate Covers(channel: ChannelData, payment: Payment)
      reads blockchain
    {
      && blockchain.block + cfg.threshold < channel.expiration && payment.amount <= channel.fullAmount
      && payment.channelNonce == channel.nonce && SignerOfPayment(cfg, payment) == Some(channel.signer)
    }

    /** Reads the channel and validates the payment; the lock is held by the caller. */
    method CheckPayment(payment: Payment, ghost sh: Shared)
      returns (channel: Option<ChannelData>, code: PaymentErrorCode, ghost tx: Option<Tx>, ghost steps: seq<Choice>)
      requires Valid() && Shows(sh, payment.channelID)
      ensures channel.Some? ==> tx.Some? && tx.value.payment == payment && tx.value.channel == channel.value
      ensures channel.Some? ==> channel.value.channelID == payment.channelID && Covers(channel.value, payment)
      ensures Reliable() ==> Smooth(steps) && channel == Validated(cfg, sh, payment)
      ensures RunAlone(cfg, payment.channelID, sh, ReadStored(payment), steps) ==
              (sh, if channel.Some? && tx.Some? then PriceCheck(tx.value) else Release(Refused(code)))
    {
      ghost var read, more;
      var latest;
      channel, tx := None, None;
      latest, code, read, steps := LatestFor(payment, sh);
      if latest.None? {
        return;
      }
      channel, code, tx, more := CheckLatest(payment, latest.value, sh, read);
      RunAloneAppend(cfg, payment.channelID, sh, ReadStored(payment), steps, more);
      steps := steps + more;
    }

    /** The channel the payment is checked against, if it can be found. */
    method LatestFor(payment: Payment, ghost sh: Shared)
      returns (latest: Option<ChannelData>, code: PaymentErrorCode, ghost read: ChainRead, ghost steps: seq<Choice>)
      requires Valid() && Shows(sh, payment.channelID)
      ensures latest.Some? ==> latest.value.channelID == payment.channelID
      ensures Reliable() ==> Smooth(steps)
      ensures Reliable() ==> match Resolve(cfg, payment.channelID, sh.stored, ReadOf(sh, Fine))
                             case Success(m) => latest == m
                             case Failure(_) => latest == None
      ensures RunAlone(cfg, payment.channelID, sh, ReadStored(payment), steps) ==
              (sh, if latest.Some? then Check(payment, sh.stored, read, latest.value) else Release(Refused(code)))
    {
      var id := payment.channelID;
      ghost var start := ReadStored(payment);
      ghost var get, chain;
      var err;
      code, steps := Internal, [];
      latest, err, get, chain := PaymentChannel(id);
      read := ReadOf(sh, chain);
      RunAloneNext(cfg, id, sh, start, steps, Choice(get, Completed));
      steps := steps + [Choice(get, Completed)];
      if get == Fine {
        RunAloneNext(cfg, id, sh, start, steps, Choice(chain, Completed));
        steps := steps + [Choice(chain, Completed)];
      }
      if err {
        latest := None;
      } else if latest.None? {
        code := Unauthenticated;
      }
    }

    /** The validator's part: it reads the current block. */
    method CheckLatest(payment: Payment, latest: ChannelData, ghost sh: Shared, ghost read: ChainRead)
      returns (channel: Option<ChannelData>, code: PaymentErrorCode, ghost tx: Option<Tx>, ghost steps: seq<Choice>)
      requires Shows(sh, payment.channelID)
      ensures channel.Some? ==> channel.value == latest && Covers(latest, payment)
      ensures channel.Some? ==> tx.Some? && tx.value.payment == payment && tx.value.channel == latest
      ensures blockchain.reliable ==>
                Smooth(steps) && (channel.Some? <==> Validate(cfg, payment, latest, Some(sh.block)).Success?)
      ensures RunAlone(cfg, payment.channelID, sh, Check(payment, sh.stored, read, latest), steps) ==
              (sh, if channel.Some? && tx.Some? then PriceCheck(tx.value) else Release(Refused(code)))
    {
      ghost var fault;
      var current;
      channel, code, tx := None, Internal, None;
      current, fault := blockchain.CurrentBlock();
      RunAloneNext(cfg, payment.channelID, sh, Check(payment, sh.stored, read, latest), [], Choice(fault, Completed));
      steps := [] + [Choice(fault, Completed)];
      ValidateAcceptsIff(cfg, payment, latest, current);
      match Validate(cfg, payment, latest, current) {
        case Failure(e) => code := e;
        case Success(block) =>
          channel := Some(latest);
          tx := Some(Tx(payment, sh.stored, read, latest, block));
      }
    }

    ghost predicate LockFor(lock: Lock, id: int) {
      lock.name == ChannelKeyString(id) && lock.storage == locker.storage
    }

    /** The deferred unlock of every operation: an error is logged and the outcome stands. */
    method Free(lock: Lock, ghost id: int, ghost sh: Shared, ghost outcome: Outcome) returns (ghost steps: seq<Choice>)
      requires Valid() && Shows(sh, id) && LockFor(lock, id)
      modifies lock`unlocks, locker.storage
      ensures Valid() && lock.unlocks == old(lock.unlocks) + 1
      ensures Took(id, sh, Release(outcome), steps, Done(outcome)) && OnlyChannel(id)
      ensures locker.storage.reliable ==> Smooth(steps)
    {
      var err;
      ghost var fault;
      err, fault := lock.Unlock();
      RunAloneNext(cfg, id, sh, Release(outcome), [], Choice(fault, Completed));
      steps := [] + [Choice(fault, Completed)];
    }

    /**
      Validates the payment under the lock of its channel. Unless a transaction is returned
      the lock, if it was acquired, has been released once.
     */
    method StartPaymentTransaction(payment: Payment, ghost sh: Shared)
      returns (transaction: PaymentTransaction?, code: PaymentErrorCode, ghost handle: Lock?, ghost steps: seq<Choice>)
      requires Valid() && Shows(sh, payment.channelID)
      modifies locker.storage
      ensures Valid()
      ensures handle != null ==> fresh(handle) && handle.unlocks == (if transaction == null then 1 else 0)
      ensures transaction != null ==>
                && fresh(transaction) && transaction.Ready() && transaction.service == this
                && transaction.payment == payment && transaction.lock == handle && Covers(transaction.channel, payment)
      ensures Took(payment.channelID, sh, LockGet(Pay(payment)), steps,
                   if transaction != null then PriceCheck(transaction.tx) else Done(Refused(code)))
      ensures OnlyChannel(payment.channelID)
      ensures Reliable() ==> Smooth(steps)
      ensures Reliable() && LockFree(sh) ==>
                (if transaction == null then None else Some(transaction.channel)) == Validated(cfg, sh, payment)
    {
      var id := payment.channelID;
      ghost var start := LockGet(Pay(payment));
      ghost var more;
      var lock, err;
      transaction, code := null, Internal;
      lock, err, steps := locker.Lock(ChannelKeyString(id), cfg, id, sh, Pay(payment));
      handle := lock;
      if err {
        return;
      }
      if lock == null {
        code := FailedPrecondition;
        return;
      }
      transaction, code, more := CheckOrFree(payment, lock, RunAlone(cfg, id, sh, start, steps).0);
      RunAloneAppend(cfg, id, sh, start, steps, more);
      steps := steps + more;
    }

    /** The rest of StartPaymentTransaction; a payment that is refused releases the lock. */
    method CheckOrFree(payment: Payment, lock: Lock, ghost sh: Shared)
      returns (transaction: PaymentTransaction?, code: PaymentErrorCode, ghost steps: seq<Choice>)
      requires Valid() && Shows(sh, payment.channelID) && LockFor(lock, payment.channelID)
      modifies locker.storage, lock`unlocks
      ensures Valid() && lock.unlocks == old(lock.unlocks) + (if transaction == null then 1 else 0)
      ensures transaction != null ==>
                && fresh(transaction) && transaction.Ready() && transaction.service == this
                && transaction.payment == payment && transaction.lock == lock && Covers(transaction.channel, payment)
      ensures Took(payment.channelID, sh, ReadStored(payment), steps,
                   if transaction != null then PriceCheck(transaction.tx) else Done(Refused(code)))
      ensures OnlyChannel(payment.channelID)
      ensures Reliable() ==>
                && Smooth(steps)
                && (if transaction == null then None else Some(transaction.channel)) == Validated(cfg, sh, payment)
    {
      ghost var more, tx;
      var channel;
      transaction := null;
      channel, code, tx, steps := CheckPayment(payment, sh);
      if channel.None? {
        more := Free(lock, payment.channelID, sh, Refused(code));
        RunAloneAppend(cfg, payment.channelID, sh, ReadStored(payment), steps, more);
        steps := steps + more;
        return;
      }
      transaction := new PaymentTransaction(payment, channel.value, this, lock, tx.value);
    }

    /** The payment is stored under its ID. */
    ghost predicate Recorded(payment: Payment)
      reads paymentStorage
    {
      Lookup(paymentStorage.data, PaymentID(payment.channelID, payment.channelNonce)) == Some(payment)
    }

    /** The body of StartClaim; the lock is held by the caller. */
    method RecordClaim(id: int, ghost sh: Shared) returns (claim: Claim?, ghost steps: seq<Choice>)
      requires Valid() && Shows(sh, id)
      modifies storage, paymentStorage
      ensures Valid()
      ensures claim != null ==> fresh(claim) && claim.paymentStorage == paymentStorage
      ensures claim != null ==> Moved(id, old(storage.data), storage.data, claim.payment) && Recorded(claim.payment)
      ensures Took(id, sh, ClaimRead, steps, Release(if claim != null then ClaimStarted(claim.payment) else ClaimRefused))
      ensures OnlyChannel(id)
      ensures Reliable() ==> Smooth(steps) && (claim != null <==> id in old(storage.data))
    {
      ghost var fault;
      var channel, err;
      claim := null;
      channel, err, fault := storage.Get(id);
      RunAloneNext(cfg, id, sh, ClaimRead, [], Choice(fault, Completed));
      steps := [] + [Choice(fault, Completed)];
      if err || channel.None? {
        return;
      }
      ghost var more;
      claim, more := MoveAmount(id, channel.value, sh);
      RunAloneAppend(cfg, id, sh, ClaimRead, steps, more);
      steps := steps + more;
    }

    /** The two writes of StartClaim: the channel first, then the payment taken from the old record. */
    method MoveAmount(id: int, channel: ChannelData, ghost sh: Shared) returns (claim: Claim?, ghost steps: seq<Choice>)
      requires Valid() && Shows(sh, id) && Lookup(storage.data, id) == Some(channel)
      modifies storage, paymentStorage
      ensures Valid()
      ensures claim != null ==> fresh(claim) && claim.paymentStorage == paymentStorage
      ensures claim != null ==> Moved(id, old(storage.data), storage.data, claim.payment) && Recorded(claim.payment)
      ensures Took(id, sh, ClaimWrite(channel), steps, Release(if claim != null then ClaimStarted(claim.payment) else ClaimRefused))
      ensures OnlyChannel(id)
      ensures Reliable() ==> Smooth(steps) && claim != null
    {
      ghost var more;
      var err;
      claim := null;
      err, steps := PutNext(id, channel, sh);
      if err {
        return;
      }
      var payment := ClaimOf(channel);
      err, more := PutPayment(id, payment, RunAlone(cfg, id, sh, ClaimWrite(channel), steps).0);
      RunAloneAppend(cfg, id, sh, ClaimWrite(channel), steps, more);
      steps := steps + more;
      if err {
        return;
      }
      claim := new Claim(paymentStorage, payment);
    }

    /** The first of them. */
    method PutNext(id: int, channel: ChannelData, ghost sh: Shared) returns (err: bool, ghost steps: seq<Choice>)
      requires Valid() && Shows(sh, id) && Lookup(storage.data, id) == Some(channel)
      modifies storage
      ensures Valid()
      ensures !err ==> Moved(id, old(storage.data), storage.data, ClaimOf(channel))
      ensures Took(id, sh, ClaimWrite(channel), steps, if err then Release(ClaimRefused) else ClaimRecord(ClaimOf(channel)))
      ensures OnlyChannel(id)
      ensures storage.reliable ==> Smooth(steps) && !err
    {
      ghost var fault;
      var next := IncrementChannelNonce(channel);
      err, fault := storage.Put(id, next);
      RunAloneNext(cfg, id, sh, ClaimWrite(channel), [], Choice(fault, Completed));
      steps := [] + [Choice(fault, Completed)];
    }

    /** PaymentStorage.Put: payments are kept under their own ID. */
    method PutPayment(id: int, payment: Payment, ghost sh: Shared) returns (err: bool, ghost steps: seq<Choice>)
      requires Valid() && Shows(sh, id) && payment.channelID == id
      modifies paymentStorage
      ensures Valid()
      ensures Took(id, sh, ClaimRecord(payment), steps, Release(if err then ClaimRefused else ClaimStarted(payment)))
      ensures OnlyChannel(id)
      ensures !err ==> Recorded(payment)
      ensures paymentStorage.reliable ==> Smooth(steps) && !err
    {
      ghost var fault;
      PaymentPutSeen(id, sh.payments, paymentStorage.data, payment);
      err, fault := paymentStorage.Put(PaymentID(payment.channelID, payment.channelNonce), payment);
      RunAloneNext(cfg, id, sh, ClaimRecord(payment), [], Choice(fault, Completed));
      steps := [] + [Choice(fault, Completed)];
    }

    /**
      Moves the authorised amount out of the channel into a payment record, under the lock,
      which is released once whatever happens.
     */
    method StartClaim(id: int, ghost sh: Shared) returns (claim: Claim?, ghost handle: Lock?, ghost steps: seq<Choice>)
      requires Valid() && Shows(sh, id)
      modifies storage, paymentStorage, locker.storage
      ensures Valid()
      ensures handle != null ==> fresh(handle) && handle.unlocks == 1
      ensures claim != null ==> handle != null && fresh(claim) && claim.paymentStorage == paymentStorage
      ensures claim != null ==> Moved(id, old(storage.data), storage.data, claim.payment) && Recorded(claim.payment)
      ensures Took(id, sh, LockGet(Job.Claim), steps, Done(if claim != null then ClaimStarted(claim.payment) else ClaimRefused))
      ensures OnlyChannel(id)
      ensures Reliable() ==> Smooth(steps)
      ensures Reliable() && LockFree(sh) ==> (claim != null <==> id in old(storage.data))
    {
      ghost var more;
      var lock, err;
      claim := null;
      lock, err, steps := locker.Lock(ChannelKeyString(id), cfg, id, sh, Job.Claim);
      handle := lock;
      if lock == null {
        return;
      }
      claim, more := ClaimAndFree(id, lock, RunAlone(cfg, id, sh, LockGet(Job.Claim), steps).0);
      RunAloneAppend(cfg, id, sh, LockGet(Job.Claim), steps, more);
      steps := steps + more;
    }

    /** The body of StartClaim and the deferred unlock. */
    method ClaimAndFree(id: int, lock: Lock, ghost sh: Shared) returns (claim: Claim?, ghost steps: seq<Choice>)
      requires Valid() && Shows(sh, id) && LockFor(lock, id)
      modifies storage, paymentStorage, locker.storage, lock`unlocks
      ensures Valid() && lock.unlocks == old(lock.unlocks) + 1
      ensures claim != null ==> fresh(claim) && claim.paymentStorage == paymentStorage
      ensures claim != null ==> Moved(id, old(storage.data), storage.data, claim.payment) && Recorded(claim.payment)
      ensures Took(id, sh, ClaimRead, steps, Done(if claim != null then ClaimStarted(claim.payment) else ClaimRefused))
      ensures OnlyChannel(id)
      ensures Reliable() ==> Smooth(steps) && (claim != null <==> id in old(storage.data))
    {
      claim, steps := RecordClaim(id, sh);
      ghost var sh1 := RunAlone(cfg, id, sh, ClaimRead, steps).0;
      ghost var more := Free(lock, id, sh1, if claim != null then ClaimStarted(claim.payment) else ClaimRefused);
      RunAloneAppend(cfg, id, sh, ClaimRead, steps, more);
      steps := steps + more;
    }

    /** The claims in progress, one for every payment record. */
    method ListClaims() returns (claims: seq<Claim>, err: bool, ghost keys: seq<string>)
      ensures paymentStorage.reliable ==> !err
      ensures !err ==> Enumerates(paymentStorage.data, keys, Payments(claims))
      ensures !err ==> forall i | 0 <= i < |claims| :: claims[i].paymentStorage == paymentStorage
    {
      var payments;
      claims := [];
      payments, err, keys := paymentStorage.GetAll();
      if err {
        return;
      }
      for i := 0 to |payments|
        invariant |claims| == i
        invariant forall k | 0 <= k < i :: claims[k].payment == payments[k] && claims[k].paymentStorage == paymentStorage
      {
        var claim := new Claim(paymentStorage, payments[i]);
        claims := claims + [claim];
      }
      assert Payments(claims) == payments;
    }
  }

  function Payments(claims: seq<Claim>): seq<Payment> {
    seq(|claims|, i requires 0 <= i < |claims| => claims[i].payment)
  }

  /** A claim in progress. */
  class Claim {
    const paymentStorage: Store<string, Payment>
    const payment: Payment

    constructor (paymentStorage: Store<string, Payment>, payment: Payment)
      ensures this.paymentStorage == paymentStorage && this.payment == payment
    {
      this.paymentStorage, this.payment := paymentStorage, payment;
    }

    /** To be called once the blockchain has the claim: forgets the payment record. */
    method Finish() returns (err: bool, ghost fault: Fault)
      modifies paymentStorage
      ensures (err <==> fault != Fine) && (paymentStorage.reliable ==> !err)
      ensures paymentStorage.data == if fault == FailsBefore then old(paymentStorage.data)
                                     else old(paymentStorage.data) - {PaymentID(payment.channelID, payment.channelNonce)}
    {
      err, fault := paymentStorage.Delete(PaymentID(payment.channelID, payment.channelNonce));
    }
  }

  /** A validated payment holding the lock of its channel. */
  class PaymentTransaction {
    const payment: Payment
    const channel: ChannelData
    const service: PaymentChannelService
    const lock: Lock
    ghost const tx: Tx

    constructor (payment: Payment, channel: ChannelData, service: PaymentChannelService, lock: Lock, ghost tx: Tx)
      requires tx.payment == payment && tx.channel == channel
      requires channel.channelID == payment.channelID && service.LockFor(lock, payment.channelID)
      ensures this.payment == payment && this.service == service && this.lock == lock && this.tx == tx && Ready()
    {
      this.payment, this.channel, this.service, this.lock, this.tx := payment, channel, service, lock, tx;
    }

    ghost predicate Ready() {
      && tx.payment == payment && tx.channel == channel
      && channel.channelID == payment.channelID && service.LockFor(lock, payment.channelID)
    }

    /** Writes the paid record, and releases the lock whether or not that worked. */
    method Commit(ghost sh: Shared) returns (err: bool, ghost steps: seq<Choice>)
      requires Ready() && service.Valid() && service.Shows(sh, payment.channelID)
      modifies service.storage, service.locker.storage, lock`unlocks
      ensures service.Valid() && lock.unlocks == old(lock.unlocks) + 1
      ensures var paid := old(service.storage.data)[payment.channelID := Paid(channel, payment)];
              service.storage.data == paid || (err && service.storage.data == old(service.storage.data))
      ensures !err || service.storage.data != old(service.storage.data) ==>
                && payment.channelID in service.storage.data
                && var r := service.storage.data[payment.channelID];
                   && r.authorizedAmount == payment.amount && r.signature == payment.signature
                   && r.channelID == channel.channelID && r.nonce == channel.nonce && r.state == channel.state
                   && r.sender == channel.sender && r.recipient == channel.recipient && r.groupID == channel.groupID
                   && r.signer == channel.signer && r.fullAmount == channel.fullAmount && r.expiration == channel.expiration
      ensures service.Took(payment.channelID, sh, Proc.Commit(tx), steps, Done(if err then Refused(Internal) else Served))
      ensures service.OnlyChannel(payment.channelID)
      ensures service.Reliable() ==> Smooth(steps) && !err
    {
      ghost var id, cfg, start := payment.channelID, service.cfg, Proc.Commit(tx);
      err, steps := PutPaid(sh);
      ghost var more := service.Free(lock, id, RunAlone(cfg, id, sh, start, steps).0, if err then Refused(Internal) else Served);
      RunAloneAppend(cfg, id, sh, start, steps, more);
      steps := steps + more;
    }

    /** The write of the paid record, the channel with a new amount and signature. */
    method PutPaid(ghost sh: Shared) returns (err: bool, ghost steps: seq<Choice>)
      requires Ready() && service.Valid() && service.Shows(sh, payment.channelID)
      modifies service.storage
      ensures service.Valid()
      ensures var paid := old(service.storage.data)[payment.channelID := Paid(channel, payment)];
              service.storage.data == paid || (err && service.storage.data == old(service.storage.data))
      ensures service.Took(payment.channelID, sh, Proc.Commit(tx), steps, Release(if err then Refused(Internal) else Served))
      ensures service.OnlyChannel(payment.channelID)
      ensures service.storage.reliable ==> Smooth(steps) && !err
    {
      var id := payment.channelID;
      ghost var fault;
      err, fault := service.storage.Put(
        id,
        ChannelData(channel.channelID, channel.nonce, channel.state, channel.sender, channel.recipient, channel.groupID,
                    channel.fullAmount, channel.expiration, channel.signer, payment.amount, payment.signature));
      RunAloneNext(service.cfg, id, sh, Proc.Commit(tx), [], Choice(fault, Completed));
      steps := [] + [Choice(fault, Completed)];
    }

    /** Only releases the lock. */
    method Rollback(ghost sh: Shared, ghost outcome: Outcome) returns (ghost steps: seq<Choice>)
      requires Ready() && service.Valid() && service.Shows(sh, payment.channelID)
      modifies service.locker.storage, lock`unlocks
      ensures service.Valid() && lock.unlocks == old(lock.unlocks) + 1
      ensures service.Took(payment.channelID, sh, Release(outcome), steps, Done(outcome))
      ensures service.OnlyChannel(payment.channelID)
      ensures service.locker.storage.reliable ==> Smooth(steps)
    {
      steps := service.Free(lock, payment.channelID, sh, outcome);
    }
  }
}
