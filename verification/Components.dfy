/**
  The daemon's three storages over one flat storage: channel records, payment records and
  locks. Each operation of one is invisible to the other two, so all three stay what their
  own operations made them.
 */
module Components {
  import opened Wrappers
  import opened Records
  import opened Storage

  /** An operation through one prefix leaves the other two views as they are. */
  lemma ChannelsApart(data: map<string, string>, op: StoreOp<string, string>)
    ensures var data' := Apply(data, Under(CHANNEL_PREFIX + "/", op));
            && View(data', PAYMENT_PREFIX + "/") == View(data, PAYMENT_PREFIX + "/")
            && View(data', LOCK_PREFIX + "/") == View(data, LOCK_PREFIX + "/")
  {
    NamespacesApart();
    OtherView(data, PAYMENT_PREFIX + "/", CHANNEL_PREFIX + "/", op);
    OtherView(data, LOCK_PREFIX + "/", CHANNEL_PREFIX + "/", op);
  }

  lemma PaymentsApart(data: map<string, string>, op: StoreOp<string, string>)
    ensures var data' := Apply(data, Under(PAYMENT_PREFIX + "/", op));
            && View(data', CHANNEL_PREFIX + "/") == View(data, CHANNEL_PREFIX + "/")
            && View(data', LOCK_PREFIX + "/") == View(data, LOCK_PREFIX + "/")
  {
    NamespacesApart();
    OtherView(data, CHANNEL_PREFIX + "/", PAYMENT_PREFIX + "/", op);
    OtherView(data, LOCK_PREFIX + "/", PAYMENT_PREFIX + "/", op);
  }

  lemma LocksApart(data: map<string, string>, op: StoreOp<string, string>)
    ensures var data' := Apply(data, Under(LOCK_PREFIX + "/", op));
            && View(data', CHANNEL_PREFIX + "/") == View(data, CHANNEL_PREFIX + "/")
            && View(data', PAYMENT_PREFIX + "/") == View(data, PAYMENT_PREFIX + "/")
  {
    NamespacesApart();
    OtherView(data, CHANNEL_PREFIX + "/", LOCK_PREFIX + "/", op);
    OtherView(data, PAYMENT_PREFIX + "/", LOCK_PREFIX + "/", op);
  }

  class EscrowStorages {
    const memory: MemoryStorage
    const channels: TypedAtomicStorage<int, ChannelData>
    const payments: TypedAtomicStorage<string, Payment>
    const locks: PrefixedAtomicStorage

    constructor (channelCodec: Codec<int, ChannelData>, paymentCodec: Codec<string, Payment>)
      requires Faithful(channelCodec) && Faithful(paymentCodec)
      ensures Valid() && channels.contents == map[] && payments.contents == map[] && locks.Contents() == map[]
      ensures channels.codec == channelCodec && payments.codec == paymentCodec
    {
      var storage := new MemoryStorage();
      memory := storage;
      var channelStorage := new PrefixedAtomicStorage(storage, CHANNEL_PREFIX);
      var paymentStorage := new PrefixedAtomicStorage(storage, PAYMENT_PREFIX);
      locks := new PrefixedAtomicStorage(storage, LOCK_PREFIX);
      channels := new TypedAtomicStorage(channelStorage, channelCodec);
      payments := new TypedAtomicStorage(paymentStorage, paymentCodec);
    }

    /** The three namespaces of one flat storage, each standing for its own map. */
    ghost predicate Valid()
      reads this, memory, channels, payments
    {
      && channels.atomicStorage.delegate == memory && channels.atomicStorage.keyPrefix == CHANNEL_PREFIX
      && payments.atomicStorage.delegate == memory && payments.atomicStorage.keyPrefix == PAYMENT_PREFIX
      && locks.delegate == memory && locks.keyPrefix == LOCK_PREFIX
      && (channels as object) != payments
      && channels.Valid() && payments.Valid()
    }

    /** After a write of one of them the other two hold what they did. */
    twostate lemma ChannelsWrote(op: StoreOp<int, ChannelData>)
      requires old(Valid()) && channels.Valid() && channels.Wrote(op) && payments.contents == old(payments.contents)
      ensures Valid() && locks.Contents() == old(locks.Contents())
    {
      ChannelsApart(old(memory.data), Encoded(channels.codec, op));
      assert payments.atomicStorage.Contents() == old(payments.atomicStorage.Contents());
    }

    twostate lemma PaymentsWrote(op: StoreOp<string, Payment>)
      requires old(Valid()) && payments.Valid() && payments.Wrote(op) && channels.contents == old(channels.contents)
      ensures Valid() && locks.Contents() == old(locks.Contents())
    {
      PaymentsApart(old(memory.data), Encoded(payments.codec, op));
      assert channels.atomicStorage.Contents() == old(channels.atomicStorage.Contents());
    }

    twostate lemma LocksWrote(op: StoreOp<string, string>)
      requires old(Valid()) && memory.data == Apply(old(memory.data), Under(locks.Space(), op))
      requires channels.contents == old(channels.contents) && payments.contents == old(payments.contents)
      ensures Valid()
    {
      LocksApart(old(memory.data), op);
      assert channels.atomicStorage.Contents() == old(channels.atomicStorage.Contents());
      assert payments.atomicStorage.Contents() == old(payments.atomicStorage.Contents());
    }

    method PutChannel(id: int, record: ChannelData)
      requires Valid()
      modifies memory, channels`contents
      ensures Valid() && channels.contents == old(channels.contents)[id := record]
      ensures payments.contents == old(payments.contents) && locks.Contents() == old(locks.Contents())
    {
      var op := PutOp(id, record);
      channels.Put(id, record);
      ChannelsWrote(op);
    }

    method PutPayment(key: string, payment: Payment)
      requires Valid()
      modifies memory, payments`contents
      ensures Valid() && payments.contents == old(payments.contents)[key := payment]
      ensures channels.contents == old(channels.contents) && locks.Contents() == old(locks.Contents())
    {
      var op := PutOp(key, payment);
      payments.Put(key, payment);
      PaymentsWrote(op);
    }

    method DeletePayment(key: string)
      requires Valid()
      modifies memory, payments`contents
      ensures Valid() && payments.contents == old(payments.contents) - {key}
      ensures channels.contents == old(channels.contents) && locks.Contents() == old(locks.Contents())
    {
      var op: StoreOp<string, Payment> := DeleteOp(key);
      payments.Delete(key);
      PaymentsWrote(op);
    }

    method CreateLock(name: string, value: string) returns (ok: bool)
      requires Valid()
      modifies memory
      ensures ok <==> name !in old(locks.Contents())
      ensures Valid() && locks.Contents() == if ok then old(locks.Contents())[name := value] else old(locks.Contents())
      ensures channels.contents == old(channels.contents) && payments.contents == old(payments.contents)
    {
      ok := locks.PutIfAbsent(name, value);
      LocksWrote(PutIfAbsentOp(name, value));
    }

    method SwapLock(name: string, prev: string, next: string) returns (ok: bool)
      requires Valid()
      modifies memory
      ensures ok <==> Lookup(old(locks.Contents()), name) == Some(prev)
      ensures Valid() && locks.Contents() == if ok then old(locks.Contents())[name := next] else old(locks.Contents())
      ensures channels.contents == old(channels.contents) && payments.contents == old(payments.contents)
    {
      ok := locks.CompareAndSwap(name, prev, next);
      LocksWrote(CompareAndSwapOp(name, prev, next));
    }

    method DeleteLock(name: string)
      requires Valid()
      modifies memory
      ensures Valid() && locks.Contents() == old(locks.Contents()) - {name}
      ensures channels.contents == old(channels.contents) && payments.contents == old(payments.contents)
    {
      locks.Delete(name);
      LocksWrote(DeleteOp(name));
    }
  }
}
