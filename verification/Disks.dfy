/** The shared storage with the keys the daemon uses, and what one channel's part of it is. */
module Disks {
  import opened Wrappers
  import opened Keys
  import opened Records
  import opened Protocol
  import opened Storage

  /** All that the replicas share. */
  datatype Disk = Disk(
    channels: map<int, ChainChannel>,
    block: nat,
    records: map<int, ChannelData>,
    payments: map<string, Payment>,
    locks: map<string, string>
  )

  /** sh is what the disk holds for channel id. */
  ghost predicate Shown(d: Disk, sh: Shared, id: int) {
    && sh.chain == Lookup(d.channels, id) && sh.block == d.block
    && sh.lock == Lookup(d.locks, ChannelKeyString(id))
    && sh.stored == Lookup(d.records, id)
    && forall n :: Lookup(sh.payments, n) == Lookup(d.payments, PaymentID(id, n))
  }
}
