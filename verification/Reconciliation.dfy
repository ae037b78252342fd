/**
  Reconciliation in the system: every stored payment belongs to a channel that pays this
  daemon, so a pass that can read the blockchain removes all records the chain has passed.
 */
module Reconciliation {
  import opened Wrappers
  import opened Encoding
  import opened Keys
  import opened Records
  import opened Protocol
  import opened Storage
  import opened Runs
  import opened Identity
  import opened Fleet
  import opened Disks
  import opened Flat
  import opened Control

  /** The nonce of the payment's channel on the blockchain is greater than the payment's. */
  predicate ChainIsPast(d: Disk, p: Payment) {
    p.channelID in d.channels && d.channels[p.channelID].nonce > p.channelNonce
  }

  lemma PassCompletesNow(cfg: Config, d: Disk, f: Channels, keys: seq<string>, payments: seq<Payment>)
    requires Stands(d, f) && OwnRecords(d, f) && forall id | id in f :: Reachable(cfg, id, f[id])
    requires Enumerates(d.payments, keys, payments)
    ensures forall k :: k in Pass(cfg, d.channels, d.payments, payments) <==> k in d.payments && !ChainIsPast(d, d.payments[k])
    ensures !PassFails(cfg, d.channels, payments)
  {
    forall j | 0 <= j < |payments| ensures Known(cfg, d.channels, payments[j]) {
      var p := payments[j];
      assert d.payments[keys[j]] == p && keys[j] == PaymentID(p.channelID, p.channelNonce);
      assert Shown(d, f[p.channelID].sh, p.channelID);
      assert Lookup(f[p.channelID].sh.payments, p.channelNonce) == Some(p);
      StoredPaymentsAreOurs(cfg, p.channelID, f[p.channelID], p.channelNonce);
    }
    forall k | k in d.payments ensures Stale(cfg, d.channels, d.payments[k]) <==> ChainIsPast(d, d.payments[k]) {
      var j :| 0 <= j < |keys| && keys[j] == k;
      assert Known(cfg, d.channels, payments[j]);
    }
    PassCompleteIff(cfg, d.channels, d.payments, keys, payments);
    PassFailsIff(cfg, d.channels, payments);
  }

  /**
    After every run of the daemon a pass without errors is complete: it leaves exactly the
    records the blockchain has not passed, and reports no error.
   */
  lemma PassCompletes(cfg: Config, d0: Disk, f: Channels, actions: seq<FleetAction>, keys: seq<string>, payments: seq<Payment>)
    requires (forall id | id in f :: Init(f[id])) && FleetAllowed(cfg, f, actions) && Stands(d0, f) && d0.payments == map[]
    requires Enumerates(DiskAfter(cfg, d0, f, actions).payments, keys, payments)
    ensures var d := DiskAfter(cfg, d0, f, actions);
            && (forall k :: k in Pass(cfg, d.channels, d.payments, payments) <==> k in d.payments && !ChainIsPast(d, d.payments[k]))
            && !PassFails(cfg, d.channels, payments)
  {
    DiskIsFleet(cfg, d0, f, actions);
    FleetKeepsChannels(cfg, f, actions);
    forall id | id in f ensures Reachable(cfg, id, FleetAfter(cfg, f, actions)[id]) {
      FleetSafe(cfg, f, actions, id);
    }
    PassCompletesNow(cfg, DiskAfter(cfg, d0, f, actions), FleetAfter(cfg, f, actions), keys, payments);
  }

  /** On a storage with a payment of an unknown channel, listed first, a pass leaves a passed record behind. */
  lemma PassLeavesBehind(cfg: Config, ch: ChainChannel)
    requires ch.recipient == cfg.recipient && ch.nonce == 1
    ensures var stray, passed := Payment(ZERO_ADDRESS, 0, 0, 0, None), Payment(ZERO_ADDRESS, 1, 0, 0, None);
            var data := map[PaymentID(0, 0) := stray, PaymentID(1, 0) := passed];
            && Enumerates(data, [PaymentID(0, 0), PaymentID(1, 0)], [stray, passed])
            && Stale(cfg, map[1 := ch], passed)
            && Pass(cfg, map[1 := ch], data, [stray, passed]) == data
            && !PassFails(cfg, map[1 := ch], [stray, passed])
  {
    PaymentIDInjective(0, 0, 1, 0);
  }
}
