/**
  The flat storage below the fleet: one map of channel records, one of payment records and
  one of locks (see Components), keyed as the daemon keys them. A run of the requests of all
  channels on it is a run of Fleet, in which every channel has a state of its own.
 */
module Flat {
  import opened Wrappers
  import opened Encoding
  import opened Keys
  import opened Records
  import opened Ledger
  import opened Protocol
  import opened Storage
  import opened Disks
  import opened ClaimRecords
  import opened Runs
  import opened Fleet

  /** Every channel of the fleet is what the disk holds for it. */
  ghost predicate Stands(d: Disk, f: Channels) {
    forall id | id in f :: Shown(d, f[id].sh, id)
  }

  /** The payment records are those of the fleet's channels, each under its own ID. */
  ghost predicate OwnRecords(d: Disk, f: Channels) {
    forall k | k in d.payments :: d.payments[k].channelID in f && k == PaymentID(d.payments[k].channelID, d.payments[k].channelNonce)
  }

  function Set<K(==), V>(data: map<K, V>, key: K, value: Option<V>): map<K, V> {
    if value.Some? then data[key := value.value] else data - {key}
  }

  /** What a request reads of its channel before a step; no step reads payment records. */
  function Local(d: Disk, id: int): Shared {
    Shared(Lookup(d.channels, id), d.block, Lookup(d.locks, ChannelKeyString(id)), Lookup(d.records, id), map[])
  }

  /** One step of a request on the disk: payment records are kept under the ID of the payment. */
  function DiskStep(cfg: Config, id: int, d: Disk, p: Proc, c: Choice): (Disk, Proc) {
    var (sh, p') := ProcStep(cfg, id, Local(d, id), p, c);
    var happens := c.fault != FailsBefore;
    (d.(locks := Set(d.locks, ChannelKeyString(id), sh.lock),
        records := Set(d.records, id, sh.stored),
        payments := if p.ClaimRecord? && happens then d.payments[PaymentID(p.payment.channelID, p.payment.channelNonce) := p.payment]
                    else if p.Finish? && happens then d.payments - {PaymentID(id, p.nonce)}
                    else d.payments), p')
  }

  /** A step neither depends on payment records nor does more to them than write or delete one. */
  lemma StepIgnoresPayments(cfg: Config, id: int, sh: Shared, p: Proc, c: Choice)
    ensures var (sh', p') := ProcStep(cfg, id, sh, p, c);
            var (bare', q') := ProcStep(cfg, id, sh.(payments := map[]), p, c);
            var happens := c.fault != FailsBefore;
            && p' == q'
            && sh' == bare'.(payments := if p.ClaimRecord? && happens then sh.payments[p.payment.channelNonce := p.payment]
                                         else if p.Finish? && happens then sh.payments - {p.nonce} else sh.payments)
            && sh'.chain == sh.chain && sh'.block == sh.block
  {}

  /** A payment record written or deleted on the disk is written or deleted in the channel's state. */
  lemma PaymentsShown(id: int, paid: map<int, Payment>, data: map<string, Payment>, n: int, p: Payment)
    requires forall k :: Lookup(paid, k) == Lookup(data, PaymentID(id, k))
    ensures forall k :: Lookup(paid[n := p], k) == Lookup(data[PaymentID(id, n) := p], PaymentID(id, k))
    ensures forall k :: Lookup(paid - {n}, k) == Lookup(data - {PaymentID(id, n)}, PaymentID(id, k))
  {
    PaymentIDUnique(id, n);
  }

  /** A step on the disk is the step on the channel's own state. */
  lemma DiskStepShown(cfg: Config, id: int, d: Disk, sh: Shared, p: Proc, c: Choice)
    requires Shown(d, sh, id) && (p.ClaimRecord? ==> p.payment.channelID == id)
    ensures var (d', p') := DiskStep(cfg, id, d, p, c);
            var (sh', q') := ProcStep(cfg, id, sh, p, c);
            p' == q' && Shown(d', sh', id)
  {
    StepIgnoresPayments(cfg, id, sh, p, c);
    assert sh.(payments := map[]) == Local(d, id);
    if p.ClaimRecord? {
      PaymentsShown(id, sh.payments, d.payments, p.payment.channelNonce, p.payment);
    } else if p.Finish? {
      PaymentsShown(id, sh.payments, d.payments, p.nonce, Payment(ZERO_ADDRESS, id, 0, 0, None));
    }
  }

  /** It touches no other channel. */
  lemma DiskStepElsewhere(cfg: Config, id: int, d: Disk, p: Proc, c: Choice, other: int, sh: Shared)
    requires Shown(d, sh, other) && other != id && (p.ClaimRecord? ==> p.payment.channelID == id)
    ensures Shown(DiskStep(cfg, id, d, p, c).0, sh, other)
  {
    assert ChannelKeyString(other) != ChannelKeyString(id) by {
      if ChannelKeyString(other) == ChannelKeyString(id) {
        ChannelKeyStringInjective(other, id);
      }
    }
    if p.ClaimRecord? {
      PaymentIDUnique(id, p.payment.channelNonce);
    } else if p.Finish? {
      PaymentIDUnique(id, p.nonce);
    }
  }

  // ------------------------------------------------------------- whole runs

  /** A payment about to be recorded is one of the channel's own. */
  lemma OwnClaim(cfg: Config, id: int, s: Sys, pid: nat)
    requires Reachable(cfg, id, s) && pid in s.procs && s.procs[pid].ClaimRecord?
    ensures s.procs[pid].payment.channelID == id
  {
    ReachableInv(cfg, id, s);
    assert ClaimFits(s.sh, ClaimsOf(cfg, id, s), s.recorded, s.procs[pid]);
  }

  /** What an action of the fleet does on the disk and the blockchain. */
  function DiskDo(cfg: Config, d: Disk, f: Channels, a: FleetAction): Disk
    requires CanFleet(cfg, f, a)
  {
    match a
    case Mine(blocks) => d.(block := d.block + blocks)
    case At(id, action) =>
      if action.Run? then DiskStep(cfg, id, d, f[id].procs[action.pid], action.choice).0
      else if action.Spawn? || action.Crash? then d
      else d.(channels := Set(d.channels, id, Next(cfg, id, f[id], action).sh.chain))
  }

  lemma RunStands(cfg: Config, d: Disk, f: Channels, id: int, pid: nat, c: Choice)
    requires Stands(d, f) && CanFleet(cfg, f, At(id, Run(pid, c))) && Reachable(cfg, id, f[id])
    ensures var p, g := f[id].procs[pid], DoFleet(cfg, f, At(id, Run(pid, c)));
            && Stands(DiskStep(cfg, id, d, p, c).0, g)
            && g[id].procs[pid] == DiskStep(cfg, id, d, p, c).1
  {
    var p, g := f[id].procs[pid], DoFleet(cfg, f, At(id, Run(pid, c)));
    if p.ClaimRecord? {
      OwnClaim(cfg, id, f[id], pid);
    }
    DiskStepShown(cfg, id, d, f[id].sh, p, c);
    forall other | other in g && other != id ensures Shown(DiskStep(cfg, id, d, p, c).0, g[other].sh, other) {
      DiskStepElsewhere(cfg, id, d, p, c, other, f[other].sh);
    }
  }

  /** An event on the blockchain of one channel changes that channel's entry only. */
  lemma ChainStands(cfg: Config, d: Disk, f: Channels, id: int, a: Action)
    requires Stands(d, f) && CanFleet(cfg, f, At(id, a)) && !a.Run?
    ensures Stands(DiskDo(cfg, d, f, At(id, a)), DoFleet(cfg, f, At(id, a)))
  {
    var g, e := DoFleet(cfg, f, At(id, a)), DiskDo(cfg, d, f, At(id, a));
    assert g[id].sh == f[id].sh.(chain := g[id].sh.chain);
    assert Shown(d, f[id].sh, id);
    forall other | other in g ensures Shown(e, g[other].sh, other) {
      assert other != id ==> Shown(d, f[other].sh, other) && g[other] == f[other];
    }
  }

  lemma MineStands(cfg: Config, d: Disk, f: Channels, blocks: nat)
    requires Stands(d, f)
    ensures Stands(d.(block := d.block + blocks), DoFleet(cfg, f, Mine(blocks)))
  {
    var g := DoFleet(cfg, f, Mine(blocks));
    forall id | id in g ensures Shown(d.(block := d.block + blocks), g[id].sh, id) {
      assert Shown(d, f[id].sh, id);
    }
  }

  lemma DiskDoStands(cfg: Config, d: Disk, f: Channels, a: FleetAction)
    requires Stands(d, f) && CanFleet(cfg, f, a) && (a.At? ==> Reachable(cfg, a.id, f[a.id]))
    ensures Stands(DiskDo(cfg, d, f, a), DoFleet(cfg, f, a))
  {
    match a {
      case Mine(blocks) => MineStands(cfg, d, f, blocks);
      case At(id, action) =>
        if action.Run? {
          RunStands(cfg, d, f, id, action.pid, action.choice);
        } else {
          ChainStands(cfg, d, f, id, action);
        }
    }
  }

  lemma DiskDoOwn(cfg: Config, d: Disk, f: Channels, a: FleetAction)
    requires OwnRecords(d, f) && CanFleet(cfg, f, a) && (a.At? ==> Reachable(cfg, a.id, f[a.id]))
    ensures OwnRecords(DiskDo(cfg, d, f, a), DoFleet(cfg, f, a))
  {
    if a.At? && a.action.Run? && f[a.id].procs[a.action.pid].ClaimRecord? {
      OwnClaim(cfg, a.id, f[a.id], a.action.pid);
    }
  }

  function DiskAfter(cfg: Config, d: Disk, f: Channels, actions: seq<FleetAction>): Disk {
    if actions == [] then d
    else
      var init, a := actions[..|actions| - 1], actions[|actions| - 1];
      var g := FleetAfter(cfg, f, init);
      if CanFleet(cfg, g, a) then DiskDo(cfg, DiskAfter(cfg, d, f, init), g, a) else DiskAfter(cfg, d, f, init)
  }

  /**
    In every run the disk holds for each channel exactly the state that channel has as a
    system of its own; so what Runs says of one channel holds on the shared storage.
   */
  lemma {:induction false} DiskIsFleet(cfg: Config, d: Disk, f: Channels, actions: seq<FleetAction>)
    requires (forall id | id in f :: Init(f[id])) && FleetAllowed(cfg, f, actions) && Stands(d, f)
    ensures Stands(DiskAfter(cfg, d, f, actions), FleetAfter(cfg, f, actions))
    ensures d.payments == map[] ==> OwnRecords(DiskAfter(cfg, d, f, actions), FleetAfter(cfg, f, actions))
  {
    if actions != [] {
      var init, a := actions[..|actions| - 1], actions[|actions| - 1];
      DiskIsFleet(cfg, d, f, init);
      if a.At? {
        FleetKeepsChannels(cfg, f, init);
        FleetSafe(cfg, f, init, a.id);
      }
      DiskDoStands(cfg, DiskAfter(cfg, d, f, init), FleetAfter(cfg, f, init), a);
      if d.payments == map[] {
        DiskDoOwn(cfg, DiskAfter(cfg, d, f, init), FleetAfter(cfg, f, init), a);
      }
    }
  }
}
