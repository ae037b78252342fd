/**
  Whose channel it is: records are stored, and payments accepted, only for channels of the
  blockchain that pay this daemon and belong to its group; and the parts of a record that
  name its parties are those of the blockchain.
 */
module Identity {
  import opened Wrappers
  import opened Encoding
  import opened Records
  import opened Ledger
  import opened Protocol
  import opened Serial
  import opened Funds
  import opened ClaimRecords
  import opened Runs

  /** The record is of the channel the blockchain has under id, and that channel is this daemon's. */
  predicate Genuine(cfg: Config, id: int, sh: Shared, r: ChannelData) {
    sh.chain.Some? && Ours(cfg, sh.chain.value) && SameChannel(r, id, sh.chain.value)
  }

  predicate IdentityOk(cfg: Config, id: int, s: Sys) {
    && (s.sh.stored.Some? ==> Genuine(cfg, id, s.sh, s.sh.stored.value))
    && (forall pid | pid in s.procs && InFlight(s.procs[pid]).Some? :: Genuine(cfg, id, s.sh, InFlight(s.procs[pid]).value))
  }

  /** The channel PaymentChannel returns is genuine, whether it was stored before or not. */
  lemma ResolvedIsGenuine(cfg: Config, id: int, sh: Shared, fault: Fault, m: ChannelData)
    requires sh.stored.Some? ==> Genuine(cfg, id, sh, sh.stored.value)
    requires Resolve(cfg, id, sh.stored, ReadOf(sh, fault)) == Success(Some(m))
    ensures Genuine(cfg, id, sh, m)
  {
    if sh.stored.Some? {
      ResolveStored(cfg, id, sh.stored.value, ReadOf(sh, fault));
    } else {
      ResolveNew(cfg, id, ReadOf(sh, fault));
    }
  }

  lemma StepOnIdentity(cfg: Config, id: int, payer: Address, sh: Shared, p: Proc, c: Choice)
    requires Fits(cfg, id, payer, sh.stored, p)
    requires sh.stored.Some? ==> Genuine(cfg, id, sh, sh.stored.value)
    requires InFlight(p).Some? ==> Genuine(cfg, id, sh, InFlight(p).value)
    ensures var (sh', p') := ProcStep(cfg, id, sh, p, c);
            && sh'.chain == sh.chain
            && (sh'.stored.Some? ==> Genuine(cfg, id, sh', sh'.stored.value))
            && (InFlight(p').Some? ==> Genuine(cfg, id, sh', InFlight(p').value))
  {
    if Logged(p, c).None? {
      QuietStep(cfg, id, sh, p, c);
      var p' := ProcStep(cfg, id, sh, p, c).1;
      if p.ReadChain? && InFlight(p').Some? {
        ResolvedIsGenuine(cfg, id, sh, c.fault, InFlight(p').value);
      }
    }
  }

  /** The blockchain never changes the parties of a channel. */
  lemma ChainKeepsIdentity(cfg: Config, id: int, s: Sys, a: Action, r: ChannelData)
    requires Enabled(cfg, id, s, a) && !a.Run? && Genuine(cfg, id, s.sh, r)
    ensures Genuine(cfg, id, Next(cfg, id, s, a).sh, r)
  {}

  lemma StepKeepsIdentity(cfg: Config, id: int, s: Sys, a: Action)
    requires IdentityOk(cfg, id, s) && SerialOk(cfg, id, s) && Enabled(cfg, id, s, a)
    ensures IdentityOk(cfg, id, Next(cfg, id, s, a))
  {
    var t := Next(cfg, id, s, a);
    if a.Run? {
      StepOnIdentity(cfg, id, s.payer, s.sh, s.procs[a.pid], a.choice);
    } else {
      if s.sh.stored.Some? {
        ChainKeepsIdentity(cfg, id, s, a, s.sh.stored.value);
      }
      forall pid | pid in t.procs && InFlight(t.procs[pid]).Some? ensures Genuine(cfg, id, t.sh, InFlight(t.procs[pid]).value) {
        ChainKeepsIdentity(cfg, id, s, a, InFlight(s.procs[pid]).value);
      }
    }
  }

  lemma {:induction false} IdentityAlways(cfg: Config, id: int, s0: Sys, actions: seq<Action>)
    requires Init(s0) && Allowed(cfg, id, s0, actions)
    ensures IdentityOk(cfg, id, After(cfg, id, s0, actions))
  {
    if actions != [] {
      var init := actions[..|actions| - 1];
      IdentityAlways(cfg, id, s0, init);
      SerialAlways(cfg, id, s0, init);
      StepKeepsIdentity(cfg, id, After(cfg, id, s0, init), actions[|actions| - 1]);
    }
  }

  lemma ReachableIdentity(cfg: Config, id: int, s: Sys)
    requires Reachable(cfg, id, s)
    ensures IdentityOk(cfg, id, s)
  {
    var s0: Sys, actions: seq<Action> :| Init(s0) && Allowed(cfg, id, s0, actions) && s == After(cfg, id, s0, actions);
    IdentityAlways(cfg, id, s0, actions);
  }

  /**
    No payment is accepted, and no record stored, for a channel that pays somebody else or
    belongs to another group; and who sent, receives and signs is what the blockchain says.
   */
  lemma OnlyOwnChannels(cfg: Config, id: int, s: Sys, pid: nat)
    requires Reachable(cfg, id, s)
    ensures s.sh.stored.Some? ==> Genuine(cfg, id, s.sh, s.sh.stored.value)
    ensures pid in s.procs && (s.procs[pid].PriceCheck? || s.procs[pid].Call? || s.procs[pid].Commit?) ==>
              Genuine(cfg, id, s.sh, s.procs[pid].tx.channel)
  {
    ReachableIdentity(cfg, id, s);
    assert pid in s.procs ==> InFlight(s.procs[pid]).Some? ==> Genuine(cfg, id, s.sh, InFlight(s.procs[pid]).value);
  }

  /** In every reachable state the channel of a stored payment is on the blockchain and this daemon's. */
  lemma StoredPaymentsAreOurs(cfg: Config, id: int, s: Sys, n: int)
    requires Reachable(cfg, id, s) && n in s.sh.payments
    ensures s.sh.chain.Some? && Ours(cfg, s.sh.chain.value)
  {
    ClaimsKept(cfg, id, s, n);
    ReachableIdentity(cfg, id, s);
  }
}
