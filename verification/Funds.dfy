/**
  Backed payments: until the block reaches its expiration, a channel record is covered by
  the deposit on the blockchain together with every claim that was started and not yet
  collected. The stored record keeps this, and so does every channel a request in
  progress was checked against.
 */
module Funds {
  import opened Wrappers
  import opened Encoding
  import opened Records
  import opened Ledger
  import opened Protocol
  import opened Exclusion
  import opened Serial

  /** The deposit pays for the channel and for all uncollected claims, and these have no gap. */
  ghost predicate Covered(chain: ChainChannel, claims: map<int, Payment>, channel: ChannelData) {
    && channel.expiration <= chain.expiration
    && chain.nonce <= channel.nonce
    && (forall n | chain.nonce <= n < channel.nonce :: n in claims)
    && channel.fullAmount + Owed(claims, chain.nonce, channel.nonce) <= chain.value
  }

  ghost predicate Backed(sh: Shared, claims: map<int, Payment>, channel: ChannelData) {
    sh.chain.Some? && (sh.block >= channel.expiration || Covered(sh.chain.value, claims, channel))
  }

  /** The channel a request was checked against. */
  function InFlight(p: Proc): Option<ChannelData> {
    match p
    case Check(_, _, _, channel) => Some(channel)
    case PriceCheck(tx) => Some(tx.channel)
    case Call(tx) => Some(tx.channel)
    case Commit(tx) => Some(tx.channel)
    case _ => None
  }

  ghost predicate FundsOk(cfg: Config, id: int, s: Sys) {
    var claims := ClaimsOf(cfg, id, s);
    && (s.sh.stored.Some? ==> Backed(s.sh, claims, s.sh.stored.value))
    && (forall pid | pid in s.procs :: FlightOk(s.sh, claims, s.procs[pid]))
  }

  ghost predicate FlightOk(sh: Shared, claims: map<int, Payment>, p: Proc) {
    InFlight(p).Some? ==> Backed(sh, claims, InFlight(p).value) && Ahead(claims, InFlight(p).value.nonce)
  }

  // ---------------------------------------------------------- the blockchain

  /** Deposits, extensions, collected claims, timeouts and new blocks keep a channel backed. */
  lemma ChainKeepsBacked(cfg: Config, id: int, s: Sys, a: Action, channel: ChannelData)
    requires Enabled(cfg, id, s, a) && !a.Spawn? && !a.Run? && !a.Crash?
    requires Backed(s.sh, ClaimsOf(cfg, id, s), channel) && Ahead(ClaimsOf(cfg, id, s), channel.nonce)
    ensures Backed(Next(cfg, id, s, a).sh, ClaimsOf(cfg, id, s), channel)
  {
    var claims, t := ClaimsOf(cfg, id, s), Next(cfg, id, s, a);
    if a.Collect? && s.sh.block < channel.expiration {
      var chain := s.sh.chain.value;
      assert Owed(claims, chain.nonce, channel.nonce) == claims[chain.nonce].amount + Owed(claims, chain.nonce + 1, channel.nonce);
      assert Covered(t.sh.chain.value, claims, channel);
    }
  }

  // ------------------------------------------------------------ the requests

  /** The channel PaymentChannel returns is backed, whichever of the two sources it came from. */
  lemma MergedIsBacked(cfg: Config, id: int, payer: Address, sh: Shared, b: Books, fault: Fault)
    requires BooksOk(cfg, id, payer, b) && b.channel == sh.stored
    requires sh.stored.Some? ==> Backed(sh, b.claims, sh.stored.value)
    requires MergedFor(cfg, id, b, ReadOf(sh, fault)).Some?
    ensures Backed(sh, b.claims, MergedFor(cfg, id, b, ReadOf(sh, fault)).value)
    ensures Ahead(b.claims, MergedFor(cfg, id, b, ReadOf(sh, fault)).value.nonce)
  {
    var m := MergedFor(cfg, id, b, ReadOf(sh, fault)).value;
    if sh.chain.Some? && m.nonce == sh.chain.value.nonce {
      assert Owed(b.claims, m.nonce, m.nonce) == 0;
    }
  }

  /** Starting a claim moves the authorised amount from the record to what is owed. */
  lemma ClaimKeepsBacked(sh: Shared, claims: map<int, Payment>, r: ChannelData)
    requires Backed(sh, claims, r)
    ensures Backed(sh.(stored := Some(IncrementNonce(r))), claims[r.nonce := ClaimOf(r)], IncrementNonce(r))
  {
    if sh.block < r.expiration {
      OwedGrows(claims, sh.chain.value.nonce, r.nonce, ClaimOf(r));
    }
  }

  /** A step that writes no record either keeps what is in flight, drops it, or reads it afresh. */
  lemma QuietStep(cfg: Config, id: int, sh: Shared, p: Proc, c: Choice)
    requires Logged(p, c).None?
    ensures var (sh', p') := ProcStep(cfg, id, sh, p, c);
            && sh'.chain == sh.chain && sh'.block == sh.block && sh'.stored == sh.stored
            && (InFlight(p').Some? ==>
                  || InFlight(p') == InFlight(p)
                  || (p.ReadChain? && Resolve(cfg, id, p.before, ReadOf(sh, c.fault)) == Success(InFlight(p'))))
  {}

  lemma StepOnFunds(cfg: Config, id: int, payer: Address, sh: Shared, b: Books, p: Proc, c: Choice)
    requires BooksOk(cfg, id, payer, b) && b.channel == sh.stored
    requires Fits(cfg, id, payer, sh.stored, p)
    requires sh.stored.Some? ==> Backed(sh, b.claims, sh.stored.value)
    requires FlightOk(sh, b.claims, p)
    requires Logged(p, c).Some? ==> Admissible(cfg, id, b, Logged(p, c).value)
    ensures var (sh', p') := ProcStep(cfg, id, sh, p, c);
            var claims := if Logged(p, c).Some? then Serve(cfg, id, b, Logged(p, c).value).claims else b.claims;
            && (sh'.stored.Some? ==> Backed(sh', claims, sh'.stored.value))
            && FlightOk(sh', claims, p')
  {
    if Logged(p, c).None? {
      QuietStep(cfg, id, sh, p, c);
      if p.ReadChain? && InFlight(ProcStep(cfg, id, sh, p, c).1).Some? {
        MergedIsBacked(cfg, id, payer, sh, b, c.fault);
      }
    } else if p.ClaimWrite? {
      ClaimKeepsBacked(sh, b.claims, p.channel);
    }
  }

  /** The books after a request's step. */
  lemma BooksAfterStep(cfg: Config, id: int, s: Sys, pid: nat, c: Choice)
    requires SerialOk(cfg, id, s) && pid in s.procs
    ensures var b, op := Replay(cfg, id, s.log), Logged(s.procs[pid], c);
            && (op.Some? ==> Admissible(cfg, id, b, op.value))
            && Replay(cfg, id, RunStep(cfg, id, s, pid, c).log) == (if op.Some? then Serve(cfg, id, b, op.value) else b)
  {
    var b, op := Replay(cfg, id, s.log), Logged(s.procs[pid], c);
    StepOnRecord(cfg, id, s.payer, s.sh, s.procs[pid], c, b);
    if op.Some? {
      ReplayNext(cfg, id, s.log, op.value);
    }
  }

  lemma StepKeepsFunds(cfg: Config, id: int, s: Sys, a: Action)
    requires FundsOk(cfg, id, s) && SerialOk(cfg, id, s) && LockOk(s) && Enabled(cfg, id, s, a)
    ensures FundsOk(cfg, id, Next(cfg, id, s, a))
  {
    ReplayKeepsBooks(cfg, id, s.payer, s.log);
    if a.Run? {
      var b, p := Replay(cfg, id, s.log), s.procs[a.pid];
      BooksAfterStep(cfg, id, s, a.pid, a.choice);
      StepOnFunds(cfg, id, s.payer, s.sh, b, p, a.choice);
      OthersUnmoved(cfg, id, s, a.pid, a.choice);
    } else if !a.Spawn? && !a.Crash? {
      ChainKeepsFunds(cfg, id, s, a);
    }
  }

  lemma ChainKeepsFunds(cfg: Config, id: int, s: Sys, a: Action)
    requires FundsOk(cfg, id, s) && Enabled(cfg, id, s, a) && !a.Spawn? && !a.Run? && !a.Crash?
    requires s.sh.stored.Some? ==> Ahead(ClaimsOf(cfg, id, s), s.sh.stored.value.nonce)
    ensures FundsOk(cfg, id, Next(cfg, id, s, a))
  {
    var t, claims := Next(cfg, id, s, a), ClaimsOf(cfg, id, s);
    if s.sh.stored.Some? {
      ChainKeepsBacked(cfg, id, s, a, s.sh.stored.value);
    }
    forall pid | pid in t.procs ensures FlightOk(t.sh, claims, t.procs[pid]) {
      if InFlight(s.procs[pid]).Some? {
        ChainKeepsBacked(cfg, id, s, a, InFlight(s.procs[pid]).value);
      }
    }
  }

  /** A request can change what is owed only while no other request has a payment in flight. */
  lemma OthersUnmoved(cfg: Config, id: int, s: Sys, pid: nat, c: Choice)
    requires FundsOk(cfg, id, s) && SerialOk(cfg, id, s) && LockOk(s) && pid in s.procs
    ensures var t := RunStep(cfg, id, s, pid, c);
            forall q | q in t.procs && q != pid :: FlightOk(t.sh, ClaimsOf(cfg, id, t), t.procs[q])
  {
    var t := RunStep(cfg, id, s, pid, c);
    forall q | q in t.procs && q != pid ensures FlightOk(t.sh, ClaimsOf(cfg, id, t), t.procs[q]) {
      if InFlight(s.procs[q]).Some? {
        assert !Holds(s.procs[pid]);
        assert t.log == s.log && t.sh.chain == s.sh.chain && t.sh.block == s.sh.block;
      }
    }
  }

  // ---------------------------------------------------- without taken-back deposits

  /** As long as the sender has taken nothing back, the chain never overtakes the daemon. */
  ghost predicate CalmOk(cfg: Config, id: int, s: Sys) {
    s.timeouts == 0 ==>
      && (s.sh.stored.Some? ==> s.sh.chain.Some? && s.sh.chain.value.nonce <= s.sh.stored.value.nonce)
      && (forall pid | pid in s.procs :: FlightCalm(s.sh, s.procs[pid]))
      && Replay(cfg, id, s.log).lost == 0
  }

  predicate FlightCalm(sh: Shared, p: Proc) {
    InFlight(p).Some? ==>
      && sh.chain.Some? && sh.chain.value.nonce <= InFlight(p).value.nonce
      && (sh.stored.Some? ==> InFlight(p).value.nonce == sh.stored.value.nonce)
  }

  lemma StepOnCalm(cfg: Config, id: int, payer: Address, sh: Shared, b: Books, p: Proc, c: Choice)
    requires b.channel == sh.stored && b.lost == 0
    requires Fits(cfg, id, payer, sh.stored, p)
    requires sh.stored.Some? ==> sh.chain.Some? && sh.chain.value.nonce <= sh.stored.value.nonce
    requires FlightCalm(sh, p)
    requires Logged(p, c).Some? ==> Admissible(cfg, id, b, Logged(p, c).value)
    ensures var (sh', p') := ProcStep(cfg, id, sh, p, c);
            && (sh'.stored.Some? ==> sh'.chain.Some? && sh'.chain.value.nonce <= sh'.stored.value.nonce)
            && FlightCalm(sh', p')
            && (Logged(p, c).Some? ==> Serve(cfg, id, b, Logged(p, c).value).lost == 0)
  {
    if Logged(p, c).None? {
      QuietStep(cfg, id, sh, p, c);
    }
  }

  lemma RunKeepsCalm(cfg: Config, id: int, s: Sys, pid: nat, c: Choice)
    requires CalmOk(cfg, id, s) && SerialOk(cfg, id, s) && LockOk(s) && pid in s.procs
    ensures CalmOk(cfg, id, RunStep(cfg, id, s, pid, c))
  {
    var t := RunStep(cfg, id, s, pid, c);
    if s.timeouts == 0 {
      BooksAfterStep(cfg, id, s, pid, c);
      StepOnCalm(cfg, id, s.payer, s.sh, Replay(cfg, id, s.log), s.procs[pid], c);
      forall q | q in t.procs && q != pid ensures FlightCalm(t.sh, t.procs[q]) {
        CalmUnlessLocked(cfg, id, s.sh, s.procs[pid], s.procs[q], c);
      }
    }
  }

  /** Another request's flight is not disturbed: it holds the lock, so this step writes nothing. */
  lemma CalmUnlessLocked(cfg: Config, id: int, sh: Shared, p: Proc, q: Proc, c: Choice)
    requires FlightCalm(sh, q) && !(Holds(p) && Holds(q))
    ensures FlightCalm(ProcStep(cfg, id, sh, p, c).0, q)
  {
    if Logged(p, c).None? {
      QuietStep(cfg, id, sh, p, c);
    }
  }

  lemma ChainKeepsCalm(cfg: Config, id: int, s: Sys, a: Action)
    requires CalmOk(cfg, id, s) && Enabled(cfg, id, s, a) && !a.Run? && !a.Spawn? && !a.Crash?
    requires s.sh.stored.Some? ==> Ahead(ClaimsOf(cfg, id, s), s.sh.stored.value.nonce)
    requires s.sh.stored.None? ==> ClaimsOf(cfg, id, s) == map[]
    ensures CalmOk(cfg, id, Next(cfg, id, s, a))
  {
    if a.Collect? {
      assert s.sh.chain.value.nonce in ClaimsOf(cfg, id, s);
    }
  }

  lemma StepKeepsCalm(cfg: Config, id: int, s: Sys, a: Action)
    requires CalmOk(cfg, id, s) && SerialOk(cfg, id, s) && LockOk(s) && Enabled(cfg, id, s, a)
    ensures CalmOk(cfg, id, Next(cfg, id, s, a))
  {
    if a.Run? {
      RunKeepsCalm(cfg, id, s, a.pid, a.choice);
    } else if !a.Spawn? && !a.Crash? {
      ReplayKeepsBooks(cfg, id, s.payer, s.log);
      ChainKeepsCalm(cfg, id, s, a);
    }
  }
}
