/**
  Serialisability: the channel record is at every moment what the bookkeeper of Ledger has
  after serving, one at a time, the operations that wrote it.
 */
module Serial {
  import opened Wrappers
  import opened Encoding
  import opened Records
  import opened Ledger
  import opened Protocol
  import opened Exclusion

  predicate OwnPayment(cfg: Config, id: int, payment: Payment) {
    payment.mpe == cfg.mpe && payment.channelID == id
  }

  predicate ReadFits(payer: Address, read: ChainRead) {
    read.Found? ==> read.channel.signer == payer
  }

  predicate ChannelFits(cfg: Config, id: int, payer: Address, stored: Option<ChannelData>, payment: Payment,
                        before: Option<ChannelData>, read: ChainRead, channel: ChannelData) {
    && OwnPayment(cfg, id, payment) && ReadFits(payer, read)
    && before == stored
    && Resolve(cfg, id, stored, read) == Success(Some(channel))
  }

  predicate TxFits(cfg: Config, id: int, payer: Address, stored: Option<ChannelData>, tx: Tx) {
    && ChannelFits(cfg, id, payer, stored, tx.payment, tx.before, tx.read, tx.channel)
    && Validate(cfg, tx.payment, tx.channel, Some(tx.block)) == Success(tx.block)
  }

  /** What a request carries still agrees with the stored record it was computed from. */
  predicate Fits(cfg: Config, id: int, payer: Address, stored: Option<ChannelData>, p: Proc) {
    match p
    case LockGet(Pay(payment)) => OwnPayment(cfg, id, payment)
    case LockSet(Pay(payment), _) => OwnPayment(cfg, id, payment)
    case ReadStored(payment) => OwnPayment(cfg, id, payment)
    case ReadChain(payment, before) => OwnPayment(cfg, id, payment) && before == stored
    case Check(payment, before, read, channel) => ChannelFits(cfg, id, payer, stored, payment, before, read, channel)
    case PriceCheck(tx) => TxFits(cfg, id, payer, stored, tx)
    case Call(tx) => TxFits(cfg, id, payer, stored, tx) && IncomeIsPrice(cfg, tx.payment, tx.channel)
    case Commit(tx) => TxFits(cfg, id, payer, stored, tx) && IncomeIsPrice(cfg, tx.payment, tx.channel)
    case ClaimWrite(channel) => stored == Some(channel)
    case _ => true
  }

  ghost predicate SerialOk(cfg: Config, id: int, s: Sys) {
    && (s.sh.chain.Some? ==> s.sh.chain.value.signer == s.payer)
    && (forall pid | pid in s.procs :: Fits(cfg, id, s.payer, s.sh.stored, s.procs[pid]))
    && Accepted(cfg, id, s.log)
    && (forall i | 0 <= i < |s.log| :: ReadsPayer(s.payer, s.log[i]))
    && Replay(cfg, id, s.log).channel == s.sh.stored
  }

  /** Only a lock holder depends on the stored record. */
  lemma FitsWithoutLock(cfg: Config, id: int, payer: Address, stored: Option<ChannelData>, stored': Option<ChannelData>, p: Proc)
    requires Fits(cfg, id, payer, stored, p) && !Holds(p)
    ensures Fits(cfg, id, payer, stored', p)
  {}

  /** The record changes only through an operation logged at the same step, by a holder of the lock. */
  lemma StepOnRecord(cfg: Config, id: int, payer: Address, sh: Shared, p: Proc, c: Choice, b: Books)
    requires Fits(cfg, id, payer, sh.stored, p) && b.channel == sh.stored
    requires sh.chain.Some? ==> sh.chain.value.signer == payer
    ensures var (sh', p') := ProcStep(cfg, id, sh, p, c);
            && Fits(cfg, id, payer, sh'.stored, p')
            && (sh'.stored != sh.stored ==> Holds(p))
            && match Logged(p, c) {
                 case None => sh'.stored == sh.stored
                 case Some(op) => Admissible(cfg, id, b, op) && ReadsPayer(payer, op) && Serve(cfg, id, b, op).channel == sh'.stored
               }
  {}

  lemma StepKeepsSerial(cfg: Config, id: int, s: Sys, a: Action)
    requires SerialOk(cfg, id, s) && LockOk(s) && Enabled(cfg, id, s, a)
    ensures SerialOk(cfg, id, Next(cfg, id, s, a))
  {
    if a.Run? {
      var p, t := s.procs[a.pid], Next(cfg, id, s, a);
      var b := Replay(cfg, id, s.log);
      StepOnRecord(cfg, id, s.payer, s.sh, p, a.choice, b);
      if Logged(p, a.choice).Some? {
        ReplayNext(cfg, id, s.log, Logged(p, a.choice).value);
      }
      forall pid | pid in t.procs ensures Fits(cfg, id, t.payer, t.sh.stored, t.procs[pid]) {
        if pid != a.pid && t.sh.stored != s.sh.stored {
          FitsWithoutLock(cfg, id, s.payer, s.sh.stored, t.sh.stored, s.procs[pid]);
        }
      }
    }
  }
}
