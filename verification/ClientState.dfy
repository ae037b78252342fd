/**
  What a client learns from GetChannelState is enough to pay: built from the reply, the
  next payment is accepted exactly when the deposit and the time left suffice.
 */
module ClientState {
  import opened Wrappers
  import opened Encoding
  import opened Records
  import opened Ledger
  import opened Protocol
  import opened Exclusion
  import opened Serial
  import opened Alone
  import opened Runs

  /** currentSignature is None, and currentSignedAmount empty, if nothing is signed at this nonce. */
  datatype ChannelStateReply = ChannelStateReply(
    currentNonce: seq<byte>,
    currentSignedAmount: seq<byte>,
    currentSignature: Option<Signature>
  )

  datatype StateError = IncorrectSignature | ChannelError | NotFound | NotTheSigner

  function ReplyFor(channel: ChannelData): ChannelStateReply {
    if channel.signature.None? then ChannelStateReply(BigIntToBytes(channel.nonce), [], None)
    else ChannelStateReply(BigIntToBytes(channel.nonce), BigIntToBytes(channel.authorizedAmount), channel.signature)
  }

  function GetChannelState(cfg: Config, channelID: seq<byte>, signature: Signature, stored: Option<ChannelData>, read: ChainRead)
    : Result<ChannelStateReply, StateError>
  {
    var id := BytesToBigInt(channelID);
    var sender := SignerOfMessage(cfg, ChannelStateMessage(id), Some(signature));
    if sender.None? then Failure(IncorrectSignature)
    else match Resolve(cfg, id, stored, read)
      case Failure(_) => Failure(ChannelError)
      case Success(None) => Failure(NotFound)
      case Success(Some(channel)) =>
        if channel.signer != sender.value then Failure(NotTheSigner) else Success(ReplyFor(channel))
  }

  /** The payment a client makes next: one price more than what it has signed at this nonce. */
  function NextPayment(cfg: Config, id: int, reply: ChannelStateReply, signature: Signature): Payment {
    var signed := if reply.currentSignature.None? then 0 else BytesToBigInt(reply.currentSignedAmount);
    Payment(cfg.mpe, id, BytesToBigInt(reply.currentNonce), signed + cfg.price, Some(signature))
  }

  /** The client's next payment names the channel's nonce and adds exactly the price. */
  lemma NextPaymentFits(cfg: Config, id: int, channel: ChannelData, signature: Signature)
    requires 0 <= channel.nonce < WORD_LIMIT && 0 <= channel.authorizedAmount < WORD_LIMIT
    requires channel.signature.None? ==> channel.authorizedAmount == 0
    ensures var p := NextPayment(cfg, id, ReplyFor(channel), signature);
            p.channelNonce == channel.nonce && IncomeIsPrice(cfg, p, channel)
  {
    RoundTrip(channel.nonce);
    RoundTrip(channel.authorizedAmount);
  }

  lemma ChecksPass(cfg: Config, id: int, sh: Shared, payment: Payment, before: Option<ChannelData>, read: ChainRead, m: ChannelData)
    requires payment.channelNonce == m.nonce && IncomeIsPrice(cfg, payment, m)
    requires SignerOfPayment(cfg, payment) == Some(m.signer)
    ensures var (sh', p') := ProcStep(cfg, id, sh, Check(payment, before, read, m), FINE);
            ProcStep(cfg, id, sh', p', FINE).1.Call? <==>
              (m.authorizedAmount + cfg.price <= m.fullAmount && sh.block + cfg.threshold < m.expiration)
  {}

  /** The two checks that follow pass exactly if the deposit and the time left suffice. */
  lemma PassesChecks(cfg: Config, id: int, sh: Shared, payment: Payment, m: ChannelData, cs: seq<Choice>)
    requires AllFine(cs, 6)
    requires LockFree(sh)
    requires Resolve(cfg, id, sh.stored, ReadOf(sh, Fine)) == Success(Some(m))
    requires payment.channelNonce == m.nonce && IncomeIsPrice(cfg, payment, m)
    requires SignerOfPayment(cfg, payment) == Some(m.signer)
    ensures RunAlone(cfg, id, sh, LockGet(Pay(payment)), cs).1.Call? <==>
              (m.authorizedAmount + cfg.price <= m.fullAmount && sh.block + cfg.threshold < m.expiration)
  {
    var start := LockGet(Pay(payment));
    ReachesChecks(cfg, id, sh, payment, m, cs);
    FineNext(cfg, id, sh, start, cs, 4);
    FineNext(cfg, id, sh, start, cs, 5);
    assert cs[..6] == cs;
    ChecksPass(cfg, id, sh.(lock := Some(LOCKED)), payment, sh.stored, ReadOf(sh, Fine), m);
  }

  /** The merged channel is the payer's promise too. */
  lemma MergedInOrder(cfg: Config, id: int, s: Sys, m: ChannelData, fault: Fault)
    requires Reachable(cfg, id, s) && Resolve(cfg, id, s.sh.stored, ReadOf(s.sh, fault)) == Success(Some(m))
    ensures 0 <= m.nonce && 0 <= m.authorizedAmount && m.signer == s.payer
    ensures SignedUnlessZero(cfg, m.signature, s.payer, id, m.nonce, m.authorizedAmount)
  {
    ReachableInv(cfg, id, s);
  }

  /**
    In every reachable state, and whether or not the blockchain can be read, the state
    service answers exactly the payer. In range, the reply says the merged nonce and the
    amount authorised at it, with the payer's signature for exactly that amount.
   */
  lemma ReplyIsThePayersPromise(cfg: Config, channelID: seq<byte>, signature: Signature, s: Sys, fault: Fault)
    requires Reachable(cfg, BytesToBigInt(channelID), s)
    ensures var id, read := BytesToBigInt(channelID), ReadOf(s.sh, fault);
            var merged, reply := Resolve(cfg, id, s.sh.stored, read), GetChannelState(cfg, channelID, signature, s.sh.stored, read);
            && (reply.Success? <==> merged.Success? && merged.value.Some?
                                    && SignerOfMessage(cfg, ChannelStateMessage(id), Some(signature)) == Some(s.payer))
            && (reply.Success? ==> Says(cfg, id, s.payer, reply.value, merged.value.value))
  {
    var id, read := BytesToBigInt(channelID), ReadOf(s.sh, fault);
    var merged := Resolve(cfg, id, s.sh.stored, read);
    if merged.Success? && merged.value.Some? {
      MergedInOrder(cfg, id, s, merged.value.value, fault);
      ReplySays(cfg, id, s.payer, merged.value.value);
    }
  }

  /**
    A signature opens one channel's state: if recovery gives the channel's signer for it only
    on the word of id, then with that signature only the state of id is given out.
   */
  lemma SignatureIsForOneChannel(cfg: Config, id: int, channelID: seq<byte>, signature: Signature,
                                 stored: Option<ChannelData>, read: ChainRead, channel: ChannelData)
    requires 0 <= id < WORD_LIMIT && BytesToBigInt(channelID) < WORD_LIMIT
    requires RecoversOnly(cfg, signature, channel.signer, BigIntToBytes(id))
    requires Resolve(cfg, BytesToBigInt(channelID), stored, read) == Success(Some(channel))
    ensures GetChannelState(cfg, channelID, signature, stored, read).Success? <==> BytesToBigInt(channelID) == id
  {
    var asked := BytesToBigInt(channelID);
    SignatureReading(cfg, ChannelStateMessage(asked), signature, signature);
    RoundTrip(id);
    RoundTrip(asked);
  }

  /** What the client can read from a reply about the channel. */
  ghost predicate Says(cfg: Config, id: int, payer: Address, reply: ChannelStateReply, m: ChannelData) {
    && (0 <= m.nonce < WORD_LIMIT ==> BytesToBigInt(reply.currentNonce) == m.nonce)
    && reply.currentSignature == m.signature
    && (reply.currentSignature.None? ==> m.authorizedAmount == 0 && reply.currentSignedAmount == [])
    && (reply.currentSignature.Some? && 0 <= m.authorizedAmount < WORD_LIMIT ==>
          && BytesToBigInt(reply.currentSignedAmount) == m.authorizedAmount
          && Authorises(cfg, reply.currentSignature, payer, id, m.nonce, m.authorizedAmount))
  }

  lemma ReplySays(cfg: Config, id: int, payer: Address, m: ChannelData)
    requires SignedUnlessZero(cfg, m.signature, payer, id, m.nonce, m.authorizedAmount)
    ensures Says(cfg, id, payer, ReplyFor(m), m)
  {
    RoundTrip(m.nonce);
    RoundTrip(m.authorizedAmount);
  }

  /**
    Client progress: in every reachable state with the lock free, the payment a client
    builds from the state reply and signs gets its call served, if nothing fails or
    interferes, exactly when the deposit covers it and the expiration is far enough.
   */
  lemma ClientProgress(cfg: Config, id: int, s: Sys, m: ChannelData, signature: Signature, cs: seq<Choice>)
    requires AllFine(cs, 6)
    requires Reachable(cfg, id, s) && s.sh.lock != Some(LOCKED)
    requires Resolve(cfg, id, s.sh.stored, ReadOf(s.sh, Fine)) == Success(Some(m))
    requires m.nonce < WORD_LIMIT && m.authorizedAmount < WORD_LIMIT
    requires SignerOfPayment(cfg, NextPayment(cfg, id, ReplyFor(m), signature)) == Some(m.signer)
    ensures var payment := NextPayment(cfg, id, ReplyFor(m), signature);
            RunAlone(cfg, id, s.sh, LockGet(Pay(payment)), cs).1.Call? <==>
              (m.authorizedAmount + cfg.price <= m.fullAmount && s.sh.block + cfg.threshold < m.expiration)
  {
    ReachableInv(cfg, id, s);
    MergedInOrder(cfg, id, s, m, Fine);
    NextPaymentFits(cfg, id, m, signature);
    PassesChecks(cfg, id, s.sh, NextPayment(cfg, id, ReplyFor(m), signature), m, cs);
  }
}
