/**
  Channel and payment records, and the decisions the daemon takes on them: merging the
  stored channel with the one on the blockchain, validating a payment, checking income,
  and the two updates of the stored record (a paid call and a started claim).
 */
module Records {
  import opened Wrappers
  import opened Encoding

  type Signature = seq<byte>

  datatype ChannelState = Open | Closed

  datatype ChannelData = ChannelData(
    channelID: int,
    nonce: int,
    state: ChannelState,
    sender: Address,
    recipient: Address,
    groupID: seq<byte>,
    fullAmount: int,
    expiration: int,
    signer: Address,
    authorizedAmount: int,
    signature: Option<Signature>
  )

  datatype Payment = Payment(
    mpe: Address,
    channelID: int,
    channelNonce: int,
    amount: int,
    signature: Option<Signature>
  )

  /** The channel as the MultiPartyEscrow contract keeps it; amounts are uint256 values. */
  datatype ChainChannel = ChainChannel(
    sender: Address,
    recipient: Address,
    groupID: seq<byte>,
    value: nat,
    nonce: nat,
    expiration: nat,
    signer: Address
  )

  /** One read of the contract: the channel, no such channel, or an error. */
  datatype ChainRead = Found(channel: ChainChannel) | Missing | Unreadable

  datatype PaymentErrorCode = Internal | Unauthenticated | FailedPrecondition | IncorrectNonce

  /**
    What a replica is configured with. recover stands for Keccak hashing followed by
    ECDSA key recovery: it maps a message and a normalised signature to an address.
   */
  datatype Config = Config(
    mpe: Address,
    recipient: Address,
    groupID: seq<byte>,
    price: nat,
    threshold: nat,
    recover: (seq<byte>, Signature) -> Option<Address>
  )

  const ZERO_ADDRESS: Address := Zeros(20)

  const SIGNATURE_BYTES: nat := 65

  // ------------------------------------------------------------ signatures

  /** The last byte is reduced modulo 27 before key recovery; other lengths are errors. */
  function SignerOfMessage(cfg: Config, message: seq<byte>, signature: Option<Signature>): Option<Address> {
    if signature.None? || |signature.value| != SIGNATURE_BYTES then None
    else cfg.recover(message, signature.value[..64] + [signature.value[64] % 27])
  }

  function SignerOfPayment(cfg: Config, p: Payment): Option<Address> {
    SignerOfMessage(cfg, PaymentMessage(p.mpe, p.channelID, p.channelNonce, p.amount), p.signature)
  }

  /** The signature authorises amount on the channel at nonce, in the name of signer. */
  ghost predicate Authorises(cfg: Config, signature: Option<Signature>, signer: Address, id: int, nonce: int, amount: int) {
    SignerOfMessage(cfg, PaymentMessage(cfg.mpe, id, nonce, amount), signature) == Some(signer)
  }

  // ------------------------------------------------ stored and chain state

  /** GetChannelStateFromBlockchain: a channel paying somebody else is an error. */
  function FromBlockchain(cfg: Config, id: int, read: ChainRead): Result<Option<ChannelData>, PaymentErrorCode> {
    match read
    case Unreadable => Failure(Internal)
    case Missing => Success(None)
    case Found(ch) =>
      if cfg.recipient != ch.recipient then Failure(Internal)
      else Success(Some(ChannelData(id, ch.nonce, Open, ch.sender, ch.recipient, ch.groupID,
                                    ch.value, ch.expiration, ch.signer, 0, None)))
  }

  function Merge(storage: ChannelData, blockchain: ChannelData): ChannelData {
    if storage.nonce > blockchain.nonce then storage
    else if storage.nonce < blockchain.nonce then blockchain
    else storage.(fullAmount := blockchain.fullAmount, expiration := blockchain.expiration)
  }

  /**
    PaymentChannel: the group is checked only while the channel is not in the storage, and
    a failing blockchain read falls back to the stored record.
   */
  function Resolve(cfg: Config, id: int, stored: Option<ChannelData>, read: ChainRead): Result<Option<ChannelData>, PaymentErrorCode> {
    var chain := FromBlockchain(cfg, id, read);
    match stored
    case None =>
      if chain.Success? && chain.value.Some? && chain.value.value.groupID != cfg.groupID then Failure(Internal)
      else chain
    case Some(record) =>
      if chain.Failure? || chain.value.None? then Success(Some(record))
      else Success(Some(Merge(record, chain.value.value)))
  }

  // ------------------------------------------------------------ validation

  /** ChannelPaymentValidator.Validate; block is None when the current block is unknown. */
  function Validate(cfg: Config, payment: Payment, channel: ChannelData, block: Option<nat>): Result<nat, PaymentErrorCode> {
    if payment.channelNonce != channel.nonce then Failure(IncorrectNonce)
    else
      var signer := SignerOfPayment(cfg, payment);
      if signer.None? then Failure(Unauthenticated)
      else if signer.value != channel.signer then Failure(Unauthenticated)
      else if block.None? then Failure(Internal)
      else if block.value + cfg.threshold >= channel.expiration then Failure(Unauthenticated)
      else if channel.fullAmount < payment.amount then Failure(Unauthenticated)
      else Success(block.value)
  }

  predicate IncomeIsPrice(cfg: Config, payment: Payment, channel: ChannelData) {
    payment.amount - channel.authorizedAmount == cfg.price
  }

  // ----------------------------------------------- updates of stored record

  /** The record Commit writes: the channel the payment was checked against, newly authorised. */
  function Paid(channel: ChannelData, payment: Payment): ChannelData {
    channel.(authorizedAmount := payment.amount, signature := payment.signature)
  }

  function IncrementNonce(channel: ChannelData): ChannelData {
    channel.(nonce := channel.nonce + 1,
             fullAmount := channel.fullAmount - channel.authorizedAmount,
             authorizedAmount := 0,
             signature := None)
  }

  /** getPaymentFromChannel leaves the contract address zero. */
  function ClaimOf(channel: ChannelData): Payment {
    Payment(ZERO_ADDRESS, channel.channelID, channel.nonce, channel.authorizedAmount, channel.signature)
  }

  // --------------------------------------------------- facts about merging

  /**
    The merged channel never has an older nonce than either side; an amount authorised at
    the merged nonce is never dropped, and at the chain's own nonce the amount deposited
    and the expiration are the chain's.
   */
  lemma MergeKeepsNewest(storage: ChannelData, blockchain: ChannelData)
    ensures var m := Merge(storage, blockchain);
            && m.nonce >= storage.nonce && m.nonce >= blockchain.nonce
            && (m.nonce == storage.nonce || m.nonce == blockchain.nonce)
            && (m.nonce == storage.nonce ==>
                  m.authorizedAmount == storage.authorizedAmount && m.signature == storage.signature && m.signer == storage.signer)
            && (m.nonce == blockchain.nonce ==>
                  m.fullAmount == blockchain.fullAmount && m.expiration == blockchain.expiration)
            && (m.nonce > storage.nonce ==> m == blockchain)
            && (m.nonce > blockchain.nonce ==> m == storage)
  {}

  /** The record of a channel just read from the blockchain: nothing is authorised yet. */
  predicate FreshRecord(r: ChannelData, id: int, ch: ChainChannel) {
    && SameChannel(r, id, ch)
    && r.nonce == ch.nonce && r.fullAmount == ch.value && r.expiration == ch.expiration
    && r.authorizedAmount == 0 && r.signature == None
  }

  /** The parts of a record that never change. */
  predicate SameChannel(r: ChannelData, id: int, ch: ChainChannel) {
    && r.channelID == id && r.state == Open
    && r.sender == ch.sender && r.recipient == ch.recipient && r.groupID == ch.groupID && r.signer == ch.signer
  }

  /** The channel pays this daemon and belongs to its group of replicas. */
  predicate Ours(cfg: Config, ch: ChainChannel) {
    ch.recipient == cfg.recipient && ch.groupID == cfg.groupID
  }

  /** A channel that is not stored is taken from the blockchain if it is this daemon's, and is unknown if it is on neither. */
  lemma ResolveNew(cfg: Config, id: int, read: ChainRead)
    ensures Resolve(cfg, id, None, read) == Success(None) <==> read == Missing
    ensures (Resolve(cfg, id, None, read).Success? && read != Missing) <==> (read.Found? && Ours(cfg, read.channel))
    ensures forall r :: Resolve(cfg, id, None, read) == Success(Some(r)) ==> FreshRecord(r, id, read.channel)
  {}

  /**
    A stored channel is always found. It is the stored record itself unless the blockchain
    could be read, pays this daemon, and is not behind it: then deposit and expiration are
    the chain's, and so is everything if the chain is ahead.
   */
  lemma ResolveStored(cfg: Config, id: int, r: ChannelData, read: ChainRead)
    ensures Resolve(cfg, id, Some(r), read).Success? && Resolve(cfg, id, Some(r), read).value.Some?
    ensures var m := Resolve(cfg, id, Some(r), read).value.value;
            var current := read.Found? && read.channel.recipient == cfg.recipient && read.channel.nonce >= r.nonce;
            && (!current ==> m == r)
            && (current && read.channel.nonce > r.nonce ==> FreshRecord(m, id, read.channel))
            && (current && read.channel.nonce == r.nonce ==>
                  && m.fullAmount == read.channel.value && m.expiration == read.channel.expiration
                  && m.(fullAmount := r.fullAmount, expiration := r.expiration) == r)
  {}

  // ------------------------------------------------- facts about validation

  /** The signer's address can be computed and is the channel's. */
  predicate SignedByChannel(cfg: Config, payment: Payment, channel: ChannelData) {
    SignerOfPayment(cfg, payment) == Some(channel.signer)
  }

  /**
    A payment is accepted exactly if its nonce is the channel's, the channel's signer signed
    it, and at a block that was read the expiration is further than the threshold and the
    deposit suffices. Each refusal has the code of the first of these that fails.
   */
  lemma ValidateAcceptsIff(cfg: Config, payment: Payment, channel: ChannelData, block: Option<nat>)
    ensures Validate(cfg, payment, channel, block).Success? <==>
              && payment.channelNonce == channel.nonce && SignedByChannel(cfg, payment, channel)
              && block.Some? && block.value + cfg.threshold < channel.expiration && payment.amount <= channel.fullAmount
    ensures Validate(cfg, payment, channel, block).Success? ==> block == Some(Validate(cfg, payment, channel, block).value)
    ensures Validate(cfg, payment, channel, block) == Failure(IncorrectNonce) <==> payment.channelNonce != channel.nonce
    ensures Validate(cfg, payment, channel, block) == Failure(Internal) <==>
              payment.channelNonce == channel.nonce && SignedByChannel(cfg, payment, channel) && block.None?
    ensures Validate(cfg, payment, channel, block) != Failure(FailedPrecondition)
  {}

  // ------------------------------------------------- facts about signatures

  predicate InRange(p: Payment) {
    0 <= p.channelID < WORD_LIMIT && 0 <= p.channelNonce < WORD_LIMIT && 0 <= p.amount < WORD_LIMIT
  }

  /**
    Only signatures of 65 bytes are read. The last byte counts modulo 27, so the two usual
    ways to write it mean the same; one below 27 is handed to key recovery as it is.
   */
  lemma SignatureReading(cfg: Config, message: seq<byte>, a: Signature, b: Signature)
    ensures |a| != 65 ==> SignerOfMessage(cfg, message, Some(a)) == None
    ensures |a| == 65 && a[64] < 27 ==> SignerOfMessage(cfg, message, Some(a)) == cfg.recover(message, a)
    ensures |a| == |b| == 65 && a[..64] == b[..64] && a[64] % 27 == b[64] % 27 ==>
              SignerOfMessage(cfg, message, Some(a)) == SignerOfMessage(cfg, message, Some(b))
  {
    if |a| == 65 && a[64] < 27 {
      assert a[..64] + [a[64]] == a;
    }
  }

  /** Key recovery gives this address for the signature on this message and on no other. */
  ghost predicate RecoversOnly(cfg: Config, signature: Signature, signer: Address, message: seq<byte>) {
    |signature| == 65 && signature[64] < 27
    && forall m :: cfg.recover(m, signature) == Some(signer) <==> m == message
  }

  /**
    A signature is good for one payment: if recovery gives the signer only for the bytes of
    contract, channel, nonce and amount of p, then a payment with that signature passes
    validation exactly if it has the contract, channel, nonce and amount of p.
   */
  lemma SignatureIsForOnePayment(cfg: Config, p: Payment, q: Payment, signature: Signature, channel: ChannelData, block: nat)
    requires InRange(p) && InRange(q) && q.signature == Some(signature)
    requires RecoversOnly(cfg, signature, channel.signer,
                          p.mpe + BigIntToBytes(p.channelID) + BigIntToBytes(p.channelNonce) + BigIntToBytes(p.amount))
    requires q.channelNonce == channel.nonce && block + cfg.threshold < channel.expiration && q.amount <= channel.fullAmount
    ensures Validate(cfg, q, channel, Some(block)).Success? <==>
              q.mpe == p.mpe && q.channelID == p.channelID && q.channelNonce == p.channelNonce && q.amount == p.amount
  {
    SignatureReading(cfg, PaymentMessage(q.mpe, q.channelID, q.channelNonce, q.amount), signature, signature);
    PaymentMessageInjective(q.mpe, q.channelID, q.channelNonce, q.amount, p.mpe, p.channelID, p.channelNonce, p.amount);
    forall v | 0 <= v < WORD_LIMIT ensures Abs(v) % WORD_LIMIT == v {
      ModUnique(0, WORD_LIMIT, v);
    }
  }
}
