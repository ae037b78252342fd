/**
  The provider's side: listing what can be claimed, starting a claim, removing claims the
  blockchain already has, and the operator's command that frees a stuck channel.
 */
module Control {
  import opened Wrappers
  import opened Encoding
  import opened Keys
  import opened Records
  import opened Protocol
  import opened Service
  import opened Storage

  const TWO_63: int := 0x8000_0000_0000_0000
  const TWO_64: int := 0x1_0000_0000_0000_0000

  /** big.Int.Int64: the low 64 bits of the magnitude, read as a signed word, then the sign. */
  function Int64(v: int): int {
    var low := Abs(v) % TWO_64;
    var word := if low >= TWO_63 then low - TWO_64 else low;
    if v < 0 && word != -TWO_63 then -word else word
  }

  datatype PaymentReply = PaymentReply(
    channelID: seq<byte>,
    channelNonce: seq<byte>,
    signedAmount: seq<byte>,
    signature: Option<Signature>
  )

  function ReplyOf(p: Payment): PaymentReply {
    PaymentReply(BigIntToBytes(p.channelID), BigIntToBytes(p.channelNonce), BigIntToBytes(p.amount), p.signature)
  }

  /** What the provider reads from a reply: the words decode to these three numbers. */
  predicate Tells(r: PaymentReply, channelID: int, nonce: int, amount: int) {
    && BytesToBigInt(r.channelID) == channelID && BytesToBigInt(r.channelNonce) == nonce
    && BytesToBigInt(r.signedAmount) == amount
  }

  /** A reply tells channel, nonce and amount of its payment, if these are uint256 values, and has its signature. */
  lemma ReplyTells(p: Payment)
    ensures Tells(ReplyOf(p), p.channelID, p.channelNonce, p.amount) <==> InRange(p)
    ensures ReplyOf(p).signature == p.signature
  {
    RoundTrip(p.channelID);
    RoundTrip(p.channelNonce);
    RoundTrip(p.amount);
  }

  // ---------------------------------------------------------------- listing

  /** The replies for the channels with something to claim; signatures are left out here. */
  function Unclaimed(channels: seq<ChannelData>): seq<PaymentReply> {
    if channels == [] then []
    else
      var c := channels[|channels| - 1];
      Unclaimed(channels[..|channels| - 1])
      + if Int64(c.authorizedAmount) == 0 then [] else [ReplyOf(ClaimOf(c)).(signature := None)]
  }

  /** The replies for the claims in progress that carry a signature and an amount. */
  function InProgress(payments: seq<Payment>): seq<PaymentReply> {
    if payments == [] then []
    else
      var p := payments[|payments| - 1];
      InProgress(payments[..|payments| - 1]) + if p.signature.None? || Int64(p.amount) == 0 then [] else [ReplyOf(p)]
  }

  /** The test for a zero amount sees only 64 bits: it is exact below 2^64 and wrong on larger multiples. */
  lemma Int64ZeroIff(v: int)
    ensures Int64(v) == 0 <==> Abs(v) % TWO_64 == 0
    ensures 0 <= v < TWO_64 ==> (Int64(v) == 0 <==> v == 0)
    ensures Int64(TWO_64) == 0
  {}

  /** The zero test sees this amount. */
  predicate Seen(v: int) {
    Abs(v) % TWO_64 != 0
  }

  lemma SeenIff(v: int)
    ensures Seen(v) <==> Int64(v) != 0
  {}

  /** A channel is listed exactly when its authorised amount is not a multiple of 2^64. */
  lemma {:induction false} UnclaimedListed(channels: seq<ChannelData>, r: PaymentReply)
    ensures r in Unclaimed(channels) <==>
              exists i | 0 <= i < |channels| ::
                Seen(channels[i].authorizedAmount) && r == ReplyOf(ClaimOf(channels[i])).(signature := None)
  {
    if channels != [] {
      var init, c := channels[..|channels| - 1], channels[|channels| - 1];
      UnclaimedListed(init, r);
      SeenIff(c.authorizedAmount);
      assert forall i | 0 <= i < |init| :: init[i] == channels[i];
    }
  }

  /** So everything there is to claim is listed exactly when no positive amount is such a multiple. */
  lemma {:induction false} UnclaimedComplete(channels: seq<ChannelData>)
    requires forall i | 0 <= i < |channels| :: channels[i].authorizedAmount >= 0
    ensures |Unclaimed(channels)| <= Positive(channels)
    ensures |Unclaimed(channels)| == Positive(channels) <==>
              forall i | 0 <= i < |channels| && channels[i].authorizedAmount > 0 :: Seen(channels[i].authorizedAmount)
  {
    if channels != [] {
      var init, c := channels[..|channels| - 1], channels[|channels| - 1];
      UnclaimedComplete(init);
      SeenIff(c.authorizedAmount);
      assert forall i | 0 <= i < |init| :: init[i] == channels[i];
    }
  }

  /** Every reply of the list tells channel, nonce and amount of some stored channel, if these are uint256 values. */
  lemma UnclaimedTells(channels: seq<ChannelData>, r: PaymentReply)
    requires r in Unclaimed(channels)
    ensures exists c | c in channels ::
              && Seen(c.authorizedAmount) && r.signature == None
              && (InRange(ClaimOf(c)) ==> Tells(r, c.channelID, c.nonce, c.authorizedAmount))
  {
    UnclaimedListed(channels, r);
    var i :| 0 <= i < |channels| && Seen(channels[i].authorizedAmount) && r == ReplyOf(ClaimOf(channels[i])).(signature := None);
    ReplyTells(ClaimOf(channels[i]));
    assert channels[i] in channels;
  }

  /** Every reply of the list tells channel, nonce, amount and signature of some claim. */
  lemma InProgressTells(payments: seq<Payment>, r: PaymentReply)
    requires r in InProgress(payments)
    ensures exists p | p in payments ::
              && Seen(p.amount) && r.signature == p.signature && p.signature.Some?
              && (InRange(p) ==> Tells(r, p.channelID, p.channelNonce, p.amount))
  {
    InProgressListed(payments, r);
    var i :| 0 <= i < |payments| && payments[i].signature.Some? && Seen(payments[i].amount) && r == ReplyOf(payments[i]);
    ReplyTells(payments[i]);
    assert payments[i] in payments;
  }

  /** A claim is listed exactly when it is signed and its amount is not a multiple of 2^64. */
  lemma {:induction false} InProgressListed(payments: seq<Payment>, r: PaymentReply)
    ensures r in InProgress(payments) <==>
              exists i | 0 <= i < |payments| ::
                payments[i].signature.Some? && Seen(payments[i].amount) && r == ReplyOf(payments[i])
  {
    if payments != [] {
      var init, p := payments[..|payments| - 1], payments[|payments| - 1];
      InProgressListed(init, r);
      SeenIff(p.amount);
      assert forall i | 0 <= i < |init| :: init[i] == payments[i];
    }
  }

  /** So every claim is listed exactly when all are signed and no amount is such a multiple. */
  lemma {:induction false} InProgressComplete(payments: seq<Payment>)
    ensures |InProgress(payments)| <= |payments|
    ensures |InProgress(payments)| == |payments| <==>
              forall i | 0 <= i < |payments| :: payments[i].signature.Some? && Seen(payments[i].amount)
  {
    if payments != [] {
      var init, p := payments[..|payments| - 1], payments[|payments| - 1];
      InProgressComplete(init);
      SeenIff(p.amount);
      assert forall i | 0 <= i < |init| :: init[i] == payments[i];
    }
  }

  function Positive(channels: seq<ChannelData>): nat {
    if channels == [] then 0
    else Positive(channels[..|channels| - 1]) + if channels[|channels| - 1].authorizedAmount > 0 then 1 else 0
  }

  // --------------------------------------------------------- reconciliation

  /** The chain state of a payment's channel can be read as this daemon's channel. */
  predicate Known(cfg: Config, channels: map<int, ChainChannel>, p: Payment) {
    p.channelID in channels && channels[p.channelID].recipient == cfg.recipient
  }

  predicate Stale(cfg: Config, channels: map<int, ChainChannel>, p: Payment) {
    Known(cfg, channels, p) && channels[p.channelID].nonce > p.channelNonce
  }

  /** after is before without some records that the blockchain has moved past. */
  ghost predicate Trimmed(cfg: Config, channels: map<int, ChainChannel>, before: map<string, Payment>, after: map<string, Payment>) {
    && (forall k | k in after :: k in before && after[k] == before[k])
    && (forall k | k in before && k !in after :: Stale(cfg, channels, before[k]))
  }

  lemma TrimmedFurther(cfg: Config, channels: map<int, ChainChannel>, before: map<string, Payment>, data: map<string, Payment>, p: Payment)
    requires Trimmed(cfg, channels, before, data)
    requires PaymentID(p.channelID, p.channelNonce) in before ==> before[PaymentID(p.channelID, p.channelNonce)] == p
    ensures Stale(cfg, channels, p) ==> Trimmed(cfg, channels, before, data - {PaymentID(p.channelID, p.channelNonce)})
  {}

  /** A pass over payments without storage or blockchain errors: it ends at the first unknown channel. */
  function Pass(cfg: Config, channels: map<int, ChainChannel>, data: map<string, Payment>, payments: seq<Payment>): map<string, Payment> {
    if payments == [] || !Known(cfg, channels, payments[0]) then data
    else
      var p := payments[0];
      Pass(cfg, channels, if Stale(cfg, channels, p) then data - {PaymentID(p.channelID, p.channelNonce)} else data, payments[1..])
  }

  /** Whether such a pass reports an error: only for another recipient's channel, not for a missing one. */
  predicate PassFails(cfg: Config, channels: map<int, ChainChannel>, payments: seq<Payment>) {
    payments != [] &&
    if Known(cfg, channels, payments[0]) then PassFails(cfg, channels, payments[1..]) else payments[0].channelID in channels
  }

  /** Payment i of the list ends a pass: its channel is the first one not known. */
  predicate StopsAt(cfg: Config, channels: map<int, ChainChannel>, payments: seq<Payment>, i: int)
    requires 0 <= i < |payments|
  {
    !Known(cfg, channels, payments[i]) && forall j | 0 <= j < i :: Known(cfg, channels, payments[j])
  }

  /** A pass reports an error exactly if the channel that ends it is on the blockchain. */
  lemma {:induction false} PassFailsIff(cfg: Config, channels: map<int, ChainChannel>, payments: seq<Payment>)
    ensures PassFails(cfg, channels, payments) <==>
              exists i | 0 <= i < |payments| :: StopsAt(cfg, channels, payments, i) && payments[i].channelID in channels
  {
    if payments != [] {
      var rest := payments[1..];
      PassFailsIff(cfg, channels, rest);
      if !Known(cfg, channels, payments[0]) {
        assert StopsAt(cfg, channels, payments, 0);
      } else {
        forall i | 0 < i < |payments| ensures StopsAt(cfg, channels, payments, i) <==> StopsAt(cfg, channels, rest, i - 1) {
          assert forall j | 0 <= j < |rest| :: rest[j] == payments[j + 1];
          assert forall j | 1 <= j < |payments| :: payments[j] == rest[j - 1];
        }
        if i :| 0 <= i < |rest| && StopsAt(cfg, channels, rest, i) && rest[i].channelID in channels {
          assert StopsAt(cfg, channels, payments, i + 1);
        }
      }
    }
  }

  /** The turn of payment i in a pass. */
  lemma PassTurn(cfg: Config, channels: map<int, ChainChannel>, data: map<string, Payment>, payments: seq<Payment>, i: nat)
    requires i < |payments|
    ensures var p := payments[i];
            var less := if Stale(cfg, channels, p) then data - {PaymentID(p.channelID, p.channelNonce)} else data;
            if Known(cfg, channels, p)
            then Pass(cfg, channels, data, payments[i..]) == Pass(cfg, channels, less, payments[i + 1..])
                 && PassFails(cfg, channels, payments[i..]) == PassFails(cfg, channels, payments[i + 1..])
            else Pass(cfg, channels, data, payments[i..]) == data
                 && PassFails(cfg, channels, payments[i..]) == (p.channelID in channels)
  {
    assert payments[i..][0] == payments[i] && payments[i..][1..] == payments[i + 1..];
  }

  /** What one turn does to the records and reports. */
  ghost predicate Turned(cfg: Config, channels: map<int, ChainChannel>, p: Payment,
                         before: map<string, Payment>, after: map<string, Payment>, stop: bool, err: bool, clean: bool) {
    var less := before - {PaymentID(p.channelID, p.channelNonce)};
    && (after == before || (Stale(cfg, channels, p) && after == less))
    && (!stop ==> clean && !err && Known(cfg, channels, p) && after == if Stale(cfg, channels, p) then less else before)
    && (stop && clean ==> !Known(cfg, channels, p) && (err <==> p.channelID in channels) && after == before)
  }

  /** The nonces of the listed payments of channel id, in order. */
  function Todo(payments: seq<Payment>, id: int): seq<int> {
    if payments == [] then []
    else (if payments[0].channelID == id then [payments[0].channelNonce] else []) + Todo(payments[1..], id)
  }

  lemma TodoNext(payments: seq<Payment>, i: nat, id: int)
    requires i < |payments|
    ensures Todo(payments[i..], id) == Todo([payments[i]], id) + Todo(payments[i + 1..], id)
  {
    assert payments[i..][0] == payments[i] && payments[i..][1..] == payments[i + 1..];
  }

  lemma {:induction false} TodoStored(payments: seq<Payment>, id: int, data: map<string, Payment>, sh: Shared)
    requires forall p | p in payments :: Lookup(data, PaymentID(p.channelID, p.channelNonce)) == Some(p)
    requires forall n :: Lookup(sh.payments, n) == Lookup(data, PaymentID(id, n))
    ensures forall n | n in Todo(payments, id) :: n in sh.payments
  {
    if payments != [] {
      TodoStored(payments[1..], id, data, sh);
      assert payments[0].channelID == id ==> Lookup(sh.payments, payments[0].channelNonce) == Some(payments[0]);
    }
  }

  /** The steps of reconciliation on channel id in the turn of payment p. */
  lemma TurnSteps(cfg: Config, id: int, sh: Shared, p: Payment, rest: seq<int>, read: Fault, finish: Option<Fault>)
    requires var known := sh.chain.Some? && sh.chain.value.recipient == cfg.recipient;
             p.channelID == id ==> (finish.Some? <==> read == Fine && known && sh.chain.value.nonce > p.channelNonce)
    ensures var known := sh.chain.Some? && sh.chain.value.recipient == cfg.recipient;
            var steps := [Choice(read, Completed)] + if finish.Some? then [Choice(finish.value, Completed)] else [];
            var stop := !(read == Fine && known) || (finish.Some? && finish.value != Fine);
            && (p.channelID == id ==>
                  RunAlone(cfg, id, sh, Reconcile(Todo([p], id) + rest), steps) ==
                  (if finish.Some? && finish.value != FailsBefore then sh.(payments := sh.payments - {p.channelNonce}) else sh,
                   if stop then Stopped else Reconcile(rest)))
            && (p.channelID != id ==> Todo([p], id) + rest == rest)
  {
    assert Todo([p], id) == if p.channelID == id then [p.channelNonce] else [];
    var start, first := Reconcile(Todo([p], id) + rest), [Choice(read, Completed)];
    RunAloneNext(cfg, id, sh, start, [], Choice(read, Completed));
    assert [] + first == first;
    if finish.Some? {
      RunAloneNext(cfg, id, sh, start, first, Choice(finish.value, Completed));
    } else {
      assert first + [] == first;
    }
  }

  /** Deleting one payment record is seen on its own channel, at its own nonce, and nowhere else. */
  lemma TurnSeen(id: int, payments: map<int, Payment>, data: map<string, Payment>, p: Payment)
    requires forall n :: Lookup(payments, n) == Lookup(data, PaymentID(id, n))
    ensures var less := data - {PaymentID(p.channelID, p.channelNonce)};
            forall n :: Lookup(if p.channelID == id then payments - {p.channelNonce} else payments, n) == Lookup(less, PaymentID(id, n))
  {
    PaymentIDUnique(p.channelID, p.channelNonce);
  }

  /** Payment i of the list is reached by a pass, and the chain has moved past it. */
  predicate DeletedAt(cfg: Config, channels: map<int, ChainChannel>, payments: seq<Payment>, i: int)
    requires 0 <= i < |payments|
  {
    Stale(cfg, channels, payments[i]) && forall j | 0 <= j < i :: Known(cfg, channels, payments[j])
  }

  lemma DeletedLater(cfg: Config, channels: map<int, ChainChannel>, payments: seq<Payment>, i: int)
    requires 0 < i < |payments| && Known(cfg, channels, payments[0])
    ensures DeletedAt(cfg, channels, payments, i) <==> DeletedAt(cfg, channels, payments[1..], i - 1)
  {
    var rest := payments[1..];
    assert forall j | 0 <= j < |rest| :: rest[j] == payments[j + 1];
    assert forall j | 1 <= j < |payments| :: payments[j] == rest[j - 1];
  }

  /** The list has the record under this key, where a pass deletes it. */
  predicate Deleted(cfg: Config, channels: map<int, ChainChannel>, payments: seq<Payment>, key: string) {
    exists i | 0 <= i < |payments| ::
      DeletedAt(cfg, channels, payments, i) && PaymentID(payments[i].channelID, payments[i].channelNonce) == key
  }

  lemma DeletedFirstOrLater(cfg: Config, channels: map<int, ChainChannel>, payments: seq<Payment>, key: string)
    requires payments != []
    ensures Deleted(cfg, channels, payments, key) <==>
              (Stale(cfg, channels, payments[0]) && PaymentID(payments[0].channelID, payments[0].channelNonce) == key)
              || (Known(cfg, channels, payments[0]) && Deleted(cfg, channels, payments[1..], key))
  {
    var rest := payments[1..];
    if Stale(cfg, channels, payments[0]) && PaymentID(payments[0].channelID, payments[0].channelNonce) == key {
      assert DeletedAt(cfg, channels, payments, 0);
    }
    if Known(cfg, channels, payments[0]) {
      forall i | 0 < i < |payments| ensures DeletedAt(cfg, channels, payments, i) <==> DeletedAt(cfg, channels, rest, i - 1) {
        DeletedLater(cfg, channels, payments, i);
      }
      if Deleted(cfg, channels, rest, key) {
        var i :| 0 <= i < |rest| && DeletedAt(cfg, channels, rest, i)
                 && PaymentID(rest[i].channelID, rest[i].channelNonce) == key;
        assert DeletedAt(cfg, channels, payments, i + 1) && payments[i + 1] == rest[i];
      }
    }
  }

  /** A pass deletes a record exactly if it is stale and no unknown channel is listed before it. */
  lemma {:induction false} PassDeletes(cfg: Config, channels: map<int, ChainChannel>, data: map<string, Payment>, payments: seq<Payment>, key: string)
    ensures key in Pass(cfg, channels, data, payments) <==> key in data && !Deleted(cfg, channels, payments, key)
    ensures key in Pass(cfg, channels, data, payments) ==> Pass(cfg, channels, data, payments)[key] == data[key]
  {
    if payments != [] {
      DeletedFirstOrLater(cfg, channels, payments, key);
      var p := payments[0];
      var less := if Stale(cfg, channels, p) then data - {PaymentID(p.channelID, p.channelNonce)} else data;
      PassDeletes(cfg, channels, less, payments[1..], key);
    }
  }

  /**
    After a pass over all records, exactly the records are left that the blockchain has not
    moved past, if and only if no stale record is listed after one of an unknown channel.
   */
  lemma PassCompleteIff(cfg: Config, channels: map<int, ChainChannel>, data: map<string, Payment>, keys: seq<string>, payments: seq<Payment>)
    requires Enumerates(data, keys, payments)
    requires forall k | k in data :: k == PaymentID(data[k].channelID, data[k].channelNonce)
    ensures (forall k :: k in Pass(cfg, channels, data, payments) <==> k in data && !Stale(cfg, channels, data[k])) <==>
            (forall i, j | 0 <= j < i < |payments| && Stale(cfg, channels, payments[i]) :: Known(cfg, channels, payments[j]))
  {
    forall k ensures k in Pass(cfg, channels, data, payments) <==> k in data && !Deleted(cfg, channels, payments, k) {
      PassDeletes(cfg, channels, data, payments, k);
    }
    forall i | 0 <= i < |payments|
      ensures keys[i] == PaymentID(payments[i].channelID, payments[i].channelNonce)
      ensures Deleted(cfg, channels, payments, keys[i]) <==> DeletedAt(cfg, channels, payments, i)
    {
      assert data[keys[i]] == payments[i];
    }
  }

  /** Read without errors now, the channel exists and its authorised amount passes the zero test. */
  predicate Claimable(cfg: Config, id: int, sh: Shared) {
    var m := Resolve(cfg, id, sh.stored, ReadOf(sh, Fine));
    m.Success? && m.value.Some? && Int64(m.value.value.authorizedAmount) != 0
  }

  /** For a stored channel that is so exactly if the test sees its amount and the blockchain has not overtaken the record. */
  lemma ClaimableIff(cfg: Config, id: int, sh: Shared)
    requires sh.stored.Some?
    ensures var r := sh.stored.value;
            var overtaken := sh.chain.Some? && sh.chain.value.recipient == cfg.recipient && sh.chain.value.nonce > r.nonce;
            Claimable(cfg, id, sh) <==> Seen(r.authorizedAmount) && !overtaken
  {
    ResolveStored(cfg, id, sh.stored.value, ReadOf(sh, Fine));
    var m := Resolve(cfg, id, sh.stored, ReadOf(sh, Fine)).value.value;
    SeenIff(m.authorizedAmount);
  }

  datatype ClaimReply = Started(reply: PaymentReply) | NotStarted | NilDereference

  class ProviderControlService {
    const service: PaymentChannelService

    constructor (service: PaymentChannelService)
      ensures this.service == service
    {
      this.service := service;
    }

    method ListChannels() returns (replies: seq<PaymentReply>, err: bool, ghost channels: seq<ChannelData>, ghost keys: seq<int>)
      ensures service.Reliable() ==> !err
      ensures !err ==> Enumerates(service.storage.data, keys, channels) && replies == Unclaimed(channels)
      ensures !err ==> forall r | r in replies :: exists c | c in channels ::
                         && Seen(c.authorizedAmount) && r.signature == None
                         && (InRange(ClaimOf(c)) ==> Tells(r, c.channelID, c.nonce, c.authorizedAmount))
    {
      var found;
      replies := [];
      found, err, keys := service.storage.GetAll();
      channels := found;
      if err {
        return;
      }
      for i := 0 to |found|
        invariant replies == Unclaimed(found[..i])
      {
        assert found[..i + 1][..i] == found[..i];
        var channel := found[i];
        if Int64(channel.authorizedAmount) == 0 {
          continue;
        }
        replies := replies + [PaymentReply(BigIntToBytes(channel.channelID), BigIntToBytes(channel.nonce),
                                           BigIntToBytes(channel.authorizedAmount), None)];
      }
      assert found[..|found|] == found;
      forall r | r in replies {
        UnclaimedTells(found, r);
      }
    }

    method ListClaims() returns (replies: seq<PaymentReply>, err: bool, ghost payments: seq<Payment>, ghost keys: seq<string>)
      ensures service.Reliable() ==> !err
      ensures !err ==> Enumerates(service.paymentStorage.data, keys, payments) && replies == InProgress(payments)
      ensures !err ==> forall r | r in replies :: exists p | p in payments ::
                         && Seen(p.amount) && r.signature == p.signature && p.signature.Some?
                         && (InRange(p) ==> Tells(r, p.channelID, p.channelNonce, p.amount))
    {
      var claims;
      replies := [];
      claims, err, keys := service.ListClaims();
      payments := Payments(claims);
      if err {
        return;
      }
      for i := 0 to |claims|
        invariant replies == InProgress(payments[..i])
      {
        assert payments[..i + 1][..i] == payments[..i];
        var payment := claims[i].payment;
        if payment.signature.None? || Int64(payment.amount) == 0 {
          continue;
        }
        replies := replies + [PaymentReply(BigIntToBytes(payment.channelID), BigIntToBytes(payment.channelNonce),
                                           BigIntToBytes(payment.amount), payment.signature)];
      }
      assert payments[..|payments|] == payments;
      forall r | r in replies {
        InProgressTells(payments, r);
      }
    }

    /**
      Deletes only records the blockchain has moved past. Without storage and blockchain
      errors it makes exactly one Pass; it reports no error when a channel is not found,
      although later records are then not looked at. Seen from any one channel id, it makes
      the steps of Protocol's reconciliation over the stored payments of that channel.
     */
    method RemoveClaimedPayments(ghost id: int, ghost sh: Shared)
      returns (err: bool, ghost clean: bool, ghost payments: seq<Payment>, ghost keys: seq<string>, ghost steps: seq<Choice>, ghost end: Proc)
      requires service.Valid() && service.Shows(sh, id)
      modifies service.paymentStorage
      ensures service.Valid()
      ensures Trimmed(service.cfg, service.blockchain.channels, old(service.paymentStorage.data), service.paymentStorage.data)
      ensures clean ==>
                && Enumerates(old(service.paymentStorage.data), keys, payments)
                && service.paymentStorage.data == Pass(service.cfg, service.blockchain.channels, old(service.paymentStorage.data), payments)
                && err == PassFails(service.cfg, service.blockchain.channels, payments)
      ensures service.Reliable() ==> clean
      ensures forall n | n in Todo(payments, id) :: n in sh.payments
      ensures service.Took(id, sh, Reconcile(Todo(payments, id)), steps, end) && (end.Stopped? || end.Reconcile?)
    {
      var claims;
      clean, payments, steps, end := true, [], [], Reconcile([]);
      claims, err, keys := service.ListClaims();
      if err {
        clean := false;
        return;
      }
      payments := Payments(claims);
      forall i | 0 <= i < |payments|
        ensures Lookup(service.paymentStorage.data, PaymentID(payments[i].channelID, payments[i].channelNonce)) == Some(payments[i])
      {
        assert service.paymentStorage.data[keys[i]] == payments[i];
      }
      TodoStored(payments, id, service.paymentStorage.data, sh);
      err, clean, steps, end := FinishPassed(claims, payments, id, sh);
    }

    /** The loop over the claims in progress. */
    method FinishPassed(claims: seq<Claim>, ghost payments: seq<Payment>, ghost id: int, ghost sh: Shared)
      returns (err: bool, ghost clean: bool, ghost steps: seq<Choice>, ghost end: Proc)
      requires service.Valid() && service.Shows(sh, id) && |claims| == |payments|
      requires forall p | p in payments :: Lookup(service.paymentStorage.data, PaymentID(p.channelID, p.channelNonce)) == Some(p)
      requires forall i | 0 <= i < |claims| :: claims[i].payment == payments[i] && claims[i].paymentStorage == service.paymentStorage
      modifies service.paymentStorage
      ensures service.Valid()
      ensures Trimmed(service.cfg, service.blockchain.channels, old(service.paymentStorage.data), service.paymentStorage.data)
      ensures clean ==>
                && service.paymentStorage.data == Pass(service.cfg, service.blockchain.channels, old(service.paymentStorage.data), payments)
                && err == PassFails(service.cfg, service.blockchain.channels, payments)
      ensures service.Reliable() ==> clean
      ensures service.Took(id, sh, Reconcile(Todo(payments, id)), steps, end) && (end.Stopped? || end.Reconcile?)
    {
      err, clean, steps, end := false, true, [], Reconcile(Todo(payments, id));
      ghost var cfg, channels, before, start := service.cfg, service.blockchain.channels, service.paymentStorage.data, end;
      for i := 0 to |claims|
        invariant service.Valid() && !err && clean
        invariant Trimmed(cfg, channels, before, service.paymentStorage.data)
        invariant Pass(cfg, channels, service.paymentStorage.data, payments[i..]) == Pass(cfg, channels, before, payments)
        invariant PassFails(cfg, channels, payments[i..]) == PassFails(cfg, channels, payments)
        invariant service.Took(id, sh, start, steps, end) && end == Reconcile(Todo(payments[i..], id))
      {
        TrimmedFurther(cfg, channels, before, service.paymentStorage.data, payments[i]);
        PassTurn(cfg, channels, service.paymentStorage.data, payments, i);
        TodoNext(payments, i, id);
        ghost var turn;
        var stop;
        stop, err, clean, turn, end := Turn(claims[i], id, RunAlone(cfg, id, sh, start, steps).0, Todo(payments[i + 1..], id));
        RunAloneAppend(cfg, id, sh, start, steps, turn);
        steps := steps + turn;
        if stop {
          return;
        }
      }
    }

    /** One turn of the loop, as channel id sees it: only the turns of its own payments are steps. */
    method Turn(claim: Claim, ghost id: int, ghost sh: Shared, ghost rest: seq<int>)
      returns (stop: bool, err: bool, ghost clean: bool, ghost steps: seq<Choice>, ghost end: Proc)
      requires service.Valid() && service.Shows(sh, id) && claim.paymentStorage == service.paymentStorage
      modifies service.paymentStorage
      ensures service.Valid()
      ensures Turned(service.cfg, service.blockchain.channels, claim.payment, old(service.paymentStorage.data), service.paymentStorage.data,
                     stop, err, clean)
      ensures service.Reliable() ==> clean
      ensures service.Took(id, sh, Reconcile(Todo([claim.payment], id) + rest), steps, end)
      ensures end == Reconcile(rest) || (stop && end == Stopped)
    {
      ghost var read, finish;
      stop, err, clean, read, finish := FinishIfClaimed(claim);
      steps := if claim.payment.channelID != id then [] else [Choice(read, Completed)] + if finish.Some? then [Choice(finish.value, Completed)] else [];
      end := if claim.payment.channelID == id && stop then Stopped else Reconcile(rest);
      TurnSteps(service.cfg, id, sh, claim.payment, rest, read, finish);
      TurnSeen(id, sh.payments, old(service.paymentStorage.data), claim.payment);
    }

    /** Stop when the channel is not found or an operation reports an error; finish a claim the chain has passed. */
    method FinishIfClaimed(claim: Claim) returns (stop: bool, err: bool, ghost clean: bool, ghost read: Fault, ghost finish: Option<Fault>)
      requires service.Valid() && claim.paymentStorage == service.paymentStorage
      modifies service.paymentStorage
      ensures service.Valid()
      ensures Turned(service.cfg, service.blockchain.channels, claim.payment, old(service.paymentStorage.data), service.paymentStorage.data,
                     stop, err, clean)
      ensures service.Reliable() ==> clean
      ensures finish.Some? <==> read == Fine && Stale(service.cfg, service.blockchain.channels, claim.payment)
      ensures stop <==> !(read == Fine && Known(service.cfg, service.blockchain.channels, claim.payment)) || (finish.Some? && finish.value != Fine)
      ensures service.paymentStorage.data ==
              if finish.Some? && finish.value != FailsBefore
              then old(service.paymentStorage.data) - {PaymentID(claim.payment.channelID, claim.payment.channelNonce)}
              else old(service.paymentStorage.data)
    {
      var found;
      stop, err, clean, finish := true, false, true, None;
      found, read := service.blockchain.ReadChannel(claim.payment.channelID);
      var channel := FromBlockchain(service.cfg, claim.payment.channelID, found);
      if channel.Failure? || channel.value.None? {
        err, clean := channel.Failure?, read == Fine;
        return;
      }
      if channel.value.value.nonce > claim.payment.channelNonce {
        ghost var fault;
        err, fault := claim.Finish();
        finish := Some(fault);
        if err {
          clean := false;
          return;
        }
      }
      stop := false;
    }

    /**
      Starts a claim if the channel has something to claim. A channel that is neither stored
      nor on the blockchain is dereferenced although it was not found.
     */
    method BeginClaimOnChannel(id: int, ghost sh: Shared)
      returns (reply: ClaimReply, ghost payment: Option<Payment>, ghost handle: Lock?, ghost steps: seq<Choice>)
      requires service.Valid() && service.Shows(sh, id)
      modifies service.storage, service.paymentStorage, service.locker.storage
      ensures service.Valid() && service.OnlyChannel(id)
      ensures handle != null ==> fresh(handle) && handle.unlocks == 1
      ensures reply.NilDereference? ==> id !in old(service.storage.data) && id !in service.blockchain.channels
      ensures reply.Started? <==> payment.Some?
      ensures payment.Some? ==>
                && reply.reply == ReplyOf(payment.value) && reply.reply.signature == payment.value.signature
                && (InRange(payment.value) ==>
                      Tells(reply.reply, payment.value.channelID, payment.value.channelNonce, payment.value.amount))
                && Moved(id, old(service.storage.data), service.storage.data, payment.value)
                && service.Took(id, sh, LockGet(Job.Claim), steps, Done(ClaimStarted(payment.value)))
                && Int64(payment.value.amount) != 0
      ensures service.Reliable() ==>
                && Smooth(steps)
                && (reply.NilDereference? <==> id !in old(service.storage.data) && id !in service.blockchain.channels)
                && (LockFree(sh) ==> (reply.Started? <==> id in old(service.storage.data) && Claimable(service.cfg, id, sh)))
    {
      reply, payment, handle, steps := NotStarted, None, null, [];
      var latest, err;
      ghost var get, chain;
      latest, err, get, chain := service.PaymentChannel(id);
      if err {
        return;
      }
      if latest.None? {
        reply := NilDereference;
        return;
      }
      if Int64(latest.value.authorizedAmount) == 0 {
        return;
      }
      reply, payment, handle, steps := StartAndReply(id, sh);
    }

    /** The claim itself, once there seems to be something to claim. */
    method StartAndReply(id: int, ghost sh: Shared)
      returns (reply: ClaimReply, ghost payment: Option<Payment>, ghost handle: Lock?, ghost steps: seq<Choice>)
      requires service.Valid() && service.Shows(sh, id)
      modifies service.storage, service.paymentStorage, service.locker.storage
      ensures service.Valid() && service.OnlyChannel(id)
      ensures handle != null ==> fresh(handle) && handle.unlocks == 1
      ensures !reply.NilDereference? && (reply.Started? <==> payment.Some?)
      ensures payment.Some? ==>
                && reply.reply == ReplyOf(payment.value) && reply.reply.signature == payment.value.signature
                && (InRange(payment.value) ==>
                      Tells(reply.reply, payment.value.channelID, payment.value.channelNonce, payment.value.amount))
                && Moved(id, old(service.storage.data), service.storage.data, payment.value)
                && service.Took(id, sh, LockGet(Job.Claim), steps, Done(ClaimStarted(payment.value)))
      ensures service.Reliable() ==> Smooth(steps) && (LockFree(sh) ==> (payment.Some? <==> id in old(service.storage.data)))
    {
      var claim;
      reply, payment := NotStarted, None;
      claim, handle, steps := service.StartClaim(id, sh);
      if claim == null {
        return;
      }
      payment := Some(claim.payment);
      ReplyTells(claim.payment);
      reply := Started(PaymentReply(BigIntToBytes(id), BigIntToBytes(claim.payment.channelNonce),
                                    BigIntToBytes(claim.payment.amount), claim.payment.signature));
    }
  }

  // ------------------------------------------------------- operator's command

  class ChannelCommand {
    const storage: Store<string, string>

    constructor (storage: Store<string, string>)
      ensures this.storage == storage
    {
      this.storage := storage;
    }

    /** Deletes the lock key of the channel if there is one; the lock's value is not looked at. */
    method UnlockChannel(id: int, ghost cfg: Config, ghost sh: Shared) returns (err: bool, ghost steps: seq<Choice>)
      requires sh.lock == Lookup(storage.data, ChannelKeyString(id))
      modifies storage
      ensures RunAlone(cfg, id, sh, OperatorGet, steps) == (sh.(lock := Lookup(storage.data, ChannelKeyString(id))), Stopped)
      ensures forall name | name != ChannelKeyString(id) :: Lookup(storage.data, name) == Lookup(old(storage.data), name)
      ensures !err ==> ChannelKeyString(id) !in storage.data
      ensures storage.reliable ==> Smooth(steps) && !err
    {
      ghost var fault;
      var value;
      value, err, fault := storage.Get(ChannelKeyString(id));
      RunAloneNext(cfg, id, sh, OperatorGet, [], Choice(fault, Completed));
      steps := [] + [Choice(fault, Completed)];
      assert sh.(lock := Lookup(storage.data, ChannelKeyString(id))) == sh;
      if err || value.None? {
        return;
      }
      err, fault := storage.Delete(ChannelKeyString(id));
      RunAloneNext(cfg, id, sh, OperatorGet, steps, Choice(fault, Completed));
      steps := steps + [Choice(fault, Completed)];
    }
  }
}
