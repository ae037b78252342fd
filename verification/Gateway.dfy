/**
  The gRPC interceptor and the escrow payment handler: a call is served between taking a
  payment and completing it, and completion happens exactly once on every path.
 */
module Gateway {
  import opened Wrappers
  import opened Records
  import opened Ledger
  import opened Protocol
  import opened Service
  import opened Storage

  /** The service the daemon protects; the interceptor knows only how a call ended. */
  class ServiceHandler {
    ghost var runs: nat

    constructor ()
      ensures runs == 0
    {
      runs := 0;
    }

    method Handle() returns (result: HandlerResult)
      modifies this
      ensures runs == old(runs) + 1
    {
      runs := runs + 1;
      result := *;
    }
  }

  /** The bookkeeper's view of the channel now, and of a payment checked now. */
  function Before(sh: Shared): Books {
    Books(sh.stored, map[], 0, 0)
  }

  function PaidNow(sh: Shared, payment: Payment): Op {
    PayOp(payment, ReadOf(sh, Fine), sh.block)
  }

  lemma AdmissibleIff(cfg: Config, sh: Shared, payment: Payment)
    ensures var m := Validated(cfg, sh, payment);
            Admissible(cfg, payment.channelID, Before(sh), PaidNow(sh, payment)) <==>
              (payment.mpe == cfg.mpe && m.Some? && IncomeIsPrice(cfg, payment, m.value))
  {}

  class PaymentHandler {
    const service: PaymentChannelService

    constructor (service: PaymentChannelService)
      ensures this.service == service
    {
      this.service := service;
    }

    /**
      Starts a transaction and checks that the income is the price; a transaction with any
      other income is rolled back, or the channel would stay locked.
     */
    method Payment(payment: Payment, ghost sh: Shared)
      returns (transaction: PaymentTransaction?, code: PaymentErrorCode, ghost handle: Lock?, ghost steps: seq<Choice>)
      requires service.Valid() && service.Shows(sh, payment.channelID)
      modifies service.locker.storage
      ensures service.Valid() && service.OnlyChannel(payment.channelID)
      ensures handle != null ==> fresh(handle) && handle.unlocks == (if transaction == null then 1 else 0)
      ensures transaction != null ==>
                && fresh(transaction) && transaction.Ready() && transaction.service == service
                && transaction.payment == payment && transaction.lock == handle
                && payment.amount == transaction.channel.authorizedAmount + service.cfg.price
                && service.Covers(transaction.channel, payment)
      ensures service.Took(payment.channelID, sh, LockGet(Pay(payment)), steps,
                           if transaction != null then Call(transaction.tx) else Done(Refused(code)))
      ensures service.Reliable() ==> Smooth(steps)
      ensures service.Reliable() && LockFree(sh) && payment.mpe == service.cfg.mpe ==>
                (transaction != null <==> Admissible(service.cfg, payment.channelID, Before(sh), PaidNow(sh, payment)))
    {
      ghost var id, cfg, start, more := payment.channelID, service.cfg, LockGet(Pay(payment)), [];
      transaction, code, handle, steps := service.StartPaymentTransaction(payment, sh);
      AdmissibleIff(cfg, sh, payment);
      if transaction == null {
        return;
      }
      var accepted;
      accepted, more := CheckIncome(transaction, RunAlone(cfg, id, sh, start, steps).0);
      RunAloneAppend(cfg, id, sh, start, steps, more);
      steps := steps + more;
      if !accepted {
        transaction, code := null, Unauthenticated;
      }
    }

    /** The income check; a transaction that fails it is rolled back. */
    method CheckIncome(transaction: PaymentTransaction, ghost sh: Shared) returns (accepted: bool, ghost steps: seq<Choice>)
      requires transaction.service == service && transaction.Ready()
      requires service.Valid() && service.Shows(sh, transaction.payment.channelID)
      modifies service.locker.storage, transaction.lock`unlocks
      ensures service.Valid() && service.OnlyChannel(transaction.payment.channelID)
      ensures transaction.lock.unlocks == old(transaction.lock.unlocks) + (if accepted then 0 else 1)
      ensures accepted <==> transaction.payment.amount == transaction.channel.authorizedAmount + service.cfg.price
      ensures service.Reliable() ==> Smooth(steps)
      ensures service.Took(transaction.payment.channelID, sh, PriceCheck(transaction.tx), steps,
                           if accepted then Call(transaction.tx) else Done(Refused(Unauthenticated)))
    {
      ghost var id, cfg, start := transaction.payment.channelID, service.cfg, PriceCheck(transaction.tx);
      accepted := transaction.payment.amount - transaction.channel.authorizedAmount == service.cfg.price;
      RunAloneNext(cfg, id, sh, start, [], FINE);
      steps := [] + [FINE];
      if !accepted {
        ghost var more := transaction.Rollback(sh, Refused(Unauthenticated));
        RunAloneAppend(cfg, id, sh, start, steps, more);
        steps := steps + more;
      }
    }
  }

  lemma CallFirst(cfg: Config, id: int, sh: Shared, tx: Tx, result: HandlerResult, more: seq<Choice>)
    ensures RunAlone(cfg, id, sh, Call(tx), [Choice(Fine, result)] + more) == RunAlone(cfg, id, sh, AfterCall(tx, result), more)
    ensures Smooth(more) ==> NoFaults([Choice(Fine, result)] + more)
  {
    RunAloneNext(cfg, id, sh, Call(tx), [], Choice(Fine, result));
    assert [] + [Choice(Fine, result)] == [Choice(Fine, result)];
    RunAloneAppend(cfg, id, sh, Call(tx), [Choice(Fine, result)], more);
  }

  class PaymentInterceptor {
    const payments: PaymentHandler

    constructor (payments: PaymentHandler)
      ensures this.payments == payments
    {
      this.payments := payments;
    }

    /**
      Serves one call; request is None when the metadata holds no well-formed payment. The
      call is a run of Protocol's payment request. The service runs at most once and only
      with the lock held, the lock is released exactly once if it was acquired, and the
      channel record is written only if the service left neither an error nor a panic to
      recover; so it is also written for a service that vanished.
     */
    method Intercept(request: Option<Payment>, handler: ServiceHandler, ghost sh: Shared)
      returns (outcome: Option<Outcome>, ghost handled: Option<HandlerResult>, ghost handle: Lock?, ghost steps: seq<Choice>)
      requires payments.service.Valid()
      requires request.Some? ==> payments.service.Shows(sh, request.value.channelID)
      modifies payments.service.storage, payments.service.locker.storage, handler
      ensures payments.service.Valid()
      ensures request.None? <==> outcome.None?
      ensures request.None? ==> handle == null && handled.None? && steps == []
      ensures request.Some? ==>
                && payments.service.Took(request.value.channelID, sh, LockGet(Pay(request.value)), steps, Done(outcome.value))
                && payments.service.OnlyChannel(request.value.channelID)
      ensures handler.runs == old(handler.runs) + (if handled.Some? then 1 else 0)
      ensures handle != null ==> fresh(handle) && handle.unlocks == 1
      ensures handled.Some? ==> handle != null
      ensures payments.service.Reliable() && request.Some? ==>
                && NoFaults(steps)
                && (outcome == Some(Served) <==> handled == Some(Completed) || handled == Some(Vanished))
                && (LockFree(sh) && request.value.mpe == payments.service.cfg.mpe ==>
                      (handled.Some? <==>
                       Admissible(payments.service.cfg, request.value.channelID, Before(sh), PaidNow(sh, request.value))))
      ensures handled == Some(ReturnedError) ==> outcome == Some(ServiceFailed)
      ensures handled == Some(Panicked) ==> outcome == Some(ServicePanicked)
      ensures payments.service.storage.data != old(payments.service.storage.data) ==> handled.Some? && LooksDone(handled.value)
      ensures outcome == Some(Served) ==>
                && handled.Some? && LooksDone(handled.value)
                && request.value.channelID in payments.service.storage.data
                && payments.service.storage.data[request.value.channelID].authorizedAmount == request.value.amount
    {
      outcome, handled, handle, steps := None, None, null, [];
      if request.None? {
        return;
      }
      var payment := request.value;
      ghost var more;
      var transaction, code, ended;
      transaction, code, handle, steps := payments.Payment(payment, sh);
      if transaction == null {
        outcome := Some(Refused(code));
        return;
      }
      ghost var start := LockGet(Pay(payment));
      ghost var sh1 := RunAlone(payments.service.cfg, payment.channelID, sh, start, steps).0;
      ended, handled, more := CallAndComplete(transaction, handler, sh1);
      outcome := Some(ended);
      RunAloneAppend(payments.service.cfg, payment.channelID, sh, start, steps, more);
      steps := steps + more;
    }

    /** Calls the service and, deferred past its result, completes the payment. */
    method CallAndComplete(transaction: PaymentTransaction, handler: ServiceHandler, ghost sh: Shared)
      returns (outcome: Outcome, ghost handled: Option<HandlerResult>, ghost steps: seq<Choice>)
      requires transaction.Ready() && transaction.service.Valid()
      requires transaction.service.Shows(sh, transaction.payment.channelID)
      modifies transaction.service.storage, transaction.service.locker.storage, transaction.lock`unlocks, handler
      ensures transaction.service.Valid() && transaction.service.OnlyChannel(transaction.payment.channelID)
      ensures handled.Some? && handler.runs == old(handler.runs) + 1
      ensures transaction.service.Reliable() ==> NoFaults(steps) && (outcome == Served <==> handled == Some(Completed) || handled == Some(Vanished))
      ensures handled == Some(ReturnedError) ==> outcome == ServiceFailed
      ensures handled == Some(Panicked) ==> outcome == ServicePanicked
      ensures transaction.lock.unlocks == old(transaction.lock.unlocks) + 1
      ensures transaction.service.Took(transaction.payment.channelID, sh, Call(transaction.tx), steps, Done(outcome))
      ensures transaction.service.storage.data != old(transaction.service.storage.data) ==> LooksDone(handled.value)
      ensures outcome == Served ==>
                && LooksDone(handled.value)
                && transaction.service.storage.data
                   == old(transaction.service.storage.data)[transaction.payment.channelID := Paid(transaction.channel, transaction.payment)]
    {
      ghost var id, cfg, more := transaction.payment.channelID, transaction.service.cfg, [];
      var result := handler.Handle();
      handled := Some(result);
      outcome, more := Complete(transaction, result, sh);
      steps := [Choice(Fine, result)] + more;
      CallFirst(cfg, id, sh, transaction.tx, result, more);
    }

    /** The deferred function: Complete, CompleteAfterError, or the latter and a new panic. */
    method Complete(transaction: PaymentTransaction, result: HandlerResult, ghost sh: Shared)
      returns (outcome: Outcome, ghost steps: seq<Choice>)
      requires transaction.Ready() && transaction.service.Valid()
      requires transaction.service.Shows(sh, transaction.payment.channelID)
      modifies transaction.service.storage, transaction.service.locker.storage, transaction.lock`unlocks
      ensures transaction.service.Valid() && transaction.service.OnlyChannel(transaction.payment.channelID)
      ensures transaction.lock.unlocks == old(transaction.lock.unlocks) + 1
      ensures transaction.service.Took(transaction.payment.channelID, sh, AfterCall(transaction.tx, result), steps, Done(outcome))
      ensures !LooksDone(result) ==> transaction.service.storage.data == old(transaction.service.storage.data)
      ensures transaction.service.Reliable() ==> Smooth(steps) && (outcome == Served <==> result == Completed || result == Vanished)
      ensures result == ReturnedError ==> outcome == ServiceFailed
      ensures result == Panicked ==> outcome == ServicePanicked
      ensures outcome == Served ==>
                && LooksDone(result)
                && transaction.service.storage.data
                   == old(transaction.service.storage.data)[transaction.payment.channelID := Paid(transaction.channel, transaction.payment)]
    {
      match result {
        case Completed | Vanished =>
          var err;
          err, steps := transaction.Commit(sh);
          outcome := if err then Refused(Internal) else Served;
        case ReturnedError =>
          outcome := ServiceFailed;
          steps := transaction.Rollback(sh, ServiceFailed);
        case Panicked =>
          outcome := ServicePanicked;
          steps := transaction.Rollback(sh, ServicePanicked);
      }
    }
  }
}
