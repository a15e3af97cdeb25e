/** The check-status workflow: reconcile a stored payment with the provider,
    without asking the provider about a payment that is already processed. */
module CheckPaymentStatus {
  import opened Errors
  import opened PaymentEntity
  import opened PaymentProviders
  import opened InMemoryPaymentRepositories

  datatype CheckPaymentStatusOutput = CheckPaymentStatusOutput(paymentId: string, status: string)

  /** The error a JavaScript runtime raises when the workflow reads `status`
      from a `null` provider answer; the exact wording is the runtime's. */
  const NullStatusRead: DomainError := Thrown("TypeError", "Cannot read properties of null (reading 'status')")

  /** The stored state after the provider reported `reported` for a pending payment. */
  function Reconciled(stored: PaymentState, reported: string): PaymentState
  {
    if reported == SuccessStatus then stored.(status := Processed) else stored
  }

  /** What one status check does, given the store before it and the
      provider's answers: its result, the txIds it asked the provider about,
      and the store after it. */
  datatype CheckEffect = CheckEffect(result: Result<CheckPaymentStatusOutput>, queried: seq<string>, store: Store)

  /** The status check as a function of the store. The store keeps its ids,
      a processed payment stays processed, only the entry for `paymentId` can
      change and then only to processed, the provider is asked at most once
      and only about a stored pending payment, and a successful result names
      `paymentId` with the provider's status or the stored final one. */
  function CheckStatus(store: Store, paymentId: string, statusReply: string -> ProviderReply): (e: CheckEffect)
    ensures e.store.Keys == store.Keys
    ensures StatusesMonotone(store, e.store)
    ensures forall id | id in store && id != paymentId :: e.store[id] == store[id]
    ensures e.store != store ==>
      && e.store == store[paymentId := store[paymentId].(status := Processed)]
      && e.result == Success(CheckPaymentStatusOutput(paymentId, SuccessStatus))
    ensures paymentId !in store ==> e.result == Failure(PaymentNotFound(paymentId))
    ensures e.queried == (if paymentId in store && store[paymentId].status == Pending then [store[paymentId].txId] else [])
    ensures e.result.Success? ==> e.result.value.paymentId == paymentId
    ensures e.result.Success? && e.queried == [] ==> e.result.value.status == SuccessStatus
    ensures e.result.Success? && e.queried != [] ==>
      statusReply(e.queried[0]).Responded? && e.result.value.status == statusReply(e.queried[0]).response.status
    // a processed payment is answered from the store
    ensures paymentId in store && store[paymentId].status == Processed ==>
      e.result == Success(CheckPaymentStatusOutput(paymentId, SuccessStatus)) && e.store == store
    // a pending payment takes the provider's answer: its status goes to the
    // caller, and the payment becomes processed exactly when that status is
    // "processed"; a thrown error or a null answer fails and changes nothing
    ensures paymentId in store && store[paymentId].status == Pending ==>
      match statusReply(store[paymentId].txId)
      case Responded(r) =>
        && e.result == Success(CheckPaymentStatusOutput(paymentId, r.status))
        && (e.store[paymentId].status == Processed <==> r.status == SuccessStatus)
      case Threw(error) => e.result == Failure(error) && e.store == store
      case NoResponse => e.result == Failure(NullStatusRead) && e.store == store
  {
    if paymentId !in store then
      CheckEffect(Failure(PaymentNotFound(paymentId)), [], store)
    else
      var stored := store[paymentId];
      if stored.status == Processed then
        CheckEffect(Success(CheckPaymentStatusOutput(paymentId, StatusName(Processed))), [], store)
      else
        match statusReply(stored.txId)
        case Threw(error) => CheckEffect(Failure(error), [stored.txId], store)
        case NoResponse => CheckEffect(Failure(NullStatusRead), [stored.txId], store)
        case Responded(response) =>
          CheckEffect(
            Success(CheckPaymentStatusOutput(paymentId, response.status)),
            [stored.txId],
            store[paymentId := Reconciled(stored, response.status)])
  }

  /** A check that ended in "processed" settles the payment: checking it
      again asks the provider nothing and changes nothing. */
  lemma SecondCheckAnswersFromStore(store: Store, paymentId: string, statusReply: string -> ProviderReply)
    requires CheckStatus(store, paymentId, statusReply).result == Success(CheckPaymentStatusOutput(paymentId, SuccessStatus))
    ensures var first := CheckStatus(store, paymentId, statusReply);
      var second := CheckStatus(first.store, paymentId, statusReply);
      second == CheckEffect(first.result, [], first.store)
  {
  }

  class CheckPaymentStatusUseCase {
    const provider: RecordingProvider
    const repository: InMemoryPaymentRepository

    constructor (provider: RecordingProvider, repository: InMemoryPaymentRepository)
      ensures this.provider == provider && this.repository == repository
    {
      this.provider := provider;
      this.repository := repository;
    }

    /** `execute({paymentId})`. */
    method Execute(paymentId: string) returns (result: Result<CheckPaymentStatusOutput>)
      requires repository.Valid()
      modifies provider, repository, repository.payments.Values
      ensures repository.Valid()
      // the same payment objects stay stored under the same keys
      ensures repository.payments == old(repository.payments) && repository.keys == old(repository.keys)
      ensures provider.initiateCalls == old(provider.initiateCalls)
      ensures var e := CheckStatus(old(repository.Contents()), paymentId, provider.statusReply);
        && result == e.result
        && provider.statusCalls == old(provider.statusCalls) + e.queried
        && repository.Contents() == e.store
    {
      ghost var before := repository.Contents();
      var payment := repository.FindById(paymentId);
      if payment == null {
        assert paymentId !in before;
        return Failure(PaymentNotFound(paymentId));
      }
      ghost var stored := payment.State();
      assert paymentId in before && before[paymentId] == stored;
      if payment.status == Processed {
        return Success(CheckPaymentStatusOutput(payment.Id(), StatusName(payment.status)));
      }
      var reply := provider.GetStatus(payment.txId);
      assert repository.Contents() == before;
      if reply.Threw? {
        return Failure(reply.error);
      }
      if reply.NoResponse? {
        return Failure(NullStatusRead);
      }
      if reply.response.status == SuccessStatus {
        ghost var stores := repository.payments;
        label Found:
        payment.MarkAsProcessed();
        // the payment is the stored one: marking it already changes the store
        repository.ChangedAtMostAt@Found(paymentId);
        ghost var marked := repository.Contents();
        assert marked == before[paymentId := stored.(status := Processed)];
        var outcome := repository.Update(payment);
        // the id was found above and nothing removes entries, so this passes
        assert outcome == Pass;
        RewriteIsIdentity(stores, paymentId);
        RewriteIsIdentity(marked, paymentId);
      }
      assert repository.Contents() == before[paymentId := Reconciled(stored, reply.response.status)];
      result := Success(CheckPaymentStatusOutput(payment.Id(), reply.response.status));
    }
  }
}
