/** Client code that runs the store and the two workflows on fresh objects,
    one behaviour per method, and states what the caller observes. Each
    follows one example the repository's unit tests exercise. */
module Scenarios {
  import opened Errors
  import opened UniqueEntityIds
  import opened PaymentEntity
  import opened PaymentProviders
  import opened InMemoryPaymentRepositories
  import opened InitiatePayment
  import opened CheckPaymentStatus

  /** A payment saved in a fresh store is found again by its id. */
  method SaveThenFind(props: PaymentProperties, generated: EntityId, now: Timestamp)
    returns (saved: Payment, found: Payment?)
    ensures found == saved
  {
    saved := new Payment(props, None, generated, now);
    var repository := new InMemoryPaymentRepository();
    repository.Save(saved);
    found := repository.FindById(saved.Id());
  }

  /** Updating a payment that was never saved fails and stores nothing. */
  method UpdateWithoutSave(props: PaymentProperties, generated: EntityId, now: Timestamp)
    returns (outcome: Outcome, stored: nat)
    ensures outcome == Fail(PaymentNotFound(generated.ToString()))
    ensures stored == 0
  {
    var payment := new Payment(props, None, generated, now);
    var repository := new InMemoryPaymentRepository();
    outcome := repository.Update(payment);
    var all := repository.FindAll();
    stored := |all|;
  }

  /** A fresh store lists nothing; after saving two payments with different
      ids it lists both, in the order they were saved. */
  method SaveTwoThenFindAll(first: Payment, second: Payment)
    returns (before: seq<Payment>, after: seq<Payment>)
    requires first.Id() != second.Id()
    ensures before == []
    ensures after == [first, second]
  {
    var repository := new InMemoryPaymentRepository();
    before := repository.FindAll();
    repository.Save(first);
    assert second.Id() !in repository.payments;
    repository.Save(second);
    assert repository.keys == [first.Id(), second.Id()];
    after := repository.FindAll();
    assert after[0] == first && after[1] == second;
  }

  /** The provider accepts: the caller gets the new id with "pending", the
      provider got one request, and the store holds one pending payment with
      the provider's txId. */
  method InitiateAccepted(productId: string, txId: string, generated: EntityId, now: Timestamp)
    returns (result: Result<InitiatePaymentOutput>, requests: seq<PaymentProviderInput>, stored: seq<Payment>)
    ensures result == Success(InitiatePaymentOutput(generated.ToString(), "pending"))
    ensures requests == [PaymentProviderInput(Money(150.0, "BRL"), "PIX", productId)]
    ensures |stored| == 1
    ensures stored[0].State() == PaymentState(generated.ToString(), 150.0, Brl, Pix, Pending, productId, now, txId)
  {
    var provider := new RecordingProvider(
      (_: PaymentProviderInput) => Responded(PaymentProviderResponse("processed", txId)),
      (_: string) => NoResponse);
    var repository := new InMemoryPaymentRepository();
    var usecase := new InitiatePaymentUseCase(provider, repository);
    result := usecase.Execute(InitiatePaymentInput(150.0, Brl, Pix, productId), generated, now);
    requests := provider.initiateCalls;
    stored := repository.FindAll();
  }

  /** The provider answers with `reply`, which is not an acceptance: the
      workflow fails (with the provider's own error when it threw) and the
      store stays empty. */
  method InitiateRefused(reply: ProviderReply, productId: string, generated: EntityId, now: Timestamp)
    returns (result: Result<InitiatePaymentOutput>, stored: seq<Payment>)
    requires !(reply.Responded? && reply.response.status == "processed")
    ensures result == if reply.Threw? then Failure(reply.error) else Failure(ProviderRejected)
    ensures stored == []
  {
    var provider := new RecordingProvider((_: PaymentProviderInput) => reply, (_: string) => NoResponse);
    var repository := new InMemoryPaymentRepository();
    var usecase := new InitiatePaymentUseCase(provider, repository);
    result := usecase.Execute(InitiatePaymentInput(150.0, Brl, Pix, productId), generated, now);
    stored := repository.FindAll();
  }

  /** A pending payment the provider reports as processed: the caller gets
      "processed", the provider was asked once about the payment's txId, and
      the stored payment is now processed. */
  method CheckPendingThatSettled(txId: string, generated: EntityId, now: Timestamp)
    returns (result: Result<CheckPaymentStatusOutput>, asked: seq<string>, stored: PaymentStatus)
    ensures result == Success(CheckPaymentStatusOutput(generated.ToString(), "processed"))
    ensures asked == [txId]
    ensures stored == Processed
  {
    var payment := new Payment(PaymentProperties(100.0, Brl, Pix, Pending, "product", Some(now), txId), None, generated, now);
    var repository := new InMemoryPaymentRepository();
    repository.Save(payment);
    assert repository.Contents() == map[payment.Id() := payment.State()];
    var provider := new RecordingProvider(
      (_: PaymentProviderInput) => NoResponse,
      (t: string) => Responded(PaymentProviderResponse("processed", t)));
    var usecase := new CheckPaymentStatusUseCase(provider, repository);
    result := usecase.Execute(payment.Id());
    asked := provider.statusCalls;
    var found := repository.FindById(payment.Id());
    stored := found.status;
  }

  /** A pending payment the provider still reports as pending: the caller
      gets "pending" and the stored payment stays pending. */
  method CheckPendingStillPending(txId: string, generated: EntityId, now: Timestamp)
    returns (result: Result<CheckPaymentStatusOutput>, asked: seq<string>, stored: PaymentStatus)
    ensures result == Success(CheckPaymentStatusOutput(generated.ToString(), "pending"))
    ensures asked == [txId]
    ensures stored == Pending
  {
    var payment := new Payment(PaymentProperties(100.0, Brl, Pix, Pending, "product", Some(now), txId), None, generated, now);
    var repository := new InMemoryPaymentRepository();
    repository.Save(payment);
    assert repository.Contents() == map[payment.Id() := payment.State()];
    var provider := new RecordingProvider(
      (_: PaymentProviderInput) => NoResponse,
      (t: string) => Responded(PaymentProviderResponse("pending", t)));
    var usecase := new CheckPaymentStatusUseCase(provider, repository);
    result := usecase.Execute(payment.Id());
    asked := provider.statusCalls;
    var found := repository.FindById(payment.Id());
    stored := found.status;
  }

  /** A payment already processed is answered from the store: the provider
      is never asked. */
  method CheckAlreadyProcessed(txId: string, generated: EntityId, now: Timestamp)
    returns (result: Result<CheckPaymentStatusOutput>, asked: seq<string>)
    ensures result == Success(CheckPaymentStatusOutput(generated.ToString(), "processed"))
    ensures asked == []
  {
    var payment := new Payment(PaymentProperties(100.0, Brl, Pix, Processed, "product", Some(now), txId), None, generated, now);
    var repository := new InMemoryPaymentRepository();
    repository.Save(payment);
    assert repository.Contents() == map[payment.Id() := payment.State()];
    var provider := new RecordingProvider(
      (_: PaymentProviderInput) => NoResponse,
      (t: string) => Responded(PaymentProviderResponse("pending", t)));
    var usecase := new CheckPaymentStatusUseCase(provider, repository);
    result := usecase.Execute(payment.Id());
    asked := provider.statusCalls;
  }

  /** An id nothing was saved under is reported as not found, and the
      provider is never asked. */
  method CheckUnknown(paymentId: string)
    returns (result: Result<CheckPaymentStatusOutput>, asked: seq<string>)
    ensures result == Failure(PaymentNotFound(paymentId))
    ensures asked == []
  {
    var repository := new InMemoryPaymentRepository();
    var provider := new RecordingProvider(
      (_: PaymentProviderInput) => NoResponse,
      (t: string) => Responded(PaymentProviderResponse("processed", t)));
    var usecase := new CheckPaymentStatusUseCase(provider, repository);
    result := usecase.Execute(paymentId);
    asked := provider.statusCalls;
  }
}
