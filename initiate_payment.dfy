/** The initiate-payment workflow: ask the provider to open a transaction and,
    only when it accepts, store a new pending payment for it. */
module InitiatePayment {
  import opened Errors
  import opened UniqueEntityIds
  import opened PaymentEntity
  import opened PaymentProviders
  import opened InMemoryPaymentRepositories

  datatype InitiatePaymentInput = InitiatePaymentInput(
    amount: real,
    currency: PaymentCurrency,
    paymentMethod: PaymentMethod,
    productId: string)

  datatype InitiatePaymentOutput = InitiatePaymentOutput(paymentId: string, status: string)

  /** The request sent to the provider: amount and currency under `money`,
      the method as `payment_method`, and the product id; each input field can
      be read back from it. */
  function ProviderRequest(input: InitiatePaymentInput): (request: PaymentProviderInput)
    ensures request.money.amount == input.amount
    ensures ParseCurrency(request.money.currency) == Some(input.currency)
    ensures ParseMethod(request.paymentMethod) == Some(input.paymentMethod)
    ensures request.productId == input.productId
  {
    PaymentProviderInput(Money(input.amount, CurrencyName(input.currency)), MethodName(input.paymentMethod), input.productId)
  }

  /** The payment stored for an accepted request. */
  function NewPaymentState(id: string, input: InitiatePaymentInput, txId: string, now: Timestamp): PaymentState
  {
    PaymentState(id, input.amount, input.currency, input.paymentMethod, Pending, input.productId, now, txId)
  }

  class InitiatePaymentUseCase {
    const provider: RecordingProvider
    const repository: InMemoryPaymentRepository

    constructor (provider: RecordingProvider, repository: InMemoryPaymentRepository)
      ensures this.provider == provider && this.repository == repository
    {
      this.provider := provider;
      this.repository := repository;
    }

    /** `execute(input)`. `generated` is the identifier the new payment draws
        from `new UniqueEntityId()` and `now` is the clock. */
    method Execute(input: InitiatePaymentInput, generated: EntityId, now: Timestamp)
      returns (result: Result<InitiatePaymentOutput>)
      requires repository.Valid()
      modifies provider, repository
      ensures repository.Valid()
      // the provider is asked exactly once, and only to initiate
      ensures provider.initiateCalls == old(provider.initiateCalls) + [ProviderRequest(input)]
      ensures provider.statusCalls == old(provider.statusCalls)
      // a thrown error goes to the caller as it is; a null answer, or any
      // status but "processed", is a provider failure; either way nothing is stored
      ensures var reply := provider.initiateReply(ProviderRequest(input));
        !Accepted(reply) ==>
          && result == (if reply.Threw? then Failure(reply.error) else Failure(ProviderRejected))
          && unchanged(repository)
          && repository.Contents() == old(repository.Contents())
      // otherwise a new pending payment, carrying the provider's txId, is
      // stored under the generated UUID, replacing any entry with that id
      ensures var reply := provider.initiateReply(ProviderRequest(input));
        Accepted(reply) ==>
          var id := generated.ToString();
          && result == Success(InitiatePaymentOutput(id, "pending"))
          && id in repository.payments && fresh(repository.payments[id])
          && repository.payments == old(repository.payments)[id := repository.payments[id]]
          && repository.keys == (if id in old(repository.payments) then old(repository.keys) else old(repository.keys) + [id])
          && repository.Contents() == old(repository.Contents())[id := NewPaymentState(id, input, reply.response.txId, now)]
    {
      var reply := provider.Initiate(ProviderRequest(input));
      if reply.Threw? {
        return Failure(reply.error);
      }
      if !Accepted(reply) {
        return Failure(ProviderRejected);
      }
      var props := PaymentProperties(
        input.amount, input.currency, input.paymentMethod, Pending, input.productId, Some(now), reply.response.txId);
      var payment := new Payment(props, None, generated, now);
      assert payment.State() == NewPaymentState(payment.Id(), input, reply.response.txId, now);
      // the store is as the call found it; naming that view keeps the proof small
      ghost var before := repository.Contents();
      assert before == old(repository.Contents());
      repository.Save(payment);
      result := Success(InitiatePaymentOutput(payment.Id(), StatusName(Pending)));
    }
  }
}
