/** The payment provider port: what the workflows send to the external
    gateway and what they can get back, with a provider that answers by two
    fixed functions and records every call made to it. */
module PaymentProviders {
  import opened Errors

  datatype Money = Money(amount: real, currency: string)

  /** The request body for opening a transaction. */
  datatype PaymentProviderInput = PaymentProviderInput(money: Money, paymentMethod: string, productId: string)

  /** The provider's answer to both `initiate` and `getStatus`. */
  datatype PaymentProviderResponse = PaymentProviderResponse(status: string, txId: string)

  /** How a call to the provider ends: with an answer, with `null`, or by
      throwing an error. */
  datatype ProviderReply =
    | Responded(response: PaymentProviderResponse)
    | NoResponse
    | Threw(error: DomainError)

  /** The one status string the core treats as success. */
  const SuccessStatus: string := "processed"

  /** Whether an `initiate` answer opens a transaction: an answer, not `null`,
      whose status is the success status. */
  predicate Accepted(reply: ProviderReply)
  {
    reply.Responded? && reply.response.status == SuccessStatus
  }

  /** A provider whose answers are fixed functions of the request, and which
      keeps the list of calls made to it. Transport and the gateway itself are
      outside the model. */
  class RecordingProvider {
    const initiateReply: PaymentProviderInput -> ProviderReply
    const statusReply: string -> ProviderReply
    var initiateCalls: seq<PaymentProviderInput>
    var statusCalls: seq<string>

    constructor (initiateReply: PaymentProviderInput -> ProviderReply, statusReply: string -> ProviderReply)
      ensures this.initiateReply == initiateReply && this.statusReply == statusReply
      ensures initiateCalls == [] && statusCalls == []
    {
      this.initiateReply := initiateReply;
      this.statusReply := statusReply;
      initiateCalls := [];
      statusCalls := [];
    }

    /** `initiate(input)`: one call, recorded, answered by `initiateReply`. */
    method Initiate(input: PaymentProviderInput) returns (reply: ProviderReply)
      modifies this`initiateCalls
      ensures initiateCalls == old(initiateCalls) + [input]
      ensures reply == initiateReply(input)
    {
      initiateCalls := initiateCalls + [input];
      reply := initiateReply(input);
    }

    /** `getStatus(txId)`: one call, recorded, answered by `statusReply`. */
    method GetStatus(txId: string) returns (reply: ProviderReply)
      modifies this`statusCalls
      ensures statusCalls == old(statusCalls) + [txId]
      ensures reply == statusReply(txId)
    {
      statusCalls := statusCalls + [txId];
      reply := statusReply(txId);
    }
  }
}
