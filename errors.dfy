/** The errors the payment core raises, and the failure-carrying results its
    operations return in place of throwing. */
module Errors {

  /** Every error the core raises or lets through. */
  datatype DomainError =
    /** A supplied identifier is not a well-formed UUID; carries the rejected value. */
    | InvalidUuid(value: string)
    /** No stored payment has this id. */
    | PaymentNotFound(id: string)
    /** The provider did not accept a payment request. */
    | ExternalProviderPayment(message: string)
    /** Any other error (one a provider throws, a runtime TypeError), kept as it was raised. */
    | Thrown(name: string, message: string)

  /** The message an `ExternalProviderPaymentError` gets when none is supplied. */
  const DefaultProviderMessage: string := "Payment provider failed to process the request"

  /** The error the workflows raise when the provider's answer is not a success. */
  const ProviderRejected: DomainError := ExternalProviderPayment(DefaultProviderMessage)

  /** A value, or the error that stopped the operation producing it. */
  datatype Result<+T> = Success(value: T) | Failure(error: DomainError)

  /** The outcome of an operation that returns nothing. */
  datatype Outcome = Pass | Fail(error: DomainError)

  datatype Option<+T> = None | Some(value: T)
}
