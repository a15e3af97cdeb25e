# cartwave payment core in Dafny

A model of the payment core of the cartwave payment API. The API opens a
payment with an external payment gateway, keeps it as a *pending* payment,
and later reconciles it to *processed* when the gateway reports it settled.
The model covers these parts:

- **UniqueEntityId** (`unique_entity_id.dfy`): the identifier value object. It
  takes the supplied id or else a generated version-4 UUID, then validates it.
  `Create` returns a `Result` where the source throws `InvalidUuidError`. The
  generator is `GenerateV4`: 16 random bytes become a parameter, the version
  and variant bits are set, and the bytes are printed as 8-4-4-4-12 hex.
- **Payment** (`payment_entity.dfy`): a `class` whose fields are the payment's
  properties. Only `status` is a `var`, because `markAsProcessed` changes it in
  place. `State()` gives all getters at once as a value.
- **InMemoryPaymentRepository** (`in_memory_payment_repository.dfy`): a `class`
  holding a `map` from id to the *payment object*. A payment fetched from the
  store is the stored object itself, so changing it changes the store.
  `keys` records the order in which keys were first inserted; a JavaScript
  `Map` iterates in that order. `Contents()` is the ghost value view:
  the state each stored payment reports now.
- **The provider port** (`payment_provider.dfy`): `RecordingProvider` stands
  in for the gateway. Each call either answers, answers `null` or throws.
  The answer is a fixed function of the request, and every call is recorded.
- **InitiatePaymentUseCase** (`initiate_payment.dfy`): it calls the provider
  once. It stores a new pending payment only when the answer's status is
  `"processed"`. A thrown provider error passes through unchanged. A `null`
  answer or any other status becomes `ExternalProviderPaymentError`.
- **CheckPaymentStatusUseCase** (`check_payment_status.dfy`): the function
  `CheckStatus` specifies the workflow on the store's value view. The method
  `Execute` runs it on the objects and is proved equal to `CheckStatus`.
- **CreatePaymentDto** (`create_payment_dto.dfy`): the request body's field
  constraints, and the workflow input a valid body becomes.
- **Errors** (`errors.dfy`): `DomainError` lists the error classes.
  `Result`/`Outcome` take the place of exceptions.
- **Scenarios** (`scenarios.dfy`): client methods that build fresh objects
  and follow the repository's unit-test examples. Their `ensures` state what
  the caller observes.

`async` calls are modelled as ordinary sequential calls. The clock is a
`now: Timestamp` parameter. The identifier that `new UniqueEntityId()`
produces inside `new Payment` is a `generated: EntityId` parameter;
`UniqueEntityIds.Create` says which identifiers it can be.

## Model

| member | source | states |
|---|---|---|
| UniqueEntityIds.Create | src/core/domain/entities/unique-entity-id.ts:7-18 | an absent or empty id is replaced by a generated v4 UUID; a supplied UUID is kept as given; any other supplied string fails with InvalidUuid carrying that string; every identifier produced has a UUID value |
| UniqueEntityIds.CreateAcceptsOwnValue | src/core/domain/entities/unique-entity-id.ts:7-22 | constructing from an identifier's own `toString()` gives that identifier back |
| UniqueEntityIds.StringifyIsUuid | src/core/domain/entities/unique-entity-id.ts:8 | any 16 bytes print as a well-formed 8-4-4-4-12 UUID string |
| UniqueEntityIds.GeneratedIsVersion4Uuid | src/core/domain/entities/unique-entity-id.ts:8 | every generated id is a valid UUID whose version digit is 4 and whose variant digit is 8, 9, a or b, whatever the random bytes |
| UniqueEntityIds.Hex | src/core/domain/entities/unique-entity-id.ts:8 | the hex form of n bytes has 2n characters, all hex digits |
| PaymentEntity.ParseStatus | src/core/domain/entities/payment.entity.ts:3 | exactly "pending" and "processed" are statuses, each naming one status |
| PaymentEntity.ParseMethod | src/core/domain/entities/payment.entity.ts:4 | exactly "PAYPAL", "PIX" and "CREDIT_CARD" are methods, each naming one method |
| PaymentEntity.ParseCurrency | src/core/domain/entities/payment.entity.ts:5 | exactly "BRL", "USD" and "EUR" are currencies, each naming one currency |
| PaymentEntity.Payment.constructor | src/core/domain/entities/payment.entity.ts:21-28 | the id is the supplied one or else a generated one, and is always a UUID; every property is kept as given, status included; createdAt defaults to the current time |
| PaymentEntity.Payment.Id | src/core/domain/entities/payment.entity.ts:30-32 | a payment's id is always a valid UUID |
| PaymentEntity.Payment.MarkAsProcessed | src/core/domain/entities/payment.entity.ts:62-64 | the status becomes processed whatever it was and nothing else changes, so a second call changes nothing |
| PaymentProviders.RecordingProvider.Initiate | src/core/domain/ports/payment-provider.port.ts:21 | one call: it is recorded, and the answer is the provider's answer to that request |
| PaymentProviders.RecordingProvider.GetStatus | src/core/domain/ports/payment-provider.port.ts:22 | one call: it is recorded, and the answer is the provider's answer for that txId |
| InMemoryPaymentRepositories.DistinctCount | src/infra/db/in-memory-payment.repository.ts:24-26 | a list without repeats has as many entries as the set it lists, which is why `findAll` returns as many payments as there are ids |
| InMemoryPaymentRepositories.InMemoryPaymentRepository.constructor | src/infra/db/in-memory-payment.repository.ts:7 | a new store is empty |
| InMemoryPaymentRepositories.InMemoryPaymentRepository.ChangedAtMostAt | src/core/application/usecases/check-payment-status.usecase.ts:41 | changing the payment fetched under one id changes the store's view at that id and nowhere else: the store holds the object itself |
| InMemoryPaymentRepositories.InMemoryPaymentRepository.Save | src/infra/db/in-memory-payment.repository.ts:9-11 | the payment is stored under its id and replaces any earlier entry for that id; a new id goes to the end of the iteration order and an existing one keeps its place; no other entry changes; the store stays keyed by id |
| InMemoryPaymentRepositories.InMemoryPaymentRepository.Update | src/infra/db/in-memory-payment.repository.ts:13-18 | an id not in the store fails with PaymentNotFound for that id and changes nothing; otherwise it acts as save does on an existing id |
| InMemoryPaymentRepositories.InMemoryPaymentRepository.FindById | src/infra/db/in-memory-payment.repository.ts:20-22 | null exactly when no payment has that id; otherwise the stored object, whose id is the one asked for |
| InMemoryPaymentRepositories.InMemoryPaymentRepository.FindAll | src/infra/db/in-memory-payment.repository.ts:24-26 | every stored payment exactly once, nothing else, in first-insertion order of the ids |
| InitiatePayment.ProviderRequest | src/core/application/usecases/initiate-payment.usecase.ts:31-38 | the request carries the amount, the currency name, the method name and the product id, and each input field can be read back from it |
| InitiatePayment.InitiatePaymentUseCase.Execute | src/core/application/usecases/initiate-payment.usecase.ts:30-60 | the provider is asked once, to initiate; a thrown error is passed on as it is, a null answer or a status other than "processed" gives ExternalProviderPaymentError, and in both cases nothing is stored; on success a new pending payment object, with the input's fields and the provider's txId, is stored under the generated UUID, replacing any entry with that id (a new id goes to the end of `findAll`'s order), no other entry changes, and the result is that id with "pending" |
| CheckPaymentStatus.CheckStatus | src/core/application/usecases/check-payment-status.usecase.ts:22-49 | an unknown id gives PaymentNotFound; a processed payment is answered "processed" from the store, with no provider call and no change; for a pending payment the provider is asked once, about its txId: an answer goes to the caller with its status, and the payment becomes processed exactly when that status is "processed", while a thrown error passes unchanged and a null answer gives a TypeError, both changing nothing; no other entry ever changes and processed stays processed |
| CheckPaymentStatus.SecondCheckAnswersFromStore | src/core/application/usecases/check-payment-status.usecase.ts:31-36 | once a check has answered "processed", checking again asks the provider nothing, changes nothing and gives the same answer |
| CheckPaymentStatus.CheckPaymentStatusUseCase.Execute | src/core/application/usecases/check-payment-status.usecase.ts:22-49 | on the real objects (the fetched payment is the stored one) the result, the provider calls and the new store are those `CheckStatus` gives for the old store; the same objects stay stored under the same ids |
| CreatePaymentDtos.ToInitiateInput | src/infra/dtos/create-payment.dto.ts:7-22 | a body yields a workflow input exactly when it is valid (positive number amount, a known currency and method, a UUID product id), and then every body field is the name of the matching input field |
| Scenarios.SaveThenFind | tests/unit/repository/in-memory-payment.repository.spec.ts:31-57 | a saved payment is found again by its id, as the same object |
| Scenarios.UpdateWithoutSave | tests/unit/repository/in-memory-payment.repository.spec.ts:91-105 | updating a payment that was never saved fails with PaymentNotFound for its id and leaves the store empty |
| Scenarios.SaveTwoThenFindAll | tests/unit/repository/in-memory-payment.repository.spec.ts:107-139 | a fresh store lists nothing; after two saves with different ids it lists both payments, in the order they were saved |
| Scenarios.InitiateAccepted | tests/unit/usecases/initiate-payment.usecase.spec.ts:27-72 | an accepted request returns the new id with "pending", sends one request with 150 BRL by PIX, and leaves one pending payment carrying the provider's txId |
| Scenarios.InitiateRefused | tests/unit/usecases/initiate-payment.usecase.spec.ts:74-138 | a throwing provider's error reaches the caller unchanged; a null answer or a "failed" status gives ExternalProviderPaymentError; either way nothing is stored |
| Scenarios.CheckPendingThatSettled | tests/unit/usecases/check-payment-status.usecase.spec.ts:24-73 | a pending payment the provider reports processed is answered "processed", the provider is asked once about its txId, and the stored payment is then processed |
| Scenarios.CheckPendingStillPending | src/core/application/usecases/check-payment-status.usecase.ts:38-48 | a pending payment the provider still reports pending is answered "pending", after one call about its txId, and stays pending in the store |
| Scenarios.CheckAlreadyProcessed | tests/unit/usecases/check-payment-status.usecase.spec.ts:81-98 | a processed payment is answered "processed" without any provider call |
| Scenarios.CheckUnknown | tests/unit/usecases/check-payment-status.usecase.spec.ts:75-79 | an id nothing was saved under fails with PaymentNotFound, without any provider call |

## Behaviour worth noting

- `Payment` has no `updatedAt` field (payment.entity.ts:7-19), although
  tests/unit/entities/payment.entity.spec.ts:89-145 refers to one. The model
  has none.
- The `Payment` constructor keeps whatever status it is given
  (payment.entity.ts:21-28), and so does `Payment.constructor`. Only the
  initiate workflow fixes it to `pending`.
- No code checks that `txId` is non-empty. The model stores the provider's
  txId as it comes.
- Neither workflow catches a provider error: a thrown error reaches the
  caller unchanged (initiate-payment.usecase.ts:31,
  check-payment-status.usecase.ts:38). Only a `null` answer or an unaccepted
  status from `initiate` becomes `ExternalProviderPaymentError`.
- `getStatus` answering `null` makes the check workflow read `status` from
  `null` (check-payment-status.usecase.ts:40). The model gives that a
  JavaScript `TypeError` (`CheckPaymentStatus.NullStatusRead`). The initiate
  workflow guards against `null` with `?.`.
- The unit test at tests/unit/usecases/check-payment-status.usecase.spec.ts:100-127
  is titled "without updating when provider returns pending" but its
  provider answers "processed". The model follows the code, and
  `Scenarios.CheckPendingStillPending` covers a real "pending" answer.

## Left out

- UniqueEntityIds.Create: the uuid library's `validate` also limits the version
  digit to 1-8 and the variant digit to 8, 9, a or b, and admits the nil and
  max UUIDs; `IsUuid` accepts every 8-4-4-4-12 hex string. The model also
  uses `IsUuid` for the request body's `@IsUUID()` check, on the assumption that
  it accepts that same form; neither library is part of this model.
- UniqueEntityIds.GeneratedIsVersion4Uuid: uniqueness of generated ids is not
  modelled. The random bytes are a parameter, and two calls with the same bytes
  give the same id.
- PaymentEntity.Payment.constructor: `new UniqueEntityId()` inside it is the
  `generated` parameter, not a call to `GenerateV4`.
- Randomness and the clock: both are parameters (`Entropy`, `generated`, `now`).
- The `Date` type: timestamps are natural numbers, with no calendar.
- JavaScript numbers: `amount` is a `real`. There is no floating-point
  rounding, NaN or infinity.
- Promises and concurrency: calls run one after another, and no two
  workflows interleave.
- The provider port is the class `RecordingProvider`, whose answers are fixed
  functions of the request. The model has no interface for other providers,
  because the HTTP provider (src/infra/providers/external-payment.provider.ts)
  is not part of this model.
- The Prisma repository, the HTTP controller, the exception filter, the Nest
  module and `main.ts` are outside the core and are not part of this model.
- src/core/domain/errors/invalid-uuid.error.ts is not part of this model. The
  model keeps only the rejected value (`InvalidUuid(value)`), not a message.
- Error names and message texts: each `DomainError` carries the data its
  message is built from (the id, the rejected value, the provider message).
  The only message text in the model is `DefaultProviderMessage`, the message
  that `ProviderRejected` carries.
