/** The payment entity: a record over three closed enumerations whose only
    mutable part is its status. */
module PaymentEntity {
  import opened Errors
  import opened UniqueEntityIds

  datatype PaymentStatus = Pending | Processed
  datatype PaymentMethod = Paypal | Pix | CreditCard
  datatype PaymentCurrency = Brl | Usd | Eur

  /** The string each status is written as. */
  function StatusName(s: PaymentStatus): string
  {
    match s
    case Pending => "pending"
    case Processed => "processed"
  }

  function MethodName(m: PaymentMethod): string
  {
    match m
    case Paypal => "PAYPAL"
    case Pix => "PIX"
    case CreditCard => "CREDIT_CARD"
  }

  function CurrencyName(c: PaymentCurrency): string
  {
    match c
    case Brl => "BRL"
    case Usd => "USD"
    case Eur => "EUR"
  }

  /** Reads a status back from its string; exactly the status names are accepted. */
  function ParseStatus(s: string): (r: Option<PaymentStatus>)
    ensures forall st :: r == Some(st) <==> StatusName(st) == s
  {
    if s == "pending" then Some(Pending)
    else if s == "processed" then Some(Processed)
    else None
  }

  /** Reads a method back from its string; exactly the method names are accepted. */
  function ParseMethod(s: string): (r: Option<PaymentMethod>)
    ensures forall m :: r == Some(m) <==> MethodName(m) == s
  {
    if s == "PAYPAL" then Some(Paypal)
    else if s == "PIX" then Some(Pix)
    else if s == "CREDIT_CARD" then Some(CreditCard)
    else None
  }

  /** Reads a currency back from its string; exactly the currency names are accepted. */
  function ParseCurrency(s: string): (r: Option<PaymentCurrency>)
    ensures forall c :: r == Some(c) <==> CurrencyName(c) == s
  {
    if s == "BRL" then Some(Brl)
    else if s == "USD" then Some(Usd)
    else if s == "EUR" then Some(Eur)
    else None
  }

  /** A point in time; the source's `Date`, treated as an opaque value. */
  type Timestamp = nat

  /** The properties a payment is constructed from. `createdAt` may be left out. */
  datatype PaymentProperties = PaymentProperties(
    amount: real,
    currency: PaymentCurrency,
    paymentMethod: PaymentMethod,
    status: PaymentStatus,
    productId: string,
    createdAt: Option<Timestamp>,
    txId: string)

  /** What a payment's getters return at one moment. */
  datatype PaymentState = PaymentState(
    id: string,
    amount: real,
    currency: PaymentCurrency,
    paymentMethod: PaymentMethod,
    status: PaymentStatus,
    productId: string,
    createdAt: Timestamp,
    txId: string)

  class Payment {
    const uid: EntityId
    const amount: real
    const currency: PaymentCurrency
    const paymentMethod: PaymentMethod
    var status: PaymentStatus
    const productId: string
    const createdAt: Timestamp
    const txId: string

    /** `new Payment(props, id)`: keeps every property as given, takes `id` or
        else `generated`, and `props.createdAt` or else the current time.
        `generated` is the identifier `new UniqueEntityId()` yields at this
        call (see `UniqueEntityIds.Create`) and `now` is the clock. */
    constructor (props: PaymentProperties, id: Option<EntityId>, generated: EntityId, now: Timestamp)
      ensures Id() == if id.Some? then id.value.ToString() else generated.ToString()
      ensures IsUuid(Id())
      ensures amount == props.amount && currency == props.currency && paymentMethod == props.paymentMethod
      ensures status == props.status && productId == props.productId && txId == props.txId
      ensures createdAt == if props.createdAt.Some? then props.createdAt.value else now
    {
      uid := if id.Some? then id.value else generated;
      amount := props.amount;
      currency := props.currency;
      paymentMethod := props.paymentMethod;
      status := props.status;
      productId := props.productId;
      createdAt := if props.createdAt.Some? then props.createdAt.value else now;
      txId := props.txId;
    }

    /** The `id` getter: the identifier's string form, always a valid UUID. */
    function Id(): (id: string)
      ensures IsUuid(id)
    {
      uid.ToString()
    }

    /** All getters at once. */
    function State(): (s: PaymentState)
      reads this
    {
      PaymentState(Id(), amount, currency, paymentMethod, status, productId, createdAt, txId)
    }

    /** Sets the status to processed, whatever it was, and nothing else; a
        second call therefore leaves the payment as the first left it. */
    method MarkAsProcessed()
      modifies this`status
      ensures State() == old(State()).(status := Processed)
    {
      status := Processed;
    }
  }
}
