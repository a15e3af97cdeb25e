/** The create-payment request body and the field constraints it must meet
    before the initiate workflow sees it. */
module CreatePaymentDtos {
  import opened Errors
  import opened UniqueEntityIds
  import opened PaymentEntity
  import opened InitiatePayment

  /** A field of a JSON request body: a number, a string, or anything else
      (null, a boolean, an object, or the field left out). */
  datatype Field = Number(n: real) | Text(s: string) | OtherValue

  datatype CreatePaymentDto = CreatePaymentDto(amount: Field, currency: Field, paymentMethod: Field, productId: Field)

  /** The body's properties, as validation errors name them. */
  datatype Property = AmountProperty | CurrencyProperty | MethodProperty | ProductIdProperty

  /** The properties whose constraints the body breaks: `amount` must be a
      number above zero, `currency` a string among BRL, USD and EUR, `method` a
      string among PIX, PAYPAL and CREDIT_CARD, and `product_id` a UUID. */
  function Violations(dto: CreatePaymentDto): set<Property>
  {
    (if dto.amount.Number? && dto.amount.n > 0.0 then {} else {AmountProperty})
    + (if dto.currency.Text? && dto.currency.s in ["BRL", "USD", "EUR"] then {} else {CurrencyProperty})
    + (if dto.paymentMethod.Text? && dto.paymentMethod.s in ["PIX", "PAYPAL", "CREDIT_CARD"] then {} else {MethodProperty})
    + (if dto.productId.Text? && IsUuid(dto.productId.s) then {} else {ProductIdProperty})
  }

  predicate IsValid(dto: CreatePaymentDto)
  {
    Violations(dto) == {}
  }

  /** The workflow input a body becomes: there is one exactly when the body is
      valid, and then every field of the body is the name of the input's
      corresponding field. */
  function ToInitiateInput(dto: CreatePaymentDto): (input: Option<InitiatePaymentInput>)
    ensures input.Some? <==> IsValid(dto)
    ensures input.Some? ==>
      && input.value.amount > 0.0
      && dto.amount == Number(input.value.amount)
      && dto.currency == Text(CurrencyName(input.value.currency))
      && dto.paymentMethod == Text(MethodName(input.value.paymentMethod))
      && dto.productId == Text(input.value.productId)
      && IsUuid(input.value.productId)
  {
    if !IsValid(dto) then None
    else
      var currency := ParseCurrency(dto.currency.s);
      var paymentMethod := ParseMethod(dto.paymentMethod.s);
      Some(InitiatePaymentInput(dto.amount.n, currency.value, paymentMethod.value, dto.productId.s))
  }
}
