/** Step 4 of the booking wizard (components/booking/client-payment.tsx): the
    card and billing-address form, its validity rule and its submit. The
    tax line and the two-second simulated processing are not modelled; the
    submit gives the state once processing has finished. */
module ClientPayment {
  import opened Text
  import opened CardInput

  datatype BillingAddress = BillingAddress(street: string, city: string, state: string,
                                           zipCode: string, country: string)

  datatype PaymentData = PaymentData(cardNumber: string, expiryMonth: string, expiryYear: string,
                                     cvc: string, cardholderName: string, billingAddress: BillingAddress)

  /** The form's first value: everything empty, the country "US". */
  function InitialPaymentData(): PaymentData {
    PaymentData("", "", "", "", "", BillingAddress("", "", "", "", "US"))
  }

  /** `isFormValid()`: sixteen card characters besides white space, a month
      and a year, a CVC of three characters or more, and a name, street,
      city, state and zip code that are not blank. */
  predicate IsFormValid(p: PaymentData) {
    && |WithoutSpaces(p.cardNumber)| >= 16
    && p.expiryMonth != ""
    && p.expiryYear != ""
    && |p.cvc| >= 3
    && !IsBlank(p.cardholderName)
    && !IsBlank(p.billingAddress.street)
    && !IsBlank(p.billingAddress.city)
    && !IsBlank(p.billingAddress.state)
    && !IsBlank(p.billingAddress.zipCode)
  }

  /** The blank form is not valid, and the country never matters. */
  lemma ValidityIgnoresCountry(p: PaymentData, country: string)
    ensures !IsFormValid(InitialPaymentData())
    ensures IsFormValid(p.(billingAddress := p.billingAddress.(country := country))) <==> IsFormValid(p)
  {
  }

  /** Through the card field, which formats what is typed, the card rule
      holds exactly when sixteen digits have been typed; through the CVC
      field, the CVC rule holds exactly when three digits have been typed. */
  lemma ValidityThroughFields(p: PaymentData, typedCard: string, typedCvc: string)
    ensures var q := p.(cardNumber := CardFormat(typedCard), cvc := SanitizeCvc(typedCvc));
      IsFormValid(q) <==>
        && |DigitsOnly(typedCard)| >= 16
        && |DigitsOnly(typedCvc)| >= 3
        && p.expiryMonth != "" && p.expiryYear != ""
        && !IsBlank(p.cardholderName)
        && !IsBlank(p.billingAddress.street) && !IsBlank(p.billingAddress.city)
        && !IsBlank(p.billingAddress.state) && !IsBlank(p.billingAddress.zipCode)
  {
    SixteenDigitsTyped(typedCard);
  }

  /** The text fields other than the card number and the CVC. */
  datatype TextField = CardholderName | Street | City | State | ZipCode | Country
                     | ExpiryMonth | ExpiryYear

  /** `setPaymentData(prev => ({...prev, field: value}))`, and
      `{...prev.billingAddress, field: value}` for the address. */
  function SetText(p: PaymentData, field: TextField, value: string): (q: PaymentData)
    ensures q.cardNumber == p.cardNumber && q.cvc == p.cvc
    ensures field == CardholderName ==> q == p.(cardholderName := value)
    ensures field == ExpiryMonth ==> q == p.(expiryMonth := value)
    ensures field == ExpiryYear ==> q == p.(expiryYear := value)
    ensures field == Street ==> q == p.(billingAddress := p.billingAddress.(street := value))
    ensures field == City ==> q == p.(billingAddress := p.billingAddress.(city := value))
    ensures field == State ==> q == p.(billingAddress := p.billingAddress.(state := value))
    ensures field == ZipCode ==> q == p.(billingAddress := p.billingAddress.(zipCode := value))
    ensures field == Country ==> q == p.(billingAddress := p.billingAddress.(country := value))
  {
    var a := p.billingAddress;
    match field
    case CardholderName => p.(cardholderName := value)
    case ExpiryMonth => p.(expiryMonth := value)
    case ExpiryYear => p.(expiryYear := value)
    case Street => p.(billingAddress := a.(street := value))
    case City => p.(billingAddress := a.(city := value))
    case State => p.(billingAddress := a.(state := value))
    case ZipCode => p.(billingAddress := a.(zipCode := value))
    case Country => p.(billingAddress := a.(country := value))
  }

  class Form {
    var paymentData: PaymentData
    var processing: bool

    constructor ()
      ensures paymentData == InitialPaymentData() && !processing
    {
      paymentData := InitialPaymentData();
      processing := false;
    }

    /** `handleCardNumberChange`: the field keeps the formatted text. */
    method HandleCardNumberChange(typed: string)
      modifies this`paymentData
      ensures paymentData == old(paymentData).(cardNumber := CardFormat(typed))
    {
      var formatted := FormatCardNumber(typed);
      paymentData := paymentData.(cardNumber := formatted);
    }

    /** The CVC field's `onChange`. */
    method HandleCvcChange(typed: string)
      modifies this`paymentData
      ensures paymentData == old(paymentData).(cvc := SanitizeCvc(typed))
    {
      paymentData := paymentData.(cvc := SanitizeCvc(typed));
    }

    /** Every other field's `onChange` / `onValueChange`. */
    method HandleTextChange(field: TextField, value: string)
      modifies this`paymentData
      ensures paymentData == SetText(old(paymentData), field, value)
    {
      paymentData := SetText(paymentData, field, value);
    }

    /** The submit button is disabled while the form is invalid or a payment
        is being processed. */
    predicate SubmitDisabled()
      reads this
    {
      !IsFormValid(paymentData) || processing
    }

    /** `handleSubmit`, once the simulated processing is over: processing is
        off again and the form's data is what `onNext` receives. It does not
        check validity itself; the disabled button is the only guard. */
    method HandleSubmit() returns (handedOver: PaymentData)
      modifies this`processing
      ensures handedOver == paymentData && !processing
    {
      processing := true;
      processing := false;
      handedOver := paymentData;
    }
  }
}
