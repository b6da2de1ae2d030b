/** The thereadingroom Payment entity: its constructor validates the card
    number, then the expiry date, then the CVV, and throws
    IllegalArgumentException with the first failing validator's message;
    otherwise it stores the four fields as given. A payment holds no
    setters, so it is a value here and a constructor that may throw is a
    function to Result. */
module PaymentEntity {
  import opened Wrappers
  import opened PaymentValidator
  import opened PaymentService

  datatype Payment = Payment(cardNumber: Option<string>, cardHolderName: Option<string>,
                             expiryDate: Option<string>, cvv: Option<string>)

  /** validatePayment (the private one of Payment): the first failing check
      in the order card number, expiry date, CVV. */
  function CheckPayment(cardNumber: Option<string>, expiryDate: Option<string>,
                        cvv: Option<string>, now: YearMonth): (r: Outcome<string>)
    ensures r.Pass? <==> ValidateCardNumber(cardNumber) == None
                         && ValidateExpiryDate(expiryDate, now) == None
                         && ValidateCvv(cvv) == None
    ensures ValidateCardNumber(cardNumber).Some? ==>
              r == Fail(ValidateCardNumber(cardNumber).value)
    ensures ValidateCardNumber(cardNumber) == None && ValidateExpiryDate(expiryDate, now).Some? ==>
              r == Fail(ValidateExpiryDate(expiryDate, now).value)
    ensures (ValidateCardNumber(cardNumber) == None && ValidateExpiryDate(expiryDate, now) == None
             && ValidateCvv(cvv).Some?) ==>
              r == Fail(ValidateCvv(cvv).value)
  {
    match ValidateCardNumber(cardNumber)
    case Some(cardNumberError) => Fail(cardNumberError)
    case None =>
      match ValidateExpiryDate(expiryDate, now)
      case Some(expiryDateError) => Fail(expiryDateError)
      case None =>
        match ValidateCvv(cvv)
        case Some(cvvError) => Fail(cvvError)
        case None => Pass
  }

  /** The Payment constructor: a payment exactly when the payment service
      would accept the same details, with the fields stored unchanged;
      otherwise the message of the first failing check. */
  function NewPayment(cardNumber: Option<string>, cardHolderName: Option<string>,
                      expiryDate: Option<string>, cvv: Option<string>,
                      now: YearMonth): (r: Result<Payment, string>)
    ensures r.Success? <==> ValidatePayment(cardNumber, cardHolderName, expiryDate, cvv, now)
    ensures r.Success? ==> r.value == Payment(cardNumber, cardHolderName, expiryDate, cvv)
    ensures r.Failure? ==> CheckPayment(cardNumber, expiryDate, cvv, now) == Fail(r.error)
  {
    match CheckPayment(cardNumber, expiryDate, cvv, now)
    case Fail(message) => Failure(message)
    case Pass => Success(Payment(cardNumber, cardHolderName, expiryDate, cvv))
  }

  /** An empty card number is reported even when every other field is wrong
      too: the card-number check comes first. */
  lemma CardNumberFirst(cardHolderName: Option<string>, expiryDate: Option<string>,
                        cvv: Option<string>, now: YearMonth)
    ensures NewPayment(None, cardHolderName, expiryDate, cvv, now) == Failure(EmptyCardNumber)
    ensures NewPayment(Some(""), cardHolderName, expiryDate, cvv, now) == Failure(EmptyCardNumber)
  {
  }
}
