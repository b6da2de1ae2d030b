/** The thereadingroom payment service: the payment is valid when all three
    card checks pass, and a valid payment yields the order reference
    "ORDER-" followed by the current time in milliseconds. The clock is a
    parameter; the card holder's name is accepted and never examined. */
module PaymentService {
  import opened Wrappers
  import opened JavaText
  import opened PaymentValidator

  /** validatePayment */
  function ValidatePayment(cardNumber: Option<string>, cardHolderName: Option<string>,
                           expiryDate: Option<string>, cvv: Option<string>,
                           now: YearMonth): (ok: bool)
    ensures ok <==> ValidateCardNumber(cardNumber) == None
                    && ValidateExpiryDate(expiryDate, now) == None
                    && ValidateCvv(cvv) == None
    ensures ok <==> cardNumber.Some? && IsDigitRun(cardNumber.value, 16)
                    && cvv.Some? && IsDigitRun(cvv.value, 3)
                    && expiryDate.Some? && ParseExpiry(expiryDate.value).Some?
                    && !IsBefore(ParseExpiry(expiryDate.value).value, now)
  {
    ValidateCardNumber(cardNumber) == None
    && ValidateExpiryDate(expiryDate, now) == None
    && ValidateCvv(cvv) == None
  }

  /** The order reference for a payment made at currentMillis. */
  function OrderReference(currentMillis: int): string
  {
    "ORDER-" + IntToString(currentMillis)
  }

  /** processPayment: the order reference when the payment is valid, and
      nothing (an empty Optional) otherwise. */
  function ProcessPayment(cardNumber: Option<string>, cardHolderName: Option<string>,
                          expiryDate: Option<string>, cvv: Option<string>,
                          now: YearMonth, currentMillis: int): (r: Option<string>)
    ensures r.Some? <==> ValidatePayment(cardNumber, cardHolderName, expiryDate, cvv, now)
    ensures r.Some? ==> r.value == OrderReference(currentMillis)
  {
    if ValidatePayment(cardNumber, cardHolderName, expiryDate, cvv, now)
    then Some(OrderReference(currentMillis))
    else None
  }

  /** The card holder's name never changes either result. */
  lemma HolderNameIgnored(cardNumber: Option<string>, h1: Option<string>, h2: Option<string>,
                          expiryDate: Option<string>, cvv: Option<string>,
                          now: YearMonth, currentMillis: int)
    ensures ValidatePayment(cardNumber, h1, expiryDate, cvv, now)
            == ValidatePayment(cardNumber, h2, expiryDate, cvv, now)
    ensures ProcessPayment(cardNumber, h1, expiryDate, cvv, now, currentMillis)
            == ProcessPayment(cardNumber, h2, expiryDate, cvv, now, currentMillis)
  {
  }

  /** The reference carries the timestamp: after the prefix "ORDER-" the
      rest parses back (Long.parseLong) to the time it was made at. */
  lemma OrderReferenceReadsBack(currentMillis: int)
    requires LongMin <= currentMillis <= LongMax
    ensures var ref := OrderReference(currentMillis);
            |ref| > 6 && ref[..6] == "ORDER-"
            && ParseSigned(ref[6..], LongMin, LongMax) == Some(currentMillis)
  {
    var ref := OrderReference(currentMillis);
    assert ref[6..] == IntToString(currentMillis);
    ParseIntToString(currentMillis, LongMin, LongMax);
  }

  /** Payments made at different milliseconds get different references. */
  lemma OrderReferenceInjective(t1: int, t2: int)
    requires OrderReference(t1) == OrderReference(t2)
    ensures t1 == t2
  {
    assert OrderReference(t1)[6..] == IntToString(t1);
    assert OrderReference(t2)[6..] == IntToString(t2);
    IntToStringInjective(t1, t2);
  }
}
