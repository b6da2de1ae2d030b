/** The thereadingroom card checks: each validator returns None (Java's
    null) when its field is acceptable, and otherwise the message the payment
    form shows. A null field is None, a present one Some(text). */
module PaymentValidator {
  import opened Wrappers
  import opened JavaText

  const EmptyCardNumber := "Card number cannot be empty."
  const CardNumberDigits := "Card number must be 16 digits."
  const EmptyExpiryDate := "Expiry date cannot be empty."
  const ExpiredDate := "Expiry date must be in the future."
  const ExpiryDateFormat := "Expiry date format must be MM/yy."
  const EmptyCvv := "CVV cannot be empty."
  const CvvDigits := "CVV must be 3 digits."

  /** A java.time.YearMonth. */
  datatype YearMonth = YearMonth(year: int, month: int)

  /** The year-months "MM/yy" can denote: two-digit years are read in 2000-2099. */
  predicate ExpiryRange(ym: YearMonth)
  {
    1 <= ym.month <= 12 && 2000 <= ym.year <= 2099
  }

  /** YearMonth.isBefore: strictly earlier. */
  predicate IsBefore(a: YearMonth, b: YearMonth)
  {
    a.year < b.year || (a.year == b.year && a.month < b.month)
  }

  /** YearMonth.parse with the pattern "MM/yy": exactly two ASCII digits for
      a month from 01 to 12, a '/', and two ASCII digits for the year of the
      century 2000. None stands for DateTimeParseException. */
  function ParseExpiry(s: string): (r: Option<YearMonth>)
    ensures r.Some? ==> ExpiryRange(r.value) && |s| == 5 && s[2] == '/'
  {
    if |s| == 5 && IsDigit(s[0]) && IsDigit(s[1]) && s[2] == '/' && IsDigit(s[3]) && IsDigit(s[4])
    then
      var month := DigitValue(s[0]) * 10 + DigitValue(s[1]);
      var year := 2000 + DigitValue(s[3]) * 10 + DigitValue(s[4]);
      if 1 <= month <= 12 then Some(YearMonth(year, month)) else None
    else None
  }

  /** Formatting a year-month with "MM/yy". */
  function FormatExpiry(ym: YearMonth): (s: string)
    requires ExpiryRange(ym)
    ensures |s| == 5 && s[2] == '/'
  {
    var yy := ym.year - 2000;
    [DigitChar(ym.month / 10), DigitChar(ym.month % 10), '/', DigitChar(yy / 10), DigitChar(yy % 10)]
  }

  /** Every year-month "MM/yy" can denote parses back from its rendering. */
  lemma ParseFormatExpiry(ym: YearMonth)
    requires ExpiryRange(ym)
    ensures ParseExpiry(FormatExpiry(ym)) == Some(ym)
  {
  }

  /** Whatever parses is the rendering of what it parses to: the accepted
      texts are exactly the renderings of year-months in range. */
  lemma FormatParseExpiry(s: string)
    requires ParseExpiry(s).Some?
    ensures FormatExpiry(ParseExpiry(s).value) == s
  {
    var ym := ParseExpiry(s).value;
    var t := FormatExpiry(ym);
    assert DigitValue(t[0]) == DigitValue(s[0]) && DigitValue(t[1]) == DigitValue(s[1]);
    assert DigitValue(t[3]) == DigitValue(s[3]) && DigitValue(t[4]) == DigitValue(s[4]);
    assert t[0] == s[0] && t[1] == s[1] && t[3] == s[3] && t[4] == s[4];
  }

  /** validateCardNumber */
  function ValidateCardNumber(cardNumber: Option<string>): (r: Option<string>)
    ensures r == None <==> cardNumber.Some? && IsDigitRun(cardNumber.value, 16)
    ensures (cardNumber == None || cardNumber.value == []) ==> r == Some(EmptyCardNumber)
    ensures cardNumber.Some? && cardNumber.value != [] && !IsDigitRun(cardNumber.value, 16)
            ==> r == Some(CardNumberDigits)
  {
    if cardNumber == None || cardNumber.value == [] then Some(EmptyCardNumber)
    else if !IsDigitRun(cardNumber.value, 16) then Some(CardNumberDigits)
    else None
  }

  /** validateExpiryDate, with the current month as a parameter. */
  function ValidateExpiryDate(expiryDate: Option<string>, now: YearMonth): (r: Option<string>)
    ensures r == None <==>
            expiryDate.Some? && ParseExpiry(expiryDate.value).Some?
            && !IsBefore(ParseExpiry(expiryDate.value).value, now)
    ensures (expiryDate == None || expiryDate.value == []) ==> r == Some(EmptyExpiryDate)
    ensures expiryDate.Some? && expiryDate.value != [] && ParseExpiry(expiryDate.value) == None
            ==> r == Some(ExpiryDateFormat)
    ensures expiryDate.Some? && ParseExpiry(expiryDate.value).Some?
            && IsBefore(ParseExpiry(expiryDate.value).value, now)
            ==> r == Some(ExpiredDate)
  {
    if expiryDate == None || expiryDate.value == [] then Some(EmptyExpiryDate)
    else match ParseExpiry(expiryDate.value)
      case None => Some(ExpiryDateFormat)
      case Some(expiry) => if IsBefore(expiry, now) then Some(ExpiredDate) else None
  }

  /** validateCVV */
  function ValidateCvv(cvv: Option<string>): (r: Option<string>)
    ensures r == None <==> cvv.Some? && IsDigitRun(cvv.value, 3)
    ensures (cvv == None || cvv.value == []) ==> r == Some(EmptyCvv)
    ensures cvv.Some? && cvv.value != [] && !IsDigitRun(cvv.value, 3) ==> r == Some(CvvDigits)
  {
    if cvv == None || cvv.value == [] then Some(EmptyCvv)
    else if !IsDigitRun(cvv.value, 3) then Some(CvvDigits)
    else None
  }

  /** A card expiring in the current month is still accepted, and one that
      expired the month before is not. */
  lemma CurrentMonthAccepted(now: YearMonth)
    requires ExpiryRange(now)
    ensures ValidateExpiryDate(Some(FormatExpiry(now)), now) == None
    ensures now.month > 1 ==>
              ValidateExpiryDate(Some(FormatExpiry(YearMonth(now.year, now.month - 1))), now)
              == Some(ExpiredDate)
  {
    ParseFormatExpiry(now);
    if now.month > 1 {
      ParseFormatExpiry(YearMonth(now.year, now.month - 1));
    }
  }
}
