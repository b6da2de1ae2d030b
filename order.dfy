/** The beyourshelf Order entity: a mutable record with two constructors and
    one setter per field, and the "MM/dd/yyyy HH:mm" rendering of its date. */
module OrderEntity {
  import opened Wrappers
  import opened JavaText
  import opened Records

  /** Two digits, zero-padded: a pattern letter written twice. */
  function Pad2(n: int): (r: string)
    requires 0 <= n < 100
    ensures |r| == 2 && AllDigits(r)
  {
    [DigitChar(n / 10), DigitChar(n % 10)]
  }

  function Pad4(n: int): (r: string)
    requires 0 <= n < 10000
    ensures |r| == 4 && AllDigits(r)
  {
    Pad2(n / 100) + Pad2(n % 100)
  }

  /** The year of the era, as 'yyyy' prints it: years before year 1 count
      back from 1 BC (the era itself is not printed); at least four digits,
      zero-padded, and a '+' before a year of more than four digits. */
  function YearOfEra(year: int): nat
  {
    if year >= 1 then year else 1 - year
  }

  function FormatYear(year: int): (r: string)
    ensures 1 <= year <= 9999 ==> r == Pad4(year)
    ensures |r| >= 4
    ensures YearOfEra(year) > 9999 ==> r[0] == '+'
  {
    var y := YearOfEra(year);
    if y > 9999 then
      assert |NatToString(y / 10)| >= 1;
      "+" + NatToString(y)
    else Pad4(y)
  }

  /** DateTimeFormatter.ofPattern("MM/dd/yyyy HH:mm"): month, day, year,
      24-hour hour and minute; seconds and nanoseconds are not shown. */
  function FormatOrderDate(d: LocalDateTime): (r: string)
    ensures 1 <= d.year <= 9999 ==> |r| == 16
    ensures |r| >= 16 && r[2] == '/' && r[5] == '/'
  {
    Pad2(d.month) + "/" + Pad2(d.day) + "/" + FormatYear(d.year) + " " + Pad2(d.hour) + ":"
      + Pad2(d.minute)
  }

  /** The value of a one-digit and of a two-digit run. */
  lemma DigitsValueShort(s: string)
    requires AllDigits(s) && 1 <= |s| <= 2
    ensures |s| == 1 ==> DigitsValue(s) == DigitValue(s[0])
    ensures |s| == 2 ==> DigitsValue(s) == DigitValue(s[0]) * 10 + DigitValue(s[1])
  {
    assert s[..1][..0] == [];
    if |s| == 2 {
      assert s[..|s| - 1] == s[..1];
      assert DigitsValue(s[..1]) == DigitValue(s[0]);
    }
  }

  lemma Pad2Value(n: int)
    requires 0 <= n < 100
    ensures DigitsValue(Pad2(n)) == n
  {
    DigitsValueShort(Pad2(n));
  }

  lemma {:induction false} DigitsValueConcat2(a: string, b: string)
    requires AllDigits(a) && AllDigits(b) && |b| == 2
    ensures AllDigits(a + b)
    ensures DigitsValue(a + b) == DigitsValue(a) * 100 + DigitsValue(b)
  {
    DigitsValueAppend(a, b[0]);
    DigitsValueAppend(a + [b[0]], b[1]);
    assert a + [b[0]] + [b[1]] == a + b;
    DigitsValueShort(b);
  }

  lemma Pad4Value(n: int)
    requires 0 <= n < 10000
    ensures DigitsValue(Pad4(n)) == n
  {
    Pad2Value(n / 100);
    Pad2Value(n % 100);
    DigitsValueConcat2(Pad2(n / 100), Pad2(n % 100));
  }

  /** Reading the rendered text back position by position gives the month,
      day, year, hour and minute: the format is fixed-width (for years 1 to
      9999) and zero-padded, and the hour is the 24-hour one. */
  lemma FormatOrderDateReadBack(d: LocalDateTime)
    requires 1 <= d.year <= 9999
    ensures var s := FormatOrderDate(d);
      && |s| == 16 && s[2] == '/' && s[5] == '/' && s[10] == ' ' && s[13] == ':'
      && AllDigits(s[0..2]) && DigitsValue(s[0..2]) == d.month
      && AllDigits(s[3..5]) && DigitsValue(s[3..5]) == d.day
      && AllDigits(s[6..10]) && DigitsValue(s[6..10]) == d.year
      && AllDigits(s[11..13]) && DigitsValue(s[11..13]) == d.hour
      && AllDigits(s[14..16]) && DigitsValue(s[14..16]) == d.minute
  {
    var s := FormatOrderDate(d);
    assert s[0..2] == Pad2(d.month);
    assert s[3..5] == Pad2(d.day);
    assert s[6..10] == Pad4(d.year);
    assert s[11..13] == Pad2(d.hour);
    assert s[14..16] == Pad2(d.minute);
    Pad2Value(d.month);
    Pad2Value(d.day);
    Pad4Value(d.year);
    Pad2Value(d.hour);
    Pad2Value(d.minute);
  }

  /** Two order dates render alike only when they agree to the minute. */
  lemma FormatOrderDateInjective(a: LocalDateTime, b: LocalDateTime)
    requires 1 <= a.year <= 9999 && 1 <= b.year <= 9999
    requires FormatOrderDate(a) == FormatOrderDate(b)
    ensures a.year == b.year && a.month == b.month && a.day == b.day
    ensures a.hour == b.hour && a.minute == b.minute
  {
    FormatOrderDateReadBack(a);
    FormatOrderDateReadBack(b);
  }

  class Order {
    var orderId: int
    var orderNumber: Option<string>
    var userId: int
    /** totalPrice, in whole cents. */
    var totalCents: int
    var orderDate: Option<LocalDateTime>
    var orderItems: Option<seq<OrderItem>>

    /** The four-argument constructor: stores what it is given and stamps the
        order with the current time; the id keeps its default. */
    constructor (orderNumber: Option<string>, userId: int, totalCents: int,
                 orderItems: Option<seq<OrderItem>>, now: LocalDateTime)
      ensures this.orderNumber == orderNumber && this.userId == userId
      ensures this.totalCents == totalCents && this.orderItems == orderItems
      ensures orderDate == Some(now) && orderId == 0
    {
      this.orderNumber := orderNumber;
      this.userId := userId;
      this.totalCents := totalCents;
      this.orderItems := orderItems;
      orderDate := Some(now);
      orderId := 0;
    }

    /** The no-argument constructor: every field at its Java default. */
    constructor Empty()
      ensures orderId == 0 && orderNumber == None && userId == 0 && totalCents == 0
      ensures orderDate == None && orderItems == None
    {
      orderId := 0;
      orderNumber := None;
      userId := 0;
      totalCents := 0;
      orderDate := None;
      orderItems := None;
    }

    method SetOrderId(orderId: int)
      modifies this`orderId
      ensures this.orderId == orderId
    {
      this.orderId := orderId;
    }

    method SetOrderNumber(orderNumber: Option<string>)
      modifies this`orderNumber
      ensures this.orderNumber == orderNumber
    {
      this.orderNumber := orderNumber;
    }

    method SetUserId(userId: int)
      modifies this`userId
      ensures this.userId == userId
    {
      this.userId := userId;
    }

    method SetTotalPrice(totalCents: int)
      modifies this`totalCents
      ensures this.totalCents == totalCents
    {
      this.totalCents := totalCents;
    }

    method SetOrderItems(orderItems: Option<seq<OrderItem>>)
      modifies this`orderItems
      ensures this.orderItems == orderItems
    {
      this.orderItems := orderItems;
    }

    method SetOrderDate(orderDate: Option<LocalDateTime>)
      modifies this`orderDate
      ensures this.orderDate == orderDate
    {
      this.orderDate := orderDate;
    }

    /** getFormattedOrderDate: None where Java dereferences a null date and
        throws; otherwise the 16-character rendering for years 1 to 9999. */
    function GetFormattedOrderDate(): (r: Option<string>)
      reads this
      ensures r.Some? <==> orderDate.Some?
      ensures r.Some? && 1 <= orderDate.value.year <= 9999 ==> |r.value| == 16
    {
      if orderDate.None? then None else Some(FormatOrderDate(orderDate.value))
    }
  }
}
