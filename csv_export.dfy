/** The CSV export of orders: a header line, then one line per order item,
    orders in list order and the items of each order in their order. Every
    field is written as it is, with no quoting and no escaping. The date is
    LocalDateTime.toString and the total String.valueOf(double); both are
    passed in as functions. */
module CsvExport {
  import opened JavaText
  import opened Records

  const UserColumns: string := "Order Date,Total Price,Book Title,Quantity"
  /** "Order Number,User ID,Order Date,Total Price,Book Title,Quantity". */
  const AdminColumns: string := "Order Number,User ID," + UserColumns
  const UserHeader: string := UserColumns + "\n"
  const AdminHeader: string := AdminColumns + "\n"

  /** A line of the user export: date, total, title, quantity. */
  function UserLine(o: OrderRecord, item: OrderItem, dateText: LocalDateTime -> string,
                    priceText: int -> string): string
  {
    dateText(o.orderDate) + "," + priceText(o.totalCents) + "," + item.title + ","
      + IntToString(item.quantity) + "\n"
  }

  /** A line of the admin export: order number, user id, date, total, title,
      quantity. */
  function AdminLine(o: OrderRecord, item: OrderItem, dateText: LocalDateTime -> string,
                     priceText: int -> string): string
  {
    o.orderNumber + "," + IntToString(o.userId) + "," + dateText(o.orderDate) + ","
      + priceText(o.totalCents) + "," + item.title + "," + IntToString(item.quantity) + "\n"
  }

  /** The lines of one order, one per item, in item order. */
  function ItemLines(o: OrderRecord, items: seq<OrderItem>,
                     lineOf: (OrderRecord, OrderItem) -> string): string
  {
    if items == [] then ""
    else ItemLines(o, items[..|items| - 1], lineOf) + lineOf(o, items[|items| - 1])
  }

  /** The lines of every order, in order. */
  function Body(orders: seq<OrderRecord>, lineOf: (OrderRecord, OrderItem) -> string): string
  {
    if orders == [] then ""
    else
      var o := orders[|orders| - 1];
      Body(orders[..|orders| - 1], lineOf) + ItemLines(o, o.items, lineOf)
  }

  /** The writing loops both exports share: header, then for each order
      each item's line. */
  method WriteOrders(header: string, orders: seq<OrderRecord>,
                     lineOf: (OrderRecord, OrderItem) -> string)
    returns (text: string)
    ensures text == header + Body(orders, lineOf)
  {
    text := header;
    var i := 0;
    while i < |orders|
      invariant 0 <= i <= |orders|
      invariant text == header + Body(orders[..i], lineOf)
    {
      var o := orders[i];
      var j := 0;
      while j < |o.items|
        invariant 0 <= j <= |o.items|
        invariant text == header + Body(orders[..i], lineOf) + ItemLines(o, o.items[..j], lineOf)
      {
        assert o.items[..j + 1][..j] == o.items[..j];
        text := text + lineOf(o, o.items[j]);
        j := j + 1;
      }
      assert o.items[..j] == o.items;
      assert orders[..i + 1][..i] == orders[..i];
      i := i + 1;
    }
    assert orders[..i] == orders;
  }

  /** exportOrdersToCSV: the text handed to the writer, and true unless an
      I/O error (ioFails) occurs. */
  method ExportOrdersToCsv(orders: seq<OrderRecord>, dateText: LocalDateTime -> string,
                           priceText: int -> string, ioFails: bool)
    returns (ok: bool, text: string)
    ensures ok == !ioFails
    ensures |text| >= |UserHeader| && text[..|UserHeader|] == UserHeader
    ensures text == UserHeader + Body(orders, (o, item) => UserLine(o, item, dateText, priceText))
  {
    text := WriteOrders(UserHeader, orders, (o, item) => UserLine(o, item, dateText, priceText));
    ok := !ioFails;
  }

  /** exportAdminOrdersToCSV: the same with the six-column header and the
      admin lines. */
  method ExportAdminOrdersToCsv(orders: seq<OrderRecord>, dateText: LocalDateTime -> string,
                                priceText: int -> string, ioFails: bool)
    returns (ok: bool, text: string)
    ensures ok == !ioFails
    ensures |text| >= |AdminHeader| && text[..|AdminHeader|] == AdminHeader
    ensures text == AdminHeader + Body(orders, (o, item) => AdminLine(o, item, dateText, priceText))
  {
    text := WriteOrders(AdminHeader, orders, (o, item) => AdminLine(o, item, dateText, priceText));
    ok := !ioFails;
  }

  /** Each admin line is the user line of the same item with the order
      number and the user id in front. */
  lemma AdminLineExtendsUserLine(o: OrderRecord, item: OrderItem,
                                 dateText: LocalDateTime -> string, priceText: int -> string)
    ensures AdminLine(o, item, dateText, priceText) ==
            o.orderNumber + "," + IntToString(o.userId) + "," + UserLine(o, item, dateText, priceText)
  {
  }

  function TotalItems(orders: seq<OrderRecord>): nat
  {
    if orders == [] then 0 else TotalItems(orders[..|orders| - 1]) + |orders[|orders| - 1].items|
  }

  lemma {:induction false} BodyConcat(a: seq<OrderRecord>, b: seq<OrderRecord>,
                                      lineOf: (OrderRecord, OrderItem) -> string)
    ensures Body(a + b, lineOf) == Body(a, lineOf) + Body(b, lineOf)
  {
    if b == [] {
      assert a + b == a;
    } else {
      BodyConcat(a, b[..|b| - 1], lineOf);
      DropLastConcat(a, b);
    }
  }

  lemma DropLastConcat<T>(a: seq<T>, b: seq<T>)
    requires b != []
    ensures (a + b)[..|a + b| - 1] == a + b[..|b| - 1]
    ensures (a + b)[|a + b| - 1] == b[|b| - 1]
  {
  }

  /** An order without items writes nothing: dropping it from the list
      leaves the text as it was. */
  lemma EmptyOrderWritesNothing(a: seq<OrderRecord>, o: OrderRecord, b: seq<OrderRecord>,
                                lineOf: (OrderRecord, OrderItem) -> string)
    requires o.items == []
    ensures Body(a + [o] + b, lineOf) == Body(a + b, lineOf)
  {
    BodyConcat(a + [o], b, lineOf);
    BodyConcat(a, b, lineOf);
    assert (a + [o])[..|a|] == a;
  }

  lemma {:induction false} ItemLinesCount(o: OrderRecord, items: seq<OrderItem>,
                                          lineOf: (OrderRecord, OrderItem) -> string)
    requires forall k :: 0 <= k < |items| ==> CountChar(lineOf(o, items[k]), '\n') == 1
    ensures CountChar(ItemLines(o, items, lineOf), '\n') == |items|
  {
    if items != [] {
      ItemLinesCount(o, items[..|items| - 1], lineOf);
      CountCharConcat(ItemLines(o, items[..|items| - 1], lineOf), lineOf(o, items[|items| - 1]), '\n');
    }
  }

  /** When every line holds exactly one line break, the lines of a list of
      orders hold one per order item. */
  lemma {:induction false} BodyLineCount(orders: seq<OrderRecord>,
                                         lineOf: (OrderRecord, OrderItem) -> string)
    requires forall i, k :: 0 <= i < |orders| && 0 <= k < |orders[i].items| ==>
               CountChar(lineOf(orders[i], orders[i].items[k]), '\n') == 1
    ensures CountChar(Body(orders, lineOf), '\n') == TotalItems(orders)
  {
    if orders != [] {
      var o := orders[|orders| - 1];
      BodyLineCount(orders[..|orders| - 1], lineOf);
      ItemLinesCount(o, o.items, lineOf);
      CountCharConcat(Body(orders[..|orders| - 1], lineOf), ItemLines(o, o.items, lineOf), '\n');
    }
  }

  lemma OneChar(c: char, d: char)
    ensures CountChar([c], d) == if c == d then 1 else 0
  {
    assert [c][..0] == [];
  }

  /** A user line holds one line break, at its end, unless its date text,
      price text or title holds one too. */
  lemma UserLineBreaks(o: OrderRecord, item: OrderItem, dateText: LocalDateTime -> string,
                       priceText: int -> string)
    requires '\n' !in dateText(o.orderDate) && '\n' !in priceText(o.totalCents)
    requires '\n' !in item.title
    ensures CountChar(UserLine(o, item, dateText, priceText), '\n') == 1
  {
    var d, p, q := dateText(o.orderDate), priceText(o.totalCents), IntToString(item.quantity);
    IntToStringChars(item.quantity, '\n');
    var front := d + "," + p + "," + item.title + "," + q;
    assert '\n' !in front;
    CountCharAbsent(front, '\n');
    CountCharConcat(front, "\n", '\n');
    OneChar('\n', '\n');
  }

  /** When no title, date text or price text holds a line break, the user
      export has exactly one line more than there are order items. */
  lemma UserExportLineCount(orders: seq<OrderRecord>, dateText: LocalDateTime -> string,
                            priceText: int -> string)
    requires forall d :: '\n' !in dateText(d)
    requires forall c :: '\n' !in priceText(c)
    requires forall i, k :: 0 <= i < |orders| && 0 <= k < |orders[i].items| ==>
               '\n' !in orders[i].items[k].title
    ensures CountChar(UserHeader + Body(orders, (o, item) => UserLine(o, item, dateText, priceText)), '\n')
            == 1 + TotalItems(orders)
  {
    var lineOf := (o, item) => UserLine(o, item, dateText, priceText);
    forall i, k | 0 <= i < |orders| && 0 <= k < |orders[i].items|
      ensures CountChar(lineOf(orders[i], orders[i].items[k]), '\n') == 1
    {
      UserLineBreaks(orders[i], orders[i].items[k], dateText, priceText);
    }
    BodyLineCount(orders, lineOf);
    CountCharConcat(UserHeader, Body(orders, lineOf), '\n');
    HeaderLineBreaks(UserHeader);
  }

  /** A header holds one line break, its last character. */
  lemma HeaderLineBreaks(header: string)
    requires header == UserHeader || header == AdminHeader
    ensures CountChar(header, '\n') == 1
  {
    assert '\n' !in UserColumns;
    assert '\n' !in "Order Number,User ID,";
    var front := if header == UserHeader then UserColumns else AdminColumns;
    CountCharAbsent(front, '\n');
    CountCharConcat(front, "\n", '\n');
    OneChar('\n', '\n');
  }

  /** An admin line holds one line break, at its end, unless its order
      number or one of the fields of the user line holds one too. */
  lemma AdminLineBreaks(o: OrderRecord, item: OrderItem, dateText: LocalDateTime -> string,
                        priceText: int -> string)
    requires '\n' !in dateText(o.orderDate) && '\n' !in priceText(o.totalCents)
    requires '\n' !in item.title && '\n' !in o.orderNumber
    ensures CountChar(AdminLine(o, item, dateText, priceText), '\n') == 1
  {
    var lead := o.orderNumber + "," + IntToString(o.userId) + ",";
    AdminLineExtendsUserLine(o, item, dateText, priceText);
    UserLineBreaks(o, item, dateText, priceText);
    IntToStringChars(o.userId, '\n');
    assert '\n' !in lead;
    CountCharAbsent(lead, '\n');
    CountCharConcat(lead, UserLine(o, item, dateText, priceText), '\n');
  }

  /** The admin export, likewise, has one line more than there are order
      items when no field holds a line break. */
  lemma AdminExportLineCount(orders: seq<OrderRecord>, dateText: LocalDateTime -> string,
                             priceText: int -> string)
    requires forall d :: '\n' !in dateText(d)
    requires forall c :: '\n' !in priceText(c)
    requires forall i :: 0 <= i < |orders| ==> '\n' !in orders[i].orderNumber
    requires forall i, k :: 0 <= i < |orders| && 0 <= k < |orders[i].items| ==>
               '\n' !in orders[i].items[k].title
    ensures CountChar(AdminHeader + Body(orders, (o, item) => AdminLine(o, item, dateText, priceText)), '\n')
            == 1 + TotalItems(orders)
  {
    var lineOf := (o, item) => AdminLine(o, item, dateText, priceText);
    forall i, k | 0 <= i < |orders| && 0 <= k < |orders[i].items|
      ensures CountChar(lineOf(orders[i], orders[i].items[k]), '\n') == 1
    {
      AdminLineBreaks(orders[i], orders[i].items[k], dateText, priceText);
    }
    BodyLineCount(orders, lineOf);
    CountCharConcat(AdminHeader, Body(orders, lineOf), '\n');
    HeaderLineBreaks(AdminHeader);
  }

  /** No escaping: a user line has two commas of its own after the date and
      the total and one after the title, plus every comma inside the date
      text, the price text and the title; so a title with a comma shifts the
      quantity into a column of its own. */
  lemma UserLineCommas(o: OrderRecord, item: OrderItem, dateText: LocalDateTime -> string,
                       priceText: int -> string)
    ensures CountChar(UserLine(o, item, dateText, priceText), ',') ==
            3 + CountChar(dateText(o.orderDate), ',') + CountChar(priceText(o.totalCents), ',')
            + CountChar(item.title, ',')
  {
    var d, p, t, q := dateText(o.orderDate), priceText(o.totalCents), item.title, IntToString(item.quantity);
    CountCharConcat(d + "," + p + "," + t + "," + q, "\n", ',');
    CountCharConcat(d + "," + p + "," + t + ",", q, ',');
    CountCharConcat(d + "," + p + "," + t, ",", ',');
    CountCharConcat(d + "," + p + ",", t, ',');
    CountCharConcat(d + "," + p, ",", ',');
    CountCharConcat(d + ",", p, ',');
    CountCharConcat(d, ",", ',');
    IntToStringChars(item.quantity, ',');
    CountCharAbsent(q, ',');
    OneChar('\n', ',');
    OneChar(',', ',');
  }
}
