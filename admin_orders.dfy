/** The admin order list: a user-id filter, a newest-first or
    most-expensive-first sort done in place, and removal guarded against the
    unset id 0. */
module AdminOrders {
  import opened Wrappers
  import opened JavaText
  import opened Records
  import opened Notices
  import opened Sorting
  import opened Lists

  const OrderDateOption: string := "Order Date"
  const TotalPriceOption: string := "Total Price"

  /** LocalDateTime.compareTo: year, then month, day, hour, minute, second
      and nanosecond. */
  predicate DateBefore(a: LocalDateTime, b: LocalDateTime)
  {
    a.year < b.year || (a.year == b.year &&
    (a.month < b.month || (a.month == b.month &&
    (a.day < b.day || (a.day == b.day &&
    (a.hour < b.hour || (a.hour == b.hour &&
    (a.minute < b.minute || (a.minute == b.minute &&
    (a.second < b.second || (a.second == b.second && a.nano < b.nano)))))))))))
  }

  /** A date-time as one number, each field a digit of a mixed-radix
      numeral, so that numeric order is date-time order. */
  function DateKey(d: LocalDateTime): int
  {
    SecondKey(d) * 1_000_000_000 + d.nano
  }

  lemma MixedRadix(h1: int, l1: int, h2: int, l2: int, base: int)
    requires 0 <= l1 < base && 0 <= l2 < base
    ensures h1 * base + l1 < h2 * base + l2 <==> h1 < h2 || (h1 == h2 && l1 < l2)
    ensures h1 * base + l1 == h2 * base + l2 <==> h1 == h2 && l1 == l2
  {
    if h1 < h2 {
      MulAtLeast(h2 - h1, base);
      assert h2 * base - h1 * base == (h2 - h1) * base;
    } else if h2 < h1 {
      MulAtLeast(h1 - h2, base);
      assert h1 * base - h2 * base == (h1 - h2) * base;
    }
  }

  lemma {:induction false} MulAtLeast(d: int, base: int)
    requires d >= 1 && base >= 1
    ensures d * base >= base
    decreases d
  {
    if d > 1 {
      MulAtLeast(d - 1, base);
      assert d * base == (d - 1) * base + base;
    }
  }

  /** The partial keys of DateKey, most significant field first: the key
      of the year and month, then of the day, hour, minute and second. */
  function MonthKey(d: LocalDateTime): int { d.year * 12 + (d.month - 1) }
  function DayKey(d: LocalDateTime): int { MonthKey(d) * 31 + (d.day - 1) }
  function HourKey(d: LocalDateTime): int { DayKey(d) * 24 + d.hour }
  function MinuteKey(d: LocalDateTime): int { HourKey(d) * 60 + d.minute }
  function SecondKey(d: LocalDateTime): int { MinuteKey(d) * 60 + d.second }

  /** Comparing date keys compares the date-times: the key is strictly
      smaller exactly when the date-time is strictly earlier, and equal
      exactly when the date-times are the same. */
  lemma DateKeyOrder(a: LocalDateTime, b: LocalDateTime)
    ensures DateKey(a) < DateKey(b) <==> DateBefore(a, b)
    ensures DateKey(a) == DateKey(b) <==> a == b
  {
    MinuteKeyOrder(a, b);
    MixedRadix(MinuteKey(a), a.second, MinuteKey(b), b.second, 60);
    MixedRadix(SecondKey(a), a.nano, SecondKey(b), b.nano, 1_000_000_000);
  }

  /** The same comparison down to the minute, on MinuteKey. */
  lemma MinuteKeyOrder(a: LocalDateTime, b: LocalDateTime)
    ensures MinuteKey(a) < MinuteKey(b) <==>
              a.year < b.year || (a.year == b.year &&
              (a.month < b.month || (a.month == b.month &&
              (a.day < b.day || (a.day == b.day &&
              (a.hour < b.hour || (a.hour == b.hour && a.minute < b.minute)))))))
    ensures MinuteKey(a) == MinuteKey(b) <==>
              a.year == b.year && a.month == b.month && a.day == b.day
              && a.hour == b.hour && a.minute == b.minute
  {
    MixedRadix(a.year, a.month - 1, b.year, b.month - 1, 12);
    MixedRadix(MonthKey(a), a.day - 1, MonthKey(b), b.day - 1, 31);
    MixedRadix(DayKey(a), a.hour, DayKey(b), b.hour, 24);
    MixedRadix(HourKey(a), a.minute, HourKey(b), b.minute, 60);
  }

  function OrderDateKey(o: OrderRecord): int { DateKey(o.orderDate) }

  /** totalPrice, compared as Double.compare does on ordinary values. */
  function TotalKey(o: OrderRecord): int { o.totalCents }

  /** The orders applyFilter keeps: all of them for an empty filter, else
      those whose userId, written in decimal, is exactly the filter text. */
  function FilterByUser(orders: seq<OrderRecord>, userIdFilter: string): seq<OrderRecord>
  {
    if userIdFilter == [] then orders
    else Filter(orders, (o: OrderRecord) => IntToString(o.userId) == userIdFilter)
  }

  /** The order applySort leaves the list in for each option; any other
      option, including none, leaves it as it is. */
  function SortOrders(orders: seq<OrderRecord>, sortOption: Option<string>): seq<OrderRecord>
  {
    if sortOption == Some(OrderDateOption) then SortDesc(orders, OrderDateKey)
    else if sortOption == Some(TotalPriceOption) then SortDesc(orders, TotalKey)
    else orders
  }

  /** A filter that is the decimal form of n keeps exactly the orders of
      user n, in their order. */
  lemma FilterByUserSelects(orders: seq<OrderRecord>, n: int)
    ensures var r := FilterByUser(orders, IntToString(n));
            && (forall o :: o in r <==> o in orders && o.userId == n)
            && IsSubsequence(r, orders)
  {
    var p := (o: OrderRecord) => IntToString(o.userId) == IntToString(n);
    forall o: OrderRecord
      ensures p(o) <==> o.userId == n
    {
      if p(o) {
        IntToStringInjective(o.userId, n);
      }
    }
    FilterIsSubsequence(orders, p);
  }

  /** Matching is on text, not on numbers: a filter with a leading zero,
      such as "07", or a leading '+' matches no order at all. */
  lemma PaddedFilterMatchesNothing(orders: seq<OrderRecord>, userIdFilter: string)
    requires |userIdFilter| > 1 && (userIdFilter[0] == '0' || userIdFilter[0] == '+')
    ensures FilterByUser(orders, userIdFilter) == []
  {
    var p := (o: OrderRecord) => IntToString(o.userId) == userIdFilter;
    forall o: OrderRecord
      ensures !p(o)
    {
      var s := IntToString(o.userId);
      if o.userId >= 0 {
        assert s == NatToString(o.userId);
        if s[0] == '0' {
          assert o.userId == 0;
          assert |s| == 1;
        }
      }
    }
    FilterKeepsNone(orders, p);
  }

  /** After sorting by order date, no order is earlier than one listed
      after it: newest first. */
  lemma SortByDateNewestFirst(orders: seq<OrderRecord>)
    ensures var r := SortOrders(orders, Some(OrderDateOption));
            forall i, j :: 0 <= i < j < |r| ==> !DateBefore(r[i].orderDate, r[j].orderDate)
  {
    var r := SortDesc(orders, OrderDateKey);
    SortDescSorted(orders, OrderDateKey);
    forall i, j | 0 <= i < j < |r|
      ensures !DateBefore(r[i].orderDate, r[j].orderDate)
    {
      assert OrderDateKey(r[i]) >= OrderDateKey(r[j]);
      DateKeyOrder(r[i].orderDate, r[j].orderDate);
    }
  }

  /** After sorting by total price, totals never increase down the list. */
  lemma SortByTotalDescending(orders: seq<OrderRecord>)
    ensures var r := SortOrders(orders, Some(TotalPriceOption));
            forall i, j :: 0 <= i < j < |r| ==> r[i].totalCents >= r[j].totalCents
  {
    var r := SortDesc(orders, TotalKey);
    SortDescSorted(orders, TotalKey);
    assert forall i, j :: 0 <= i < j < |r| ==> TotalKey(r[i]) >= TotalKey(r[j]);
  }

  /** Every option reorders without adding or losing an order, and orders
      that tie on the chosen key keep their relative order. */
  lemma SortOrdersStablePermutation(orders: seq<OrderRecord>, sortOption: Option<string>)
    ensures multiset(SortOrders(orders, sortOption)) == multiset(orders)
    ensures sortOption == Some(OrderDateOption) ==>
              forall v :: WithKey(SortOrders(orders, sortOption), OrderDateKey, v) == WithKey(orders, OrderDateKey, v)
    ensures sortOption == Some(TotalPriceOption) ==>
              forall v :: WithKey(SortOrders(orders, sortOption), TotalKey, v) == WithKey(orders, TotalKey, v)
  {
    SortDescPermutes(orders, OrderDateKey);
    SortDescPermutes(orders, TotalKey);
    forall v
      ensures WithKey(SortDesc(orders, OrderDateKey), OrderDateKey, v) == WithKey(orders, OrderDateKey, v)
      ensures WithKey(SortDesc(orders, TotalKey), TotalKey, v) == WithKey(orders, TotalKey, v)
    {
      SortDescStable(orders, OrderDateKey, v);
      SortDescStable(orders, TotalKey, v);
    }
  }

  /** applyFilter: the very same list when the filter is empty, otherwise a
      new list of the matching orders. */
  method ApplyFilter(orders: array<OrderRecord>, userIdFilter: string) returns (r: array<OrderRecord>)
    ensures userIdFilter == [] ==> r == orders
    ensures userIdFilter != [] ==> fresh(r)
    ensures r[..] == FilterByUser(orders[..], userIdFilter)
  {
    if userIdFilter == [] {
      return orders;
    }
    var kept := Filter(orders[..], (o: OrderRecord) => IntToString(o.userId) == userIdFilter);
    r := new OrderRecord[|kept|](i requires 0 <= i < |kept| => kept[i]);
  }

  /** applySort: sorts the list it is given, in place, and returns it. */
  method ApplySort(orders: array<OrderRecord>, sortOption: Option<string>) returns (r: array<OrderRecord>)
    modifies orders
    ensures r == orders
    ensures orders[..] == SortOrders(old(orders[..]), sortOption)
  {
    if sortOption == Some(OrderDateOption) {
      SortInPlace(orders, OrderDateKey);
    } else if sortOption == Some(TotalPriceOption) {
      SortInPlace(orders, TotalKey);
    }
    return orders;
  }

  const InvalidOrderId: string := "Order ID is invalid. Cannot remove this order."
  const OrderRemoved: string := "Order removed successfully!"
  const RemoveFailed: string := "Failed to remove order. Order may not exist or there was an issue."

  class AdminOrderController {
    var allOrders: array<OrderRecord>
    /** The orders the table shows. */
    var shown: seq<OrderRecord>

    /** initialize: loads every order. */
    constructor (fetched: seq<OrderRecord>)
      ensures allOrders[..] == fetched && shown == fetched
    {
      allOrders := new OrderRecord[|fetched|](i requires 0 <= i < |fetched| => fetched[i]);
      shown := fetched;
    }

    /** loadOrders: a new list of what the order service returns, shown
        as it is. */
    method LoadOrders(fetched: seq<OrderRecord>)
      modifies this`allOrders, this`shown
      ensures fresh(allOrders)
      ensures allOrders[..] == fetched && shown == fetched
    {
      allOrders := new OrderRecord[|fetched|](i requires 0 <= i < |fetched| => fetched[i]);
      shown := fetched;
    }

    /** applyFilterAndSort: filter by the trimmed text, then sort. With an
        empty filter the sort runs on allOrders itself, so the stored list
        is left in the sorted order too; with a filter it is untouched. */
    method ApplyFilterAndSort(filterText: string, sortOption: Option<string>)
      modifies allOrders, this`shown
      ensures shown == SortOrders(FilterByUser(old(allOrders[..]), Trim(filterText)), sortOption)
      ensures Trim(filterText) == [] ==> allOrders[..] == shown
      ensures Trim(filterText) != [] ==> allOrders[..] == old(allOrders[..])
    {
      var filtered := ApplyFilter(allOrders, Trim(filterText));
      var sorted := ApplySort(filtered, sortOption);
      shown := sorted[..];
    }

    /** handleRemoveOrder, after the confirmation dialog: nothing without
        confirmation; an error and no delete call for id 0; otherwise the
        delete call for the order's id (deleteSucceeds is its answer), and
        on success a reload with what the service then returns. */
    method HandleRemoveOrder(order: OrderRecord, confirmed: bool, deleteSucceeds: bool,
                             fetched: seq<OrderRecord>)
      returns (deleteRequested: Option<int>, notice: Option<Notice>)
      modifies this`allOrders, this`shown
      ensures deleteRequested == (if confirmed && order.orderId != 0 then Some(order.orderId) else None)
      ensures !confirmed ==> notice == None
      ensures confirmed && order.orderId == 0 ==> notice == Some(Error("Error", InvalidOrderId))
      ensures deleteRequested.Some? ==>
                notice == (if deleteSucceeds then Some(Alert("Success", OrderRemoved))
                           else Some(Error("Error", RemoveFailed)))
      ensures deleteRequested.Some? && deleteSucceeds ==> allOrders[..] == fetched && shown == fetched
      ensures !(deleteRequested.Some? && deleteSucceeds) ==>
                allOrders == old(allOrders) && shown == old(shown)
    {
      deleteRequested := None;
      notice := None;
      if !confirmed {
        return;
      }
      if order.orderId == 0 {
        notice := Some(Error("Error", InvalidOrderId));
        return;
      }
      deleteRequested := Some(order.orderId);
      if deleteSucceeds {
        notice := Some(Alert("Success", OrderRemoved));
        LoadOrders(fetched);
      } else {
        notice := Some(Error("Error", RemoveFailed));
      }
    }
  }
}
