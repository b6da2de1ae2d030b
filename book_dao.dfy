/** The books table behind IBookDAO: for every book id its catalogue data,
    its physical stock and its sold count, with the read queries and the
    stock mutators the inventory services and admin screens call.

    The arithmetic of the stock mutators is stated once, on plain maps
    (TryReduce, Increase and their repetitions ReduceAll, IncreaseAll), and
    the lemmas about those maps are what the inventory services rely on. */
module BookLedger {
  import opened Wrappers
  import opened JavaText
  import opened Records
  import opened Sorting

  /** One count column of the books table: book id to physical or sold copies. */
  type Counts = map<int, int>

  /** getAvailableCopies: the stored count, or 0 for a book that has no row. */
  function Available(m: Counts, id: int): int
  {
    if id in m then m[id] else 0
  }

  predicate NonNegative(m: Counts)
  {
    forall id :: id in m ==> m[id] >= 0
  }

  /** The condition of the conditional reduction: the book exists and has at
      least the requested number of copies. */
  predicate Reducible(m: Counts, e: CartItem)
  {
    e.bookId in m && m[e.bookId] >= e.quantity
  }

  /** reducePhysicalCopies: lowers the count by the quantity when Reducible,
      and otherwise leaves the table as it was. */
  function TryReduce(m: Counts, e: CartItem): (r: Counts)
    ensures r.Keys == m.Keys
    ensures NonNegative(m) ==> NonNegative(r)
  {
    if Reducible(m, e) then m[e.bookId := m[e.bookId] - e.quantity] else m
  }

  /** increasePhysicalCopies and updateSoldCopies: add the quantity to the
      count of an existing book; an unknown id updates no row. */
  function Increase(m: Counts, e: CartItem): (r: Counts)
    ensures r.Keys == m.Keys
  {
    if e.bookId in m then m[e.bookId := m[e.bookId] + e.quantity] else m
  }

  /** TryReduce applied to each entry in turn. */
  function ReduceAll(m: Counts, es: seq<CartItem>): (r: Counts)
    ensures r.Keys == m.Keys
    ensures NonNegative(m) ==> NonNegative(r)
  {
    if es == [] then m else TryReduce(ReduceAll(m, es[..|es| - 1]), es[|es| - 1])
  }

  /** Increase applied to each entry in turn. */
  function IncreaseAll(m: Counts, es: seq<CartItem>): (r: Counts)
    ensures r.Keys == m.Keys
  {
    if es == [] then m else Increase(IncreaseAll(m, es[..|es| - 1]), es[|es| - 1])
  }

  /** Every reduction of the sequence succeeds when they are made in turn. */
  predicate CanReserveAll(m: Counts, es: seq<CartItem>)
  {
    es == [] ||
    (CanReserveAll(m, es[..|es| - 1]) && Reducible(ReduceAll(m, es[..|es| - 1]), es[|es| - 1]))
  }

  /** The total quantity the entries ask of one book. */
  function Demand(es: seq<CartItem>, id: int): int
  {
    if es == [] then 0
    else Demand(es[..|es| - 1], id) + (if es[|es| - 1].bookId == id then es[|es| - 1].quantity else 0)
  }

  predicate DistinctIds(es: seq<CartItem>)
  {
    forall i, j :: 0 <= i < j < |es| ==> es[i].bookId != es[j].bookId
  }

  /** When every reduction succeeds, each book has lost exactly what the
      entries ask of it, and every entry names an existing book. */
  lemma {:induction false} ReduceAllStock(m: Counts, es: seq<CartItem>)
    requires CanReserveAll(m, es)
    ensures forall id :: id in m ==> ReduceAll(m, es)[id] == m[id] - Demand(es, id)
    ensures forall i :: 0 <= i < |es| ==> es[i].bookId in m
  {
    if es != [] {
      var init := es[..|es| - 1];
      ReduceAllStock(m, init);
      assert forall i :: 0 <= i < |init| ==> es[i] == init[i];
    }
  }

  /** Increasing adds to each book exactly what the entries ask of it. */
  lemma {:induction false} IncreaseAllStock(m: Counts, es: seq<CartItem>)
    ensures forall id :: id in m ==> IncreaseAll(m, es)[id] == m[id] + Demand(es, id)
  {
    if es != [] {
      IncreaseAllStock(m, es[..|es| - 1]);
    }
  }

  /** Once a prefix of the reductions fails, the whole sequence fails. */
  lemma {:induction false} FailureExtends(m: Counts, es: seq<CartItem>, k: nat)
    requires k <= |es| && !CanReserveAll(m, es[..k])
    ensures !CanReserveAll(m, es)
    decreases |es| - k
  {
    if k == |es| {
      assert es[..k] == es;
    } else {
      assert es[..k + 1][..k] == es[..k];
      FailureExtends(m, es, k + 1);
    }
  }

  /** A reduction that fails after a run of successful ones makes the whole
      sequence fail. */
  lemma FirstFailure(m: Counts, es: seq<CartItem>, k: nat)
    requires k < |es| && CanReserveAll(m, es[..k])
    requires !Reducible(ReduceAll(m, es[..k]), es[k])
    ensures !CanReserveAll(m, es)
  {
    assert es[..k + 1][..k] == es[..k];
    FailureExtends(m, es, k + 1);
  }

  /** Two count columns hold the same rows with the same counts. */
  predicate SameStock(a: Counts, b: Counts)
  {
    a.Keys == b.Keys && forall id :: id in a ==> a[id] == b[id]
  }

  /** Adding back every quantity of a fully successful reservation restores
      the table exactly: the rollback and the revert of the beyourshelf
      inventory service undo a reservation. */
  lemma ReserveThenRevertRestores(m: Counts, es: seq<CartItem>)
    requires CanReserveAll(m, es)
    ensures SameStock(IncreaseAll(ReduceAll(m, es), es), m)
  {
    ReduceAllStock(m, es);
    IncreaseAllStock(ReduceAll(m, es), es);
  }

  /** No oversell: a reservation that succeeds on a table without negative
      stock never asks more of a book than the book had. */
  lemma NoOversell(m: Counts, es: seq<CartItem>)
    requires NonNegative(m) && CanReserveAll(m, es)
    ensures forall id :: id in m ==> Demand(es, id) <= m[id]
  {
    ReduceAllStock(m, es);
    assert NonNegative(ReduceAll(m, es));
  }

  /** Reductions of other books leave a book's count alone. */
  lemma {:induction false} ReduceAllElsewhere(m: Counts, es: seq<CartItem>, id: int)
    requires forall i :: 0 <= i < |es| ==> es[i].bookId != id
    ensures Available(ReduceAll(m, es), id) == Available(m, id)
  {
    if es != [] {
      ReduceAllElsewhere(m, es[..|es| - 1], id);
    }
  }

  /** For a request that names every book at most once (a real Map keyed by
      book), the reservation succeeds exactly when every book on its own has
      enough copies. */
  lemma {:induction false} CanReserveDistinct(m: Counts, es: seq<CartItem>)
    requires DistinctIds(es)
    ensures CanReserveAll(m, es) <==> forall i :: 0 <= i < |es| ==> Reducible(m, es[i])
  {
    if es != [] {
      var init, last := es[..|es| - 1], es[|es| - 1];
      CanReserveDistinct(m, init);
      ReduceAllElsewhere(m, init, last.bookId);
      assert Reducible(ReduceAll(m, init), last) <==> Reducible(m, last);
      assert forall i :: 0 <= i < |init| ==> es[i] == init[i];
    }
  }

  function Min(a: int, b: int): int { if a < b then a else b }

  function SoldCopiesOf(b: Book): int { b.soldCopies }

  /** The first five books of bs by sold copies: an
      ORDER BY soldCopies DESC LIMIT 5 query, ties in table order. */
  function TopFive(bs: seq<Book>): (r: seq<Book>)
    ensures |r| == Min(5, |bs|)
  {
    SortDesc(bs, SoldCopiesOf)[..Min(5, |bs|)]
  }

  /** Every book TopFive lists comes from bs. */
  lemma TopFiveFrom(bs: seq<Book>)
    ensures forall i :: 0 <= i < |TopFive(bs)| ==> TopFive(bs)[i] in bs
  {
    var sorted := SortDesc(bs, SoldCopiesOf);
    SortDescPermutes(bs, SoldCopiesOf);
    forall i | 0 <= i < |TopFive(bs)|
      ensures TopFive(bs)[i] in bs
    {
      assert TopFive(bs)[i] == sorted[i];
      assert sorted[i] in multiset(sorted);
    }
  }

  /** No book TopFive leaves out sells more than a book it lists. */
  lemma TopFiveLeftOut(bs: seq<Book>)
    ensures var r := TopFive(bs);
            forall b, i :: b in bs && b !in r && 0 <= i < |r| ==> b.soldCopies <= r[i].soldCopies
  {
    var sorted := SortDesc(bs, SoldCopiesOf);
    var r := TopFive(bs);
    SortDescPermutes(bs, SoldCopiesOf);
    SortDescSorted(bs, SoldCopiesOf);
    forall b, i | b in bs && b !in r && 0 <= i < |r|
      ensures b.soldCopies <= r[i].soldCopies
    {
      assert b in multiset(bs);
      var p :| 0 <= p < |sorted| && sorted[p] == b;
      assert forall q :: 0 <= q < |r| ==> r[q] == sorted[q];
      assert r[i] == sorted[i];
      assert SoldCopiesOf(sorted[i]) >= SoldCopiesOf(sorted[p]);
    }
  }

  /** TopFive lists books of bs, best-selling first, none twice, and no book
      it leaves out sells more than a book it lists. */
  lemma TopFiveRanked(bs: seq<Book>)
    requires forall i, j :: 0 <= i < j < |bs| ==> bs[i] != bs[j]
    ensures var r := TopFive(bs);
            && (forall i :: 0 <= i < |r| ==> r[i] in bs)
            && (forall i, j :: 0 <= i < j < |r| ==> r[i] != r[j])
            && (forall i, j :: 0 <= i < j < |r| ==> r[i].soldCopies >= r[j].soldCopies)
            && (forall b, i :: b in bs && b !in r && 0 <= i < |r| ==> b.soldCopies <= r[i].soldCopies)
  {
    var sorted := SortDesc(bs, SoldCopiesOf);
    var r := TopFive(bs);
    SortDescDistinct(bs, SoldCopiesOf);
    SortDescSorted(bs, SoldCopiesOf);
    TopFiveFrom(bs);
    TopFiveLeftOut(bs);
    forall i, j | 0 <= i < j < |r|
      ensures r[i] != r[j] && r[i].soldCopies >= r[j].soldCopies
    {
      assert r[i] == sorted[i] && r[j] == sorted[j];
      assert sorted[i] != sorted[j];
      assert SoldCopiesOf(sorted[i]) >= SoldCopiesOf(sorted[j]);
    }
  }

  /** The books of bs whose title contains the keyword, ignoring the case
      of ASCII letters, in their original order. */
  function TitleMatches(bs: seq<Book>, keyword: string): (r: seq<Book>)
    ensures |r| <= |bs|
    ensures forall b :: b in r <==> b in bs && Contains(Lower(b.title), Lower(keyword))
  {
    if bs == [] then []
    else
      var rest := TitleMatches(bs[..|bs| - 1], keyword);
      var b := bs[|bs| - 1];
      assert bs == bs[..|bs| - 1] + [b];
      if Contains(Lower(b.title), Lower(keyword)) then rest + [b] else rest
  }

  /** The catalogue part of a row: what the stock operations never touch. */
  datatype BookInfo = BookInfo(title: string, author: string, priceCents: int)

  /** The books table as IBookDAO sees it: the primary keys in table order,
      and for every key its catalogue data, physical stock and sold count.
      reduceLog records every call of reducePhysicalCopies, so that callers
      can state which reductions they attempted. */
  class BookDao {
    var rows: seq<int>
    var catalog: map<int, BookInfo>
    var physical: Counts
    var sold: Counts
    ghost var reduceLog: seq<CartItem>

    ghost predicate Valid()
      reads this
    {
      && catalog.Keys == physical.Keys && sold.Keys == physical.Keys
      && (forall i :: 0 <= i < |rows| ==> rows[i] in physical)
      && (forall id :: id in physical ==> id in rows)
      && (forall i, j :: 0 <= i < j < |rows| ==> rows[i] != rows[j])
    }

    function BookAt(id: int): Book
      reads this
      requires Valid() && id in physical
    {
      Book(id, catalog[id].title, catalog[id].author, catalog[id].priceCents,
           physical[id], sold[id])
    }

    /** findBookById: the stored book, or None (null) for an unknown id. */
    function FindBookById(id: int): (r: Option<Book>)
      reads this
      requires Valid()
      ensures r.Some? <==> id in physical
      ensures r.Some? ==> r.value.bookId == id && r.value.physicalCopies == physical[id]
                          && r.value.soldCopies == sold[id]
                          && r.value.title == catalog[id].title
                          && r.value.author == catalog[id].author
                          && r.value.priceCents == catalog[id].priceCents
    {
      if id in physical then Some(BookAt(id)) else None
    }

    /** getAvailableCopies: the current physical stock. */
    function GetAvailableCopies(id: int): (n: int)
      reads this
      ensures id in physical ==> n == physical[id]
      ensures id !in physical ==> n == 0
    {
      Available(physical, id)
    }

    /** The rows with the given keys, in the order of the keys. */
    function BooksAt(ids: seq<int>): (r: seq<Book>)
      reads this
      requires Valid() && forall i :: 0 <= i < |ids| ==> ids[i] in physical
      ensures |r| == |ids|
      ensures forall i :: 0 <= i < |r| ==> r[i] == BookAt(ids[i])
    {
      if ids == [] then [] else BooksAt(ids[..|ids| - 1]) + [BookAt(ids[|ids| - 1])]
    }

    /** getAllBooks: every row once, in table order. */
    function GetAllBooks(): (r: seq<Book>)
      reads this
      requires Valid()
      ensures |r| == |rows|
      ensures forall i :: 0 <= i < |r| ==> r[i] == BookAt(rows[i])
      ensures forall i, j :: 0 <= i < j < |r| ==> r[i] != r[j]
      ensures forall id :: id in physical ==> BookAt(id) in r
    {
      var r := BooksAt(rows);
      assert forall id :: id in physical ==> BookAt(id) in r by {
        forall id | id in physical
          ensures BookAt(id) in r
        {
          var k :| 0 <= k < |rows| && rows[k] == id;
          assert r[k] == BookAt(id);
        }
      }
      r
    }

    /** searchBooksByTitle: the books whose title contains the keyword,
        ignoring the case of ASCII letters, in table order. */
    function SearchBooksByTitle(keyword: string): (r: seq<Book>)
      reads this
      requires Valid()
      ensures forall b :: b in r <==> b in GetAllBooks() && Contains(Lower(b.title), Lower(keyword))
    {
      TitleMatches(GetAllBooks(), keyword)
    }

    /** getTop5Books: at most five distinct books, best-selling first, and no
        book left out sells more than a book listed. */
    function GetTop5Books(): (r: seq<Book>)
      reads this
      requires Valid()
      ensures |r| == Min(5, |rows|)
      ensures forall i :: 0 <= i < |r| ==> r[i] in GetAllBooks()
      ensures forall i, j :: 0 <= i < j < |r| ==> r[i] != r[j]
      ensures forall i, j :: 0 <= i < j < |r| ==> r[i].soldCopies >= r[j].soldCopies
      ensures forall b, i :: b in GetAllBooks() && b !in r && 0 <= i < |r| ==>
                b.soldCopies <= r[i].soldCopies
    {
      TopFiveRanked(GetAllBooks());
      TopFive(GetAllBooks())
    }

    /** updatePhysicalCopies: replaces the stock of an existing book. */
    method UpdatePhysicalCopies(bookId: int, newStock: int) returns (ok: bool)
      requires Valid()
      modifies this
      ensures Valid()
      ensures ok == (bookId in old(physical))
      ensures physical == if ok then old(physical)[bookId := newStock] else old(physical)
      ensures rows == old(rows) && catalog == old(catalog) && sold == old(sold)
      ensures reduceLog == old(reduceLog)
    {
      ok := bookId in physical;
      if ok {
        physical := physical[bookId := newStock];
      }
    }

    /** reducePhysicalCopies: the conditional reduction. It lowers the stock
        and reports true only when the book has at least quantity copies. */
    method ReducePhysicalCopies(bookId: int, quantity: int) returns (ok: bool)
      requires Valid()
      modifies this
      ensures Valid()
      ensures ok == Reducible(old(physical), CartItem(bookId, quantity))
      ensures physical == TryReduce(old(physical), CartItem(bookId, quantity))
      ensures reduceLog == old(reduceLog) + [CartItem(bookId, quantity)]
      ensures rows == old(rows) && catalog == old(catalog) && sold == old(sold)
    {
      ok := bookId in physical && physical[bookId] >= quantity;
      if ok {
        physical := physical[bookId := physical[bookId] - quantity];
      }
      reduceLog := reduceLog + [CartItem(bookId, quantity)];
    }

    /** increasePhysicalCopies: adds copies back to an existing book. */
    method IncreasePhysicalCopies(bookId: int, quantity: int) returns (ok: bool)
      requires Valid()
      modifies this
      ensures Valid()
      ensures ok == (bookId in old(physical))
      ensures physical == Increase(old(physical), CartItem(bookId, quantity))
      ensures rows == old(rows) && catalog == old(catalog) && sold == old(sold)
      ensures reduceLog == old(reduceLog)
    {
      ok := bookId in physical;
      if ok {
        physical := physical[bookId := physical[bookId] + quantity];
      }
    }

    /** updateSoldCopies: adds quantity to the current sold count. */
    method UpdateSoldCopies(bookId: int, quantity: int) returns (ok: bool)
      requires Valid()
      modifies this
      ensures Valid()
      ensures ok == (bookId in old(sold))
      ensures sold == Increase(old(sold), CartItem(bookId, quantity))
      ensures rows == old(rows) && catalog == old(catalog) && physical == old(physical)
      ensures reduceLog == old(reduceLog)
    {
      ok := bookId in sold;
      if ok {
        sold := sold[bookId := sold[bookId] + quantity];
      }
    }
  }
}
