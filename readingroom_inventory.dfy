/** The thereadingroom inventory service, which diverges from the beyourshelf
    one: it checks each entry's stock and then reduces it, with no rollback
    when a later entry fails; its revert overwrites the stock with the item
    quantity; and its finalize reduces the stock a second time. The lemmas
    at the end exhibit each divergence on a concrete table. */
module ReadingRoomInventory {
  import opened Records
  import opened BookLedger

  /** Every entry passes the check "available copies >= quantity" at the
      moment it is examined, the earlier entries having been reduced. */
  predicate PassesChecks(m: Counts, es: seq<CartItem>)
  {
    es == [] ||
    (PassesChecks(m, es[..|es| - 1])
     && Available(ReduceAll(m, es[..|es| - 1]), es[|es| - 1].bookId) >= es[|es| - 1].quantity)
  }

  /** updatePhysicalCopies of an existing book sets its stock to q. */
  function Overwrite(m: Counts, e: CartItem): (r: Counts)
    ensures r.Keys == m.Keys
  {
    if e.bookId in m then m[e.bookId := e.quantity] else m
  }

  function OverwriteAll(m: Counts, es: seq<CartItem>): (r: Counts)
    ensures r.Keys == m.Keys
  {
    if es == [] then m else Overwrite(OverwriteAll(m, es[..|es| - 1]), es[|es| - 1])
  }

  class InventoryService {
    const bookDao: BookDao

    constructor (bookDao: BookDao)
      ensures this.bookDao == bookDao
    {
      this.bookDao := bookDao;
    }

    /** reserveBooks: for each entry, reports false at once if the available
        copies are below the quantity (an equal quantity passes); otherwise
        reduces the stock, ignoring what the reduction reports. Entries
        already reduced stay reduced when a later entry fails. */
    method ReserveBooks(books: seq<CartItem>) returns (ok: bool)
      requires bookDao.Valid()
      modifies bookDao
      ensures bookDao.Valid()
      ensures ok == PassesChecks(old(bookDao.physical), books)
      ensures ok ==> bookDao.physical == ReduceAll(old(bookDao.physical), books)
      ensures !ok ==> exists k :: 0 <= k < |books|
                        && PassesChecks(old(bookDao.physical), books[..k])
                        && Available(ReduceAll(old(bookDao.physical), books[..k]), books[k].bookId)
                           < books[k].quantity
                        && bookDao.physical == ReduceAll(old(bookDao.physical), books[..k])
      ensures bookDao.sold == old(bookDao.sold) && bookDao.catalog == old(bookDao.catalog)
      ensures bookDao.rows == old(bookDao.rows)
    {
      var i := 0;
      while i < |books|
        invariant 0 <= i <= |books|
        invariant bookDao.Valid()
        invariant PassesChecks(old(bookDao.physical), books[..i])
        invariant bookDao.physical == ReduceAll(old(bookDao.physical), books[..i])
        invariant bookDao.sold == old(bookDao.sold) && bookDao.catalog == old(bookDao.catalog)
        invariant bookDao.rows == old(bookDao.rows)
      {
        var entry := books[i];
        var availableCopies := bookDao.GetAvailableCopies(entry.bookId);
        if availableCopies < entry.quantity {
          assert books[..i + 1][..i] == books[..i];
          NotPassedExtends(old(bookDao.physical), books, i + 1);
          return false;
        }
        assert books[..i + 1][..i] == books[..i];
        var reduced := bookDao.ReducePhysicalCopies(entry.bookId, entry.quantity);
        i := i + 1;
      }
      assert books[..i] == books;
      return true;
    }

    /** revertReservations: sets each item's stock to the item quantity. */
    method RevertReservations(cartItems: seq<CartItem>)
      requires bookDao.Valid()
      modifies bookDao
      ensures bookDao.Valid()
      ensures bookDao.physical == OverwriteAll(old(bookDao.physical), cartItems)
      ensures bookDao.sold == old(bookDao.sold) && bookDao.catalog == old(bookDao.catalog)
      ensures bookDao.rows == old(bookDao.rows) && bookDao.reduceLog == old(bookDao.reduceLog)
    {
      var i := 0;
      while i < |cartItems|
        invariant 0 <= i <= |cartItems|
        invariant bookDao.Valid()
        invariant bookDao.physical == OverwriteAll(old(bookDao.physical), cartItems[..i])
        invariant bookDao.sold == old(bookDao.sold) && bookDao.catalog == old(bookDao.catalog)
        invariant bookDao.rows == old(bookDao.rows) && bookDao.reduceLog == old(bookDao.reduceLog)
      {
        assert cartItems[..i + 1] == cartItems[..i] + [cartItems[i]];
        var updated := bookDao.UpdatePhysicalCopies(cartItems[i].bookId, cartItems[i].quantity);
        i := i + 1;
      }
      assert cartItems[..i] == cartItems;
    }

    /** finalizeStockAdjustments: for each entry reduces the stock again and
        adds the quantity to the sold count. */
    method FinalizeStockAdjustments(books: seq<CartItem>)
      requires bookDao.Valid()
      modifies bookDao
      ensures bookDao.Valid()
      ensures bookDao.physical == ReduceAll(old(bookDao.physical), books)
      ensures bookDao.sold == IncreaseAll(old(bookDao.sold), books)
      ensures bookDao.catalog == old(bookDao.catalog) && bookDao.rows == old(bookDao.rows)
    {
      var i := 0;
      while i < |books|
        invariant 0 <= i <= |books|
        invariant bookDao.Valid()
        invariant bookDao.physical == ReduceAll(old(bookDao.physical), books[..i])
        invariant bookDao.sold == IncreaseAll(old(bookDao.sold), books[..i])
        invariant bookDao.catalog == old(bookDao.catalog) && bookDao.rows == old(bookDao.rows)
      {
        assert books[..i + 1] == books[..i] + [books[i]];
        var reduced := bookDao.ReducePhysicalCopies(books[i].bookId, books[i].quantity);
        var updated := bookDao.UpdateSoldCopies(books[i].bookId, books[i].quantity);
        i := i + 1;
      }
      assert books[..i] == books;
    }
  }

  /** Once a prefix fails its checks, the whole sequence fails them. */
  lemma {:induction false} NotPassedExtends(m: Counts, es: seq<CartItem>, k: nat)
    requires k <= |es| && !PassesChecks(m, es[..k])
    ensures !PassesChecks(m, es)
    decreases |es| - k
  {
    if k == |es| {
      assert es[..k] == es;
    } else {
      assert es[..k + 1][..k] == es[..k];
      NotPassedExtends(m, es, k + 1);
    }
  }

  /** With positive quantities the check-then-reduce reservation accepts
      exactly the requests the conditional-reduction reservation accepts. */
  lemma {:induction false} SameAcceptance(m: Counts, es: seq<CartItem>)
    requires forall i :: 0 <= i < |es| ==> es[i].quantity > 0
    ensures PassesChecks(m, es) <==> CanReserveAll(m, es)
  {
    if es != [] {
      var init := es[..|es| - 1];
      assert forall i :: 0 <= i < |init| ==> init[i] == es[i];
      SameAcceptance(m, init);
    }
  }

  /** A quantity equal to the available copies passes the check. */
  lemma EqualStockAccepted(m: Counts, id: int, q: int)
    requires id in m && m[id] == q
    ensures PassesChecks(m, [CartItem(id, q)])
  {
    assert [CartItem(id, q)][..0] == [];
  }

  /** No rollback: with 5 copies of book 1 and none of book 2, a request for
      3 of book 1 and 1 of book 2 fails, and book 1 is left at 2 copies. The
      beyourshelf service leaves it at 5. */
  lemma NoRollbackExample()
    ensures var m := map[1 := 5, 2 := 0];
            var es := [CartItem(1, 3), CartItem(2, 1)];
            && !PassesChecks(m, es)
            && Available(ReduceAll(m, es[..1]), 1) == 2
            && !CanReserveAll(m, es)
  {
    var m := map[1 := 5, 2 := 0];
    var es := [CartItem(1, 3), CartItem(2, 1)];
    assert es[..1] == [CartItem(1, 3)] && es[..1][..0] == [];
    assert es[..2] == es;
    assert ReduceAll(m, es[..1]) == m[1 := 2];
  }

  /** Overwrite loses the stock: after the revert the stock of each book named
      once is the item quantity, whatever it was before. */
  lemma {:induction false} OverwriteAllValue(m: Counts, es: seq<CartItem>, k: nat)
    requires DistinctIds(es) && k < |es| && es[k].bookId in m
    ensures OverwriteAll(m, es)[es[k].bookId] == es[k].quantity
  {
    var init := es[..|es| - 1];
    if k < |es| - 1 {
      assert forall i :: 0 <= i < |init| ==> init[i] == es[i];
      OverwriteAllValue(m, init, k);
    }
  }

  /** Revert after reserve: 5 copies reserved by 3 and then reverted end at 3
      copies with the overwrite, and at 5 with the beyourshelf increase. */
  lemma RevertOverwritesExample()
    ensures var m := map[1 := 5];
            var es := [CartItem(1, 3)];
            && OverwriteAll(ReduceAll(m, es), es)[1] == 3
            && IncreaseAll(ReduceAll(m, es), es)[1] == 5
  {
    var es := [CartItem(1, 3)];
    assert es[..0] == [];
  }

  /** Reserve then finalize deducts every quantity twice. */
  lemma DoubleDeduction(m: Counts, es: seq<CartItem>)
    requires CanReserveAll(m, es) && CanReserveAll(ReduceAll(m, es), es)
    ensures forall id :: id in m ==>
              ReduceAll(ReduceAll(m, es), es)[id] == m[id] - 2 * Demand(es, id)
  {
    ReduceAllStock(m, es);
    ReduceAllStock(ReduceAll(m, es), es);
  }

  /** Reserve then finalize: 10 copies, 3 bought, leave 4 copies here and 7
      with the beyourshelf finalize, which leaves the stock alone. */
  lemma DoubleDeductionExample()
    ensures var m := map[1 := 10];
            var es := [CartItem(1, 3)];
            ReduceAll(ReduceAll(m, es), es)[1] == 4 && ReduceAll(m, es)[1] == 7
  {
    var es := [CartItem(1, 3)];
    assert es[..0] == [];
  }
}
