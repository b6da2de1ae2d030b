/** The beyourshelf inventory service: reservation of a cart's books with
    all-or-nothing rollback, revert of a reservation and the sold-count update
    after payment, all on the books table. */
module ShelfInventory {
  import opened Records
  import opened BookLedger

  class InventoryService {
    const bookDao: BookDao

    constructor (bookDao: BookDao)
      ensures this.bookDao == bookDao
    {
      this.bookDao := bookDao;
    }

    /** reserveBooks: reduces the stock entry by entry with the conditional
        reduction. At the first reduction that fails it adds back, in order,
        every reduction already made and reports false; entries after the
        failing one are never attempted. Sold counts never change. */
    method ReserveBooks(books: seq<CartItem>) returns (ok: bool)
      requires bookDao.Valid()
      modifies bookDao
      ensures bookDao.Valid()
      ensures ok == CanReserveAll(old(bookDao.physical), books)
      ensures ok ==> bookDao.physical == ReduceAll(old(bookDao.physical), books)
      ensures ok ==> bookDao.reduceLog == old(bookDao.reduceLog) + books
      ensures !ok ==> SameStock(bookDao.physical, old(bookDao.physical))
      ensures !ok ==> exists k :: 0 <= k < |books|
                        && CanReserveAll(old(bookDao.physical), books[..k])
                        && !Reducible(ReduceAll(old(bookDao.physical), books[..k]), books[k])
                        && bookDao.reduceLog == old(bookDao.reduceLog) + books[..k + 1]
      ensures bookDao.sold == old(bookDao.sold) && bookDao.catalog == old(bookDao.catalog)
      ensures bookDao.rows == old(bookDao.rows)
    {
      var reduced: seq<CartItem> := [];
      var i := 0;
      while i < |books|
        invariant 0 <= i <= |books|
        invariant bookDao.Valid()
        invariant reduced == books[..i]
        invariant CanReserveAll(old(bookDao.physical), reduced)
        invariant bookDao.physical == ReduceAll(old(bookDao.physical), reduced)
        invariant bookDao.reduceLog == old(bookDao.reduceLog) + reduced
        invariant bookDao.sold == old(bookDao.sold) && bookDao.catalog == old(bookDao.catalog)
        invariant bookDao.rows == old(bookDao.rows)
      {
        var entry := books[i];
        var reducedOne := bookDao.ReducePhysicalCopies(entry.bookId, entry.quantity);
        if !reducedOne {
          FirstFailure(old(bookDao.physical), books, i);
          assert bookDao.physical == ReduceAll(old(bookDao.physical), reduced);
          assert bookDao.reduceLog == old(bookDao.reduceLog) + books[..i + 1];
          // The rollback loop adds back every earlier reduction in order,
          // which is the loop of revertReservations.
          RevertReservations(reduced);
          ReserveThenRevertRestores(old(bookDao.physical), reduced);
          ok := false;
          assert 0 <= i < |books| && CanReserveAll(old(bookDao.physical), books[..i]);
          return;
        }
        assert books[..i + 1] == reduced + [entry];
        reduced := reduced + [entry];
        i := i + 1;
      }
      assert books[..i] == books;
      return true;
    }

    /** revertReservations: adds each item's quantity back to its stock. */
    method RevertReservations(cartItems: seq<CartItem>)
      requires bookDao.Valid()
      modifies bookDao
      ensures bookDao.Valid()
      ensures bookDao.physical == IncreaseAll(old(bookDao.physical), cartItems)
      ensures bookDao.sold == old(bookDao.sold) && bookDao.catalog == old(bookDao.catalog)
      ensures bookDao.rows == old(bookDao.rows) && bookDao.reduceLog == old(bookDao.reduceLog)
    {
      var i := 0;
      while i < |cartItems|
        invariant 0 <= i <= |cartItems|
        invariant bookDao.Valid()
        invariant bookDao.physical == IncreaseAll(old(bookDao.physical), cartItems[..i])
        invariant bookDao.sold == old(bookDao.sold) && bookDao.catalog == old(bookDao.catalog)
        invariant bookDao.rows == old(bookDao.rows) && bookDao.reduceLog == old(bookDao.reduceLog)
      {
        assert cartItems[..i + 1] == cartItems[..i] + [cartItems[i]];
        var restored := bookDao.IncreasePhysicalCopies(cartItems[i].bookId, cartItems[i].quantity);
        i := i + 1;
      }
      assert cartItems[..i] == cartItems;
    }

    /** finalizeStockAdjustments: adds each quantity to the book's sold count;
        the physical stock, already reduced by the reservation, is left alone. */
    method FinalizeStockAdjustments(books: seq<CartItem>)
      requires bookDao.Valid()
      modifies bookDao
      ensures bookDao.Valid()
      ensures bookDao.sold == IncreaseAll(old(bookDao.sold), books)
      ensures bookDao.physical == old(bookDao.physical) && bookDao.catalog == old(bookDao.catalog)
      ensures bookDao.rows == old(bookDao.rows) && bookDao.reduceLog == old(bookDao.reduceLog)
    {
      var i := 0;
      while i < |books|
        invariant 0 <= i <= |books|
        invariant bookDao.Valid()
        invariant bookDao.sold == IncreaseAll(old(bookDao.sold), books[..i])
        invariant bookDao.physical == old(bookDao.physical) && bookDao.catalog == old(bookDao.catalog)
        invariant bookDao.rows == old(bookDao.rows) && bookDao.reduceLog == old(bookDao.reduceLog)
      {
        assert books[..i + 1] == books[..i] + [books[i]];
        var updated := bookDao.UpdateSoldCopies(books[i].bookId, books[i].quantity);
        i := i + 1;
      }
      assert books[..i] == books;
    }
  }
}
