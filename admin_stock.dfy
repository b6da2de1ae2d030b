/** The admin stock screen: setting a book's stock to a typed-in value, and
    the title search over the book list. */
module AdminStock {
  import opened Wrappers
  import opened JavaText
  import opened Records
  import opened Notices
  import opened BookLedger

  const InvalidNumbers: string := "Please enter valid numbers for Book ID and Stock."
  const NegativeStock: string := "Stock value cannot be negative."
  const StockUpdated: string := "Stock updated successfully!"
  const UpdateFailed: string := "Could not update stock. Please check the Book ID."

  /** What handleUpdateStock decides from the two text fields before it
      touches the store. */
  datatype StockDecision = BadNumbers | Negative | Replace(bookId: int, newStock: int)

  /** Both fields are trimmed and read with Integer.parseInt; a field that
      does not parse is a NumberFormatException, a negative stock is
      refused, and anything else replaces the stock. */
  function DecideStockUpdate(bookIdText: string, stockText: string): (r: StockDecision)
    ensures r == BadNumbers <==> ParseInt(Trim(bookIdText)).None? || ParseInt(Trim(stockText)).None?
    ensures r == Negative <==>
              ParseInt(Trim(bookIdText)).Some? && ParseInt(Trim(stockText)).Some?
              && ParseInt(Trim(stockText)).value < 0
    ensures r.Replace? ==> Some(r.bookId) == ParseInt(Trim(bookIdText))
                           && Some(r.newStock) == ParseInt(Trim(stockText)) && r.newStock >= 0
  {
    match ParseInt(Trim(bookIdText))
    case None => BadNumbers
    case Some(bookId) =>
      match ParseInt(Trim(stockText))
      case None => BadNumbers
      case Some(newStock) => if newStock < 0 then Negative else Replace(bookId, newStock)
  }

  /** Typing the decimal forms of an id and a non-negative stock in the
      range of int, with or without surrounding blanks, asks for exactly
      that replacement; a negative stock is refused. */
  lemma DecideStockUpdateOfDecimals(bookId: int, newStock: int, pad: string)
    requires IntMin <= bookId <= IntMax && IntMin <= newStock <= IntMax
    requires forall i :: 0 <= i < |pad| ==> pad[i] == ' '
    ensures DecideStockUpdate(pad + IntToString(bookId) + pad, pad + IntToString(newStock) + pad) ==
            if newStock < 0 then Negative else Replace(bookId, newStock)
  {
    ParsePaddedDecimal(bookId, pad);
    ParsePaddedDecimal(newStock, pad);
  }

  lemma ParsePaddedDecimal(n: int, pad: string)
    requires IntMin <= n <= IntMax
    requires forall i :: 0 <= i < |pad| ==> pad[i] == ' '
    ensures ParseInt(Trim(pad + IntToString(n) + pad)) == Some(n)
  {
    var s := IntToString(n);
    assert s[0] > ' ' && s[|s| - 1] > ' ';
    TrimPadded(pad, s);
    ParseIntToString(n, IntMin, IntMax);
  }

  /** Trimming removes blank padding around text that starts and ends with
      a visible character. */
  lemma {:induction false} TrimPadded(pad: string, s: string)
    requires forall i :: 0 <= i < |pad| ==> pad[i] == ' '
    requires s != [] && s[0] > ' ' && s[|s| - 1] > ' '
    ensures Trim(pad + s + pad) == s
  {
    var t := pad + s + pad;
    var left := TrimLeft(t);
    assert left == s + pad by {
      assert t == pad + (s + pad);
      assert (s + pad)[0] == s[0];
      TrimLeftPadded(pad, s + pad);
    }
    TrimRightPadded(s, pad);
  }

  lemma {:induction false} TrimLeftPadded(pad: string, s: string)
    requires forall i :: 0 <= i < |pad| ==> pad[i] == ' '
    requires s != [] && s[0] > ' '
    ensures TrimLeft(pad + s) == s
  {
    if pad == [] {
      assert pad + s == s;
    } else {
      assert (pad + s)[1..] == pad[1..] + s;
      TrimLeftPadded(pad[1..], s);
    }
  }

  lemma {:induction false} TrimRightPadded(s: string, pad: string)
    requires forall i :: 0 <= i < |pad| ==> pad[i] == ' '
    requires s != [] && s[|s| - 1] > ' '
    ensures TrimRight(s + pad) == s
  {
    if pad == [] {
      assert s + pad == s;
    } else {
      assert (s + pad)[..|s + pad| - 1] == s + pad[..|pad| - 1];
      TrimRightPadded(s, pad[..|pad| - 1]);
    }
  }

  class AdminStockController {
    const bookService: BookDao
    /** The books the table shows. */
    var shown: seq<Book>

    /** initialize: loads every book. */
    constructor (bookService: BookDao)
      requires bookService.Valid()
      ensures this.bookService == bookService
      ensures shown == bookService.GetAllBooks()
    {
      this.bookService := bookService;
      shown := bookService.GetAllBooks();
    }

    /** loadBooks: shows every book. */
    method LoadBooks()
      requires bookService.Valid()
      modifies this`shown
      ensures shown == bookService.GetAllBooks()
    {
      shown := bookService.GetAllBooks();
    }

    /** handleSearchBooks: a title search for a non-blank keyword, every
        book otherwise. */
    method HandleSearchBooks(searchText: string)
      requires bookService.Valid()
      modifies this`shown
      ensures Trim(searchText) != [] ==> shown == bookService.SearchBooksByTitle(Trim(searchText))
      ensures Trim(searchText) == [] ==> shown == bookService.GetAllBooks()
    {
      var keyword := Trim(searchText);
      if keyword != [] {
        shown := bookService.SearchBooksByTitle(keyword);
      } else {
        LoadBooks();
      }
    }

    /** handleUpdateStock: refuses unreadable and negative input without
        touching the store; otherwise replaces (does not add to) the stock
        of the book, and reloads the list only when the book exists. */
    method HandleUpdateStock(bookIdText: string, stockText: string) returns (notice: Notice)
      requires bookService.Valid()
      modifies bookService, this`shown
      ensures bookService.Valid()
      ensures bookService.rows == old(bookService.rows) && bookService.catalog == old(bookService.catalog)
      ensures bookService.sold == old(bookService.sold)
      ensures DecideStockUpdate(bookIdText, stockText) == BadNumbers ==>
                notice == Error("Invalid Input", InvalidNumbers)
      ensures DecideStockUpdate(bookIdText, stockText) == Negative ==>
                notice == Error("Invalid Input", NegativeStock)
      ensures !DecideStockUpdate(bookIdText, stockText).Replace? ==>
                bookService.physical == old(bookService.physical) && shown == old(shown)
      ensures DecideStockUpdate(bookIdText, stockText).Replace? ==>
                var d := DecideStockUpdate(bookIdText, stockText);
                if d.bookId in old(bookService.physical) then
                  && bookService.physical == old(bookService.physical)[d.bookId := d.newStock]
                  && notice == Alert("Success", StockUpdated)
                  && shown == bookService.GetAllBooks()
                else
                  && bookService.physical == old(bookService.physical)
                  && notice == Error("Update Failed", UpdateFailed)
                  && shown == old(shown)
    {
      match DecideStockUpdate(bookIdText, stockText)
      case BadNumbers =>
        notice := Error("Invalid Input", InvalidNumbers);
      case Negative =>
        notice := Error("Invalid Input", NegativeStock);
      case Replace(bookId, newStock) =>
        var success := bookService.UpdatePhysicalCopies(bookId, newStock);
        if success {
          notice := Alert("Success", StockUpdated);
          LoadBooks();
        } else {
          notice := Error("Update Failed", UpdateFailed);
        }
    }
  }
}
