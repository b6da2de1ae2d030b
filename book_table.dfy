/** The add-to-cart path of the beyourshelf book tables: the quantity typed
    in the dialog is parsed, checked against the latest stock, stored in the
    user's cart, and the in-memory cart is rebuilt from the stored one. */
module BookTable {
  import opened Wrappers
  import opened JavaText
  import opened Records
  import opened Notices
  import opened BookLedger
  import opened Carts

  const InvalidNumber := "Please enter a valid number."
  const NotPositive := "Quantity must be greater than 0."
  const CartNotInitialized := "Shopping cart is not initialized."

  /** parseQuantity: Integer.parseInt, then a positive value. Failure holds
      the message of the IllegalArgumentException. */
  function ParseQuantity(text: string): (r: Result<int, string>)
    ensures r.Success? <==> ParseInt(text).Some? && ParseInt(text).value > 0
    ensures r.Success? ==> r.value == ParseInt(text).value && 0 < r.value <= IntMax
    ensures ParseInt(text) == None ==> r == Failure(InvalidNumber)
    ensures ParseInt(text).Some? && ParseInt(text).value <= 0 ==> r == Failure(NotPositive)
  {
    match ParseInt(text)
    case None => Failure(InvalidNumber)
    case Some(quantity) => if quantity <= 0 then Failure(NotPositive) else Success(quantity)
  }

  /** Every positive int typed in decimal is read back unchanged, and every
      other int typed in decimal is refused as not positive. */
  lemma ParseQuantityOfDecimal(n: int)
    requires IntMin <= n <= IntMax
    ensures n > 0 ==> ParseQuantity(IntToString(n)) == Success(n)
    ensures n <= 0 ==> ParseQuantity(IntToString(n)) == Failure(NotPositive)
  {
    ParseIntToString(n, IntMin, IntMax);
  }

  function StockMessage(available: int): string
  {
    "Only " + IntToString(available) + " copies available."
  }

  /** How validateStockAndAddToCart ends: the book was added, an
      IllegalArgumentException with a message, or the NullPointerException
      of a book id the book service does not know. */
  datatype AddResult = Added | Rejected(message: string) | NullBook

  class BookTableController {
    var shoppingCart: ShoppingCart?
    const bookService: BookDao
    const cartService: CartStore

    /** The services come from the service manager; the subclasses set the
        cart later. */
    constructor (bookService: BookDao, cartService: CartStore)
      ensures this.bookService == bookService && this.cartService == cartService
      ensures shoppingCart == null
    {
      this.bookService := bookService;
      this.cartService := cartService;
      shoppingCart := null;
    }

    ghost predicate Valid()
      reads this, bookService, cartService
    {
      bookService.Valid() && cartService.Valid()
    }

    /** The in-memory lines that mirror stored cart items: each item's book
        looked up again, with the item's quantity. */
    function Mirror(items: seq<CartItem>): (lines: seq<CartLine>)
      reads bookService
      requires bookService.Valid()
      ensures |lines| == |items|
      ensures forall i :: 0 <= i < |items| ==>
                lines[i].quantity == items[i].quantity
                && lines[i].book == bookService.FindBookById(items[i].bookId)
    {
      if items == [] then []
      else
        var last := items[|items| - 1];
        Mirror(items[..|items| - 1]) + [CartLine(bookService.FindBookById(last.bookId), last.quantity)]
    }

    /** syncCartWithDatabase: clears the in-memory cart and adds back every
        stored item in store order. */
    method SyncCartWithDatabase(cartId: int)
      requires Valid() && shoppingCart != null
      modifies shoppingCart
      ensures shoppingCart.lines == Mirror(cartService.GetCartItems(cartId))
    {
      var updatedCartItems := cartService.GetCartItems(cartId);
      shoppingCart.ClearCart();
      var i := 0;
      while i < |updatedCartItems|
        invariant 0 <= i <= |updatedCartItems|
        invariant shoppingCart.lines == Mirror(updatedCartItems[..i])
      {
        var item := updatedCartItems[i];
        assert updatedCartItems[..i + 1][..i] == updatedCartItems[..i];
        var cartBook := bookService.FindBookById(item.bookId);
        shoppingCart.AddBook(cartBook, item.quantity);
        i := i + 1;
      }
      assert updatedCartItems[..i] == updatedCartItems;
    }

    /** updateCart: adds the line to the in-memory cart, upserts it into the
        user's stored cart, and rebuilds the in-memory cart from the store.
        No other user's stored cart changes. */
    method UpdateCart(book: Book, quantity: int)
      requires Valid() && shoppingCart != null
      modifies shoppingCart, cartService
      ensures Valid()
      ensures cartService.CartItemsOf(shoppingCart.userId)
              == Upsert(old(cartService.CartItemsOf(shoppingCart.userId)), book.bookId, quantity)
      ensures shoppingCart.lines == Mirror(cartService.CartItemsOf(shoppingCart.userId))
      ensures forall u :: u != shoppingCart.userId && u in old(cartService.cartOf) ==>
                u in cartService.cartOf && cartService.CartItemsOf(u) == old(cartService.CartItemsOf(u))
    {
      shoppingCart.AddBook(Some(book), quantity);
      var cartId := cartService.GetOrCreateCart(shoppingCart.userId);
      cartService.AddOrUpdateBookInCart(cartId, book.bookId, quantity);
      SyncCartWithDatabase(cartId);
    }

    /** validateStockAndAddToCart: refuses when there is no cart, then when the
        latest stock is below the quantity (an equal quantity is accepted);
        only then updates the carts. A refusal changes nothing. */
    method ValidateStockAndAddToCart(book: Book, quantity: int) returns (r: AddResult)
      requires Valid()
      modifies shoppingCart, cartService
      ensures Valid()
      ensures shoppingCart == null ==> r == Rejected(CartNotInitialized)
      ensures r == Added <==>
                shoppingCart != null && book.bookId in bookService.physical
                && quantity <= bookService.physical[book.bookId]
      ensures shoppingCart != null && book.bookId !in bookService.physical ==> r == NullBook
      ensures shoppingCart != null && book.bookId in bookService.physical
              && bookService.physical[book.bookId] < quantity
              ==> r == Rejected(StockMessage(bookService.physical[book.bookId]))
      ensures r != Added ==>
                unchanged(cartService) && (shoppingCart != null ==> unchanged(shoppingCart))
      ensures r == Added ==>
                cartService.CartItemsOf(shoppingCart.userId)
                == Upsert(old(cartService.CartItemsOf(shoppingCart.userId)), book.bookId, quantity)
                && shoppingCart.lines == Mirror(cartService.CartItemsOf(shoppingCart.userId))
    {
      if shoppingCart == null {
        return Rejected(CartNotInitialized);
      }
      var latestBook := bookService.FindBookById(book.bookId);
      if latestBook == None {
        return NullBook;
      }
      var availableStock := latestBook.value.physicalCopies;
      if availableStock < quantity {
        return Rejected(StockMessage(availableStock));
      }
      UpdateCart(book, quantity);
      return Added;
    }

    /** handleAddButton: with the dialog's text (None when it was cancelled)
        parses the quantity, adds the book, and shows a success alert or an
        error dialog with the refusal's message. A NullPointerException
        escapes the handler and shows no dialog. Only an add that went
        through changes the carts. */
    method HandleAddButton(book: Book, input: Option<string>) returns (shown: Option<Notice>)
      requires Valid()
      modifies shoppingCart, cartService
      ensures Valid()
      ensures input == None ==> shown == None
      ensures input.Some? && ParseQuantity(input.value).Failure? ==>
                shown == Some(Error("Invalid Input", ParseQuantity(input.value).error))
      ensures input.Some? && ParseQuantity(input.value).Success? ==>
                var q := ParseQuantity(input.value).value;
                && (shown == Some(Alert("Success", IntToString(q) + " copies added to your cart.")) <==>
                      shoppingCart != null && book.bookId in bookService.physical
                      && q <= bookService.physical[book.bookId])
                && (shoppingCart == null ==> shown == Some(Error("Invalid Input", CartNotInitialized)))
                && (shoppingCart != null && book.bookId !in bookService.physical ==> shown == None)
                && (shoppingCart != null && book.bookId in bookService.physical
                    && bookService.physical[book.bookId] < q ==>
                      shown == Some(Error("Invalid Input", StockMessage(bookService.physical[book.bookId]))))
                && (shown == Some(Alert("Success", IntToString(q) + " copies added to your cart.")) ==>
                      cartService.CartItemsOf(shoppingCart.userId)
                      == Upsert(old(cartService.CartItemsOf(shoppingCart.userId)), book.bookId, q)
                      && shoppingCart.lines == Mirror(cartService.CartItemsOf(shoppingCart.userId)))
      ensures shown.Some? && shown.value.Alert? ==>
                input.Some? && ParseQuantity(input.value).Success?
      ensures !(shown.Some? && shown.value.Alert?) ==>
                unchanged(cartService) && (shoppingCart != null ==> unchanged(shoppingCart))
    {
      if input == None {
        return None;
      }
      var parsed := ParseQuantity(input.value);
      if parsed.Failure? {
        return Some(Error("Invalid Input", parsed.error));
      }
      var quantity := parsed.value;
      var result := ValidateStockAndAddToCart(book, quantity);
      match result
      case Added =>
        shown := Some(Alert("Success", IntToString(quantity) + " copies added to your cart."));
      case Rejected(message) =>
        shown := Some(Error("Invalid Input", message));
      case NullBook =>
        shown := None;
    }
  }
}
