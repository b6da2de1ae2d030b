/** The two carts the user side keeps: the stored cart behind ICartDAO (one
    cart per user, a list of book lines) and the in-memory ShoppingCart the
    screens show. */
module Carts {
  import opened Records
  import opened Wrappers

  /** Some line of items is for the book. */
  predicate HasBook(items: seq<CartItem>, bookId: int)
  {
    exists i :: 0 <= i < |items| && items[i].bookId == bookId
  }

  /** addOrUpdateBookInCart on one cart's lines: the quantity of a book
      already in the cart is set to the new value; a book not yet in it gets
      a new line at the end. */
  function Upsert(items: seq<CartItem>, bookId: int, quantity: int): (r: seq<CartItem>)
    ensures HasBook(items, bookId) ==> |r| == |items|
    ensures !HasBook(items, bookId) ==> |r| == |items| + 1 && r[|items|] == CartItem(bookId, quantity)
    ensures forall i :: 0 <= i < |items| ==>
              r[i] == if items[i].bookId == bookId then CartItem(bookId, quantity) else items[i]
  {
    if HasBook(items, bookId) then
      seq(|items|, i requires 0 <= i < |items| =>
        if items[i].bookId == bookId then CartItem(bookId, quantity) else items[i])
    else items + [CartItem(bookId, quantity)]
  }

  /** After the upsert the cart holds the book, every line for it carries
      the new quantity, and doing it again changes nothing. */
  lemma UpsertSetsQuantity(items: seq<CartItem>, bookId: int, quantity: int)
    ensures var r := Upsert(items, bookId, quantity);
            && HasBook(r, bookId)
            && (forall i :: 0 <= i < |r| && r[i].bookId == bookId ==> r[i].quantity == quantity)
            && Upsert(r, bookId, quantity) == r
  {
    var r := Upsert(items, bookId, quantity);
    if HasBook(items, bookId) {
      var k :| 0 <= k < |items| && items[k].bookId == bookId;
      assert r[k].bookId == bookId;
    } else {
      assert r[|items|].bookId == bookId;
    }
    assert HasBook(r, bookId);
    var rr := Upsert(r, bookId, quantity);
    assert |rr| == |r|;
    forall i | 0 <= i < |r|
      ensures rr[i] == r[i]
    {
      if i < |items| {
        assert r[i] == if items[i].bookId == bookId then CartItem(bookId, quantity) else items[i];
      }
    }
  }

  /** The stored carts: which cart each user has and each cart's lines. */
  class CartStore {
    var cartOf: map<int, int>
    var contents: map<int, seq<CartItem>>
    var nextCartId: int

    ghost predicate Valid()
      reads this
    {
      && (forall u :: u in cartOf ==> cartOf[u] in contents)
      && (forall c :: c in contents ==> c < nextCartId)
      && (forall u, v :: u in cartOf && v in cartOf && u != v ==> cartOf[u] != cartOf[v])
    }

    /** The lines of the user's stored cart, none if the user has no cart. */
    function CartItemsOf(userId: int): seq<CartItem>
      reads this
    {
      if userId in cartOf then GetCartItems(cartOf[userId]) else []
    }

    /** getCartItems: the lines of the cart, none for an unknown cart. */
    function GetCartItems(cartId: int): (items: seq<CartItem>)
      reads this
      ensures cartId in contents ==> items == contents[cartId]
      ensures cartId !in contents ==> items == []
    {
      if cartId in contents then contents[cartId] else []
    }

    /** getOrCreateCart: the user's cart, created empty on first use. */
    method GetOrCreateCart(userId: int) returns (cartId: int)
      requires Valid()
      modifies this
      ensures Valid()
      ensures userId in cartOf && cartId == cartOf[userId]
      ensures userId in old(cartOf) ==>
                cartId == old(cartOf)[userId] && cartOf == old(cartOf)
                && contents == old(contents) && nextCartId == old(nextCartId)
      ensures userId !in old(cartOf) ==>
                cartId !in old(contents) && cartOf == old(cartOf)[userId := cartId]
                && contents == old(contents)[cartId := []]
    {
      if userId in cartOf {
        cartId := cartOf[userId];
      } else {
        cartId := nextCartId;
        nextCartId := nextCartId + 1;
        cartOf := cartOf[userId := cartId];
        contents := contents[cartId := []];
      }
    }

    /** addOrUpdateBookInCart: the upsert on an existing cart. */
    method AddOrUpdateBookInCart(cartId: int, bookId: int, quantity: int)
      requires Valid()
      modifies this
      ensures Valid()
      ensures cartId in old(contents) ==>
                contents == old(contents)[cartId := Upsert(old(contents)[cartId], bookId, quantity)]
      ensures cartId !in old(contents) ==> contents == old(contents)
      ensures cartOf == old(cartOf) && nextCartId == old(nextCartId)
    {
      if cartId in contents {
        contents := contents[cartId := Upsert(contents[cartId], bookId, quantity)];
      }
    }
  }

  /** One line of the in-memory cart: the book as the book service returned
      it (None when that was null) and the quantity. */
  datatype CartLine = CartLine(book: Option<Book>, quantity: int)

  /** The in-memory ShoppingCart of a user. */
  class ShoppingCart {
    const userId: int
    const cartId: int
    var lines: seq<CartLine>

    constructor (userId: int, cartId: int)
      ensures this.userId == userId && this.cartId == cartId && lines == []
    {
      this.userId := userId;
      this.cartId := cartId;
      lines := [];
    }

    /** addBook: appends a line. */
    method AddBook(book: Option<Book>, quantity: int)
      modifies this
      ensures lines == old(lines) + [CartLine(book, quantity)]
    {
      lines := lines + [CartLine(book, quantity)];
    }

    /** clearCart: removes every line. */
    method ClearCart()
      modifies this
      ensures lines == []
    {
      lines := [];
    }
  }
}
