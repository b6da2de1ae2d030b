/** The beyourshelf SessionManager: who is logged in and their in-memory
    cart. A fresh session and a cleared one hold user id 0 and no names and
    no cart; the setters change only the fields they name. */
module Session {
  import opened Wrappers
  import opened Carts

  class SessionManager {
    var userId: int
    var username: Option<string>
    var firstName: Option<string>
    var lastName: Option<string>
    var shoppingCart: ShoppingCart?

    /** The state of a fresh or cleared session: Java's default values. */
    predicate IsCleared()
      reads this
    {
      userId == 0 && username == None && firstName == None && lastName == None
      && shoppingCart == null
    }

    constructor ()
      ensures IsCleared()
    {
      userId := 0;
      username := None;
      firstName := None;
      lastName := None;
      shoppingCart := null;
    }

    function GetUserId(): int reads this { userId }
    function GetUsername(): Option<string> reads this { username }
    function GetFirstName(): Option<string> reads this { firstName }
    function GetLastName(): Option<string> reads this { lastName }
    function GetShoppingCart(): ShoppingCart? reads this { shoppingCart }

    /** setUserDetails: the getters return the four values given; the cart
        is left as it was. */
    method SetUserDetails(userId: int, username: Option<string>, firstName: Option<string>,
                          lastName: Option<string>)
      modifies this`userId, this`username, this`firstName, this`lastName
      ensures GetUserId() == userId && GetUsername() == username
      ensures GetFirstName() == firstName && GetLastName() == lastName
      ensures GetShoppingCart() == old(GetShoppingCart())
    {
      this.userId := userId;
      this.username := username;
      this.firstName := firstName;
      this.lastName := lastName;
    }

    /** setShoppingCart: changes the cart and nothing else. */
    method SetShoppingCart(shoppingCart: ShoppingCart?)
      modifies this`shoppingCart
      ensures GetShoppingCart() == shoppingCart
      ensures GetUserId() == old(GetUserId()) && GetUsername() == old(GetUsername())
      ensures GetFirstName() == old(GetFirstName()) && GetLastName() == old(GetLastName())
    {
      this.shoppingCart := shoppingCart;
    }

    /** clearSession: back to the fresh state, whatever the state was; so
        clearing twice is clearing once. */
    method ClearSession()
      modifies this
      ensures IsCleared()
    {
      userId := 0;
      username := None;
      firstName := None;
      lastName := None;
      shoppingCart := null;
    }
  }

  /** Two cleared sessions agree on every getter: the cleared state is one
      state. */
  lemma ClearedStateUnique(a: SessionManager, b: SessionManager)
    requires a.IsCleared() && b.IsCleared()
    ensures a.GetUserId() == b.GetUserId() && a.GetUsername() == b.GetUsername()
    ensures a.GetFirstName() == b.GetFirstName() && a.GetLastName() == b.GetLastName()
    ensures a.GetShoppingCart() == b.GetShoppingCart()
  {
  }
}
