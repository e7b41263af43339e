/**
 * The cart handlers of server.js (`GET /api/cart`, `POST /api/cart/add`,
 * `POST /api/cart/remove`) over an in-memory store holding at most one cart
 * per user. The session is passed in as the optional id of its user.
 */
module CartRoutes {
  import opened Wrappers
  import opened CartItems

  /** The id a session carries once its user has signed up or logged in. */
  type UserId = string

  /** A JSON error answer: the HTTP status and the `error` text. */
  datatype ApiError = ApiError(status: nat, message: string)

  /** Add and remove answer this to a request without a session. */
  const LoginRequired: ApiError := ApiError(401, "Login required")

  /** The collection of cart documents, keyed by the user each belongs to. */
  class CartStore {
    var carts: map<UserId, Cart>

    /** Every stored cart keeps its total up to date, one line per product and no empty line. */
    ghost predicate Valid()
      reads this
    {
      forall user :: user in carts ==> WellFormed(carts[user])
    }

    /** The lines a handler starts from: the user's stored cart, or none if there is no cart yet. */
    function StoredItems(user: UserId): seq<Item>
      reads this
    {
      if user in carts then carts[user].items else []
    }

    constructor ()
      ensures Valid() && carts == map[]
    {
      carts := map[];
    }

    /**
     * `GET /api/cart`: a caller without a session gets a fresh empty cart and
     * nothing is stored; a user gets the stored cart, which is first created
     * empty if the user has none.
     */
    method Get(session: Option<UserId>) returns (cart: Cart)
      requires Valid()
      modifies this
      ensures Valid() && WellFormed(cart)
      ensures session.None? ==> cart == EmptyCart && carts == old(carts)
      ensures session.Some? && session.value in old(carts) ==>
        cart == old(carts)[session.value] && carts == old(carts)
      ensures session.Some? && session.value !in old(carts) ==>
        cart == EmptyCart && carts == old(carts)[session.value := EmptyCart]
    {
      if session.None? {
        return EmptyCart;
      }
      var user := session.value;
      if user !in carts {
        carts := carts[user := EmptyCart];
      }
      cart := carts[user];
    }

    /**
     * `POST /api/cart/add`: without a session, 401 and nothing changes.
     * Otherwise the first line for the product gains one unit, or a line of
     * quantity 1 is appended; the total is recomputed over all lines and the
     * cart is stored and answered.
     */
    method Add(session: Option<UserId>, id: ProductId, name: string, price: int, image: string)
      returns (r: Result<Cart, ApiError>)
      requires Valid()
      modifies this
      ensures Valid()
      ensures session.None? ==> r == Failure(LoginRequired) && carts == old(carts)
      ensures session.Some? ==>
        var items := AddLine(old(StoredItems(session.value)), id, name, price, image);
        && r == Success(Cart(items, Total(items)))
        && carts == old(carts)[session.value := r.value]
    {
      if session.None? {
        return Failure(LoginRequired);
      }
      var user := session.value;
      var items := if user in carts then carts[user].items else [];
      ghost var before := items;
      AddKeepsInvariant(before, id, name, price, image);
      var found := Find(items, id);
      if found.Some? {
        var k := found.value;
        items := items[k := items[k].(quantity := items[k].quantity + 1)];
      } else {
        items := items + [Item(id, name, price, 1, image)];
      }
      assert items == AddLine(before, id, name, price, image);
      var cart := Cart(items, Total(items));
      assert WellFormed(cart);
      carts := carts[user := cart];
      r := Success(cart);
    }

    /**
     * `POST /api/cart/remove`: without a session, 401 and nothing changes. A
     * user without a cart gets an empty cart and nothing is stored. Otherwise
     * every line for the product is dropped, the total is recomputed over the
     * remaining lines and the cart is stored and answered.
     */
    method Remove(session: Option<UserId>, id: ProductId) returns (r: Result<Cart, ApiError>)
      requires Valid()
      modifies this
      ensures Valid()
      ensures session.None? ==> r == Failure(LoginRequired) && carts == old(carts)
      ensures session.Some? && session.value !in old(carts) ==>
        r == Success(EmptyCart) && carts == old(carts)
      ensures session.Some? && session.value in old(carts) ==>
        var items := RemoveAll(old(carts)[session.value].items, id);
        && r == Success(Cart(items, Total(items)))
        && carts == old(carts)[session.value := r.value]
    {
      if session.None? {
        return Failure(LoginRequired);
      }
      var user := session.value;
      if user !in carts {
        return Success(EmptyCart);
      }
      var cart := carts[user];
      RemoveKeepsInvariant(cart.items, id);
      var items := RemoveAll(cart.items, id);
      cart := Cart(items, Total(items));
      carts := carts[user := cart];
      r := Success(cart);
    }
  }
}
