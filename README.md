# Trendprints cart engine

A Dafny model of the per-user shopping cart of the Trendprints shop backend
(`server.js`). The handlers treat each logged-in user as having one cart
document, which they create the first time the user reads the cart or adds to
it. The model's store holds at most one cart per user. A cart is an
ordered list of lines `{productId, name, price, quantity, image}` plus a
cached `total`. Three JSON routes work on it:

- `GET /api/cart` answers `{items: [], total: 0}` to a caller with no session
  and stores nothing. For a user it answers the stored cart, first creating
  and storing an empty one if there is none.
- `POST /api/cart/add` answers 401 `Login required` without a session. Otherwise
  it finds the first line for the product. If there is one, that line's
  quantity goes up by one and the request's name, price and image are ignored.
  If there is none, it appends a line with quantity 1. It then recomputes the
  total over all lines and stores the cart.
- `POST /api/cart/remove` answers 401 without a session. A user with no cart
  gets `{items: [], total: 0}` and nothing is stored. Otherwise it drops every
  line for the product, recomputes the total and stores the cart.

Layout:

- `wrappers.dfy` (module `Wrappers`): `Option` and `Result`.
- `cart_items.dfy` (module `CartItems`): the cart document as datatypes. It also
  holds the pure parts of the handlers as functions: `Total` (the `reduce`),
  `Find` (the `find`), `AddLine` (increment-or-append) and `RemoveAll` (the
  `filter`). The lemmas about them are here too.
- `cart_routes.dfy` (module `CartRoutes`): class `CartStore`. Its field
  `carts: map<UserId, Cart>` stands for the cart collection. Its methods `Get`,
  `Add` and `Remove` are the three handlers. Each one fetches a cart, changes it
  step by step and stores it back, as the handler does. `Valid()` is the store
  invariant that every method keeps: in every stored cart the cached total
  equals `Total` of its lines, no two lines share a product, and every line
  holds at least one unit.

The session is an `Option<UserId>` parameter. A price is an `int`, because
the catalogue prices are whole numbers.

## Model

| member | source | states |
|---|---|---|
| `CartItems.Total` | server.js:170 | The `reduce` over the lines, a fold from the left starting at 0 that adds each line's `LineTotal` (price×quantity), equals `Sum`, the front-to-back sum of every line's price×quantity. Its further properties are `TotalConcat`, `TotalUpdate` and `TotalAround`. |
| `CartItems.SumSnoc` | server.js:170 | Appending a line adds that line's price×quantity to the sum. |
| `CartItems.AddExistingLines` | server.js:166-167 | Adding a product that has a line replaces its first line by a copy whose quantity is one more, and changes nothing else. |
| `CartItems.LineTotalIncrement` | server.js:167-170 | One more unit of a line adds the line's price to its price×quantity. |
| `CartItems.Find` | server.js:166 | The result is the index of the FIRST line whose productId equals the requested one. Every earlier line is for another product. There is no result exactly when no line is for that product. |
| `CartItems.FindFirst` | server.js:166 | The line `find` picks is the one for the product that no earlier line is for. |
| `CartItems.AddLine` | server.js:166-168 | After an add the cart has a line for the product. The number of lines is unchanged if the product already had a line, and one more otherwise. |
| `CartItems.RemoveAll` | server.js:182 | After a remove no line is left for the product. The cart never grows. Removing a product with no line leaves the lines exactly as they were. |
| `CartItems.TotalConcat` | server.js:170 | The `reduce` total of two runs of lines joined together is the sum of their totals. |
| `CartItems.TotalUpdate` | server.js:167-170 | Changing one line changes the recomputed total by exactly the old line's price×quantity subtracted and the new one's added. |
| `CartItems.AddExisting` | server.js:166-170 | Adding a product that has a line raises that first line's quantity by exactly 1. Its name, price and image are kept and the request's are ignored. Every other line and the number of lines stay the same. The total grows by the stored price of that line. |
| `CartItems.AddNew` | server.js:166-170 | Adding a product with no line appends exactly `{productId, name, price, quantity: 1, image}` at the end. The earlier lines are unchanged and in order. The total grows by the price. |
| `CartItems.AddTwice` | server.js:166-170 | Adding the same new product twice gives one line with quantity 2, not two lines. The total grows by twice the price. |
| `CartItems.AddTwiceExample` | server.js:166-170 | A product priced 799 (the price of the first seeded product, server.js:72) added twice to an empty cart gives one line of quantity 2 and a total of 1598. |
| `CartItems.AddKeepsInvariant` | server.js:166-168 | If no two lines share a productId before an add, none do after it. If every quantity is at least 1 before, it still is after. |
| `CartItems.RemoveAllKeeps` | server.js:182 | A line survives a remove exactly when it was in the cart and is for another product. |
| `CartItems.RemoveAllConcat` | server.js:182 | Remove filters run by run, so the surviving lines keep their original relative order. |
| `CartItems.RemoveKeepsInvariant` | server.js:182 | If no two lines share a productId before a remove, none do after it. If every quantity is at least 1 before, it still is after. |
| `CartItems.RemoveAround` | server.js:182 | If line k is for the removed product, the result is the survivors before k followed by the survivors after k, whatever line k held. |
| `CartItems.TotalAround` | server.js:183 | The total is the total before line k, plus line k's price×quantity, plus the total after line k. |
| `CartItems.RemoveTotal` | server.js:182-183 | In a cart with one line per product, removing a product lowers the recomputed total by exactly that product's price×quantity. |
| `CartItems.RemoveUndoesAdd` | server.js:166-182 | A remove of a product gives the same lines whether or not an add of that product came just before it. |
| `CartItems.RemoveUndoesAddNew` | server.js:166-182 | Adding a product with no line and then removing it restores the lines exactly. |
| `CartRoutes.CartStore.Get` | server.js:152-157 | With no session the answer is `{items: [], total: 0}` and the store is unchanged. A user's stored cart is answered as is. A user with no cart gets an empty cart with total 0, and that cart is stored. The store invariant is kept. |
| `CartRoutes.CartStore.Add` | server.js:159-173 | With no session the answer is 401 "Login required" and no cart changes. Otherwise the user's lines, or no lines if there is no cart, become `AddLine` of them. The total becomes `Total` of the new lines. Only that user's cart is written. The store invariant is kept. |
| `CartRoutes.CartStore.Remove` | server.js:175-187 | With no session the answer is 401 and no cart changes. A user with no cart gets `{items: [], total: 0}` and nothing is stored. Otherwise the lines become `RemoveAll` of them and the total becomes `Total` of the remaining lines. Only that user's cart is written. The store invariant is kept. |

## Left out

- MongoDB persistence, the connection and the product seeding (server.js:29-34, 67-87): the store is an in-memory map and each handler's save is a map update.
- Signup, login, logout and the page routes (server.js:90-140): they hash passwords with bcrypt, look users up in the database and answer plain text. The cart only needs the session's user id, which is passed in.
- `/api/check-session` (server.js:189-194): it only projects the session's id and name.
- `/api/products` (server.js:143-150): it only reads the catalogue.
- Express middleware, static files, folder creation and server start (server.js:11-26, 197-208): these are framework and file-system setup.
- Order placement, order listing and the admin routes: they are not in `server.js`.
- Concurrent requests for the same user: the handlers read, change and write a whole cart without a lock, so two overlapping requests can lose an update. Each handler is modelled as one step.
- One cart per user: `cartSchema.userId` (server.js:51) has no unique index. Two overlapping first requests (the `Cart.create` at server.js:155, the save at server.js:171) can therefore store two carts for one user, and `findOne` then reads either. The model's map holds at most one cart per user, so it does not capture this.
- Number representation: prices and quantities are unbounded integers here. In the code they are JavaScript doubles, so fractional prices and rounding are not modelled. The request's price goes into the line without being checked against the catalogue, and the model keeps that.
- Missing or non-numeric price: when the request for a product with no line carries no price, or one that does not cast to a Number, the new line's price is unset. `price * quantity` is then `NaN` (server.js:170), the Number cast of `total` fails and `cart.save()` (server.js:171) rejects. Nothing is stored and the request gets no answer. The model's `price: int` always has a value, so `CartRoutes.CartStore.Add` does not capture this error path.
- Object ids: `productId` is an opaque string, stored as given and compared with `==`. The code stores the request's id cast to an ObjectId (server.js:53, 168). It then compares the stored id's `toString()`, which is always lower-case 24-digit hex, with the raw request string (server.js:166, 182). The model therefore stands for requests whose id is already in that canonical form. For any other spelling the code behaves differently. Take `"507F1F77BCF86CD799439011"` added twice: the code pushes two lines for the same ObjectId, each of quantity 1, and a remove with that spelling removes nothing. So `UniqueIds` in `CartRoutes.CartStore.Valid`, `CartItems.AddKeepsInvariant`, `CartItems.AddTwice`, `CartItems.RemoveUndoesAdd` and `CartItems.RemoveUndoesAddNew` hold only for canonical ids.
- Ids that do not cast: nothing in the code checks the request's id. An id that does not cast to an ObjectId, the empty string among them, makes the save at server.js:171 reject. No such line is stored and the request gets no answer. The model has no such failure: `CartRoutes.CartStore.Add` stores a line for any id, `""` included.
- Lines without an id: a line saved with no productId would make the next `toString()` on it throw (server.js:166, 182). The model assumes every line has an id.
- Document fields: the cart's own `_id` and `userId` are not part of the answered `Cart` value. The user id is the key of the store map.
