# SnapShop store slices in Dafny

This project models the two Redux slices of the SnapShop storefront and proves
properties of that model.

- **Authentication slice** (`src/Redux/Reducers/authReducer.js`). It holds the cached
  user list, the login flag and the logged-in user record. Sign-up refuses an e-mail
  already in the list. Otherwise it creates one user document with an empty cart and
  no orders. Sign-in checks the credentials against the first cached entry with that
  e-mail, and it has three outcomes. Sign-out resets the session.
- **Product slice** (`src/Redux/Reducers/productReducer.js`). It holds the cart, the
  item count `itemInCart`, the running amount `total` and the user's orders. It has
  thunks to add, increase, decrease, remove, clear and purchase, and the one-off
  recomputation of `total` and `itemInCart` on first load.

Both slices are fields of one class, `Redux.Store`. Next to them sits the remote
"buybusy-redux" collection, a map from document id to `{name, email, password,
cart, orders}`. Reducers are methods that change only their own fields. A thunk is a
method that runs its dispatches in order and then applies its `fulfilled` case.
Thunk bodies can throw in four ways:

- they read `userLoggedIn.id` while no user is logged in;
- they call `updateDoc` on a document that does not exist;
- `increaseQuantThunk` dispatches `increaseProductQuantity(-1)` on an empty cart,
  and `at(-1)` finds no line;
- `decreaseQuantThunk` reads `cart[-1].quantity` for a name that is not in the cart.

In each case the thunk is rejected: the later dispatches and the `fulfilled` case do
not run. A thunk
that returns early is still fulfilled. So `clearCartThunk` resets the cart even when
`itemInCart` is already 0, and `decreaseQuantThunk` lowers the count even after it
has delegated to `removeFromCartThunk`. Remote writes reach local state only through
the two snapshot-delivery methods, which stand for the live listeners' callbacks.

The model keeps the source's behaviour as written, including its drift between the
running count and the cart. Two quirks are proved in `Scenarios`:

- Decreasing a line from one item runs two `fulfilled` cases. The decrease's own
  case comes first and lowers the count by one if it is above one. Then the
  removal's case subtracts the line's quantity. From a count of 3 with that line
  holding one item, the count ends at 1 while two items remain.
- Adding a product twice before the echo arrives counts it twice but stores it once.

The modules are:

- `Prelude`: the optional value and `findIndex`.
- `Firestore`: `arrayUnion` and `arrayRemove`.
- `Dates`: `getDate` and a reader for its output.
- `Cart`: lines, orders and the totals.
- `Users`: documents, the snapshot mapping, the sign-in check and field writes.
- `Redux`: the store.
- `Scenarios`: short client sessions.

Prices are whole numbers (for example cents), so sums are exact.

## Model

| member | source | states |
|---|---|---|
| `Prelude.FindIndex` | src/Redux/Reducers/productReducer.js:64 | the result is -1 exactly when no element matches; otherwise it is the first matching index |
| `Firestore.ArrayUnion` | src/Redux/Reducers/productReducer.js:128 | the array keeps its prefix and order and contains `x`; it grows by one exactly when `x` was absent; its elements are the old ones plus `x` |
| `Firestore.ArrayRemove` | src/Redux/Reducers/productReducer.js:150 | no element equals `x`; the other elements remain; the multiset loses exactly the copies of `x`; the length drops by their number |
| `Firestore.ArrayRemoveConcat` | src/Redux/Reducers/productReducer.js:150 | removing from a concatenation is removing from each part, so the kept elements stay in their order |
| `Firestore.RemoveUndoesUnion` | src/Redux/Reducers/productReducer.js:125-151 | removing a line that `arrayUnion` just added restores the array |
| `Dates.NatToDecimal` | src/Redux/Reducers/productReducer.js:17 | a number is written as decimal digits with no zero padding; it is one character exactly when the number is below ten |
| `Dates.GetDate` | src/Redux/Reducers/productReducer.js:12-18 | the date is digits and dashes only, with a digit at each end and a leading 0 only for year 0; it is five characters exactly when year, month and day are each a single digit |
| `Dates.DateRoundTrip` | src/Redux/Reducers/productReducer.js:12-18 | the date string splits at '-' into exactly three unpadded parts; it reads back as the year, month and day it was built from |
| `Cart.IndexOfName` | src/Redux/Reducers/productReducer.js:117 | the lookup by `name` gives -1 exactly when no line has the name; otherwise it gives the first line with it |
| `Cart.AtIndex` | src/Redux/Reducers/productReducer.js:225 | on a non-empty cart: when some line has the name, the result is the first such line; when none has it, the result is the last line |
| `Cart.NewNameIsNewLine` | src/Redux/Reducers/productReducer.js:117-129 | when no line has the product's name, `arrayUnion({quantity:1, ...product})` appends exactly that line |
| `Cart.RecomputeTotals` | src/Redux/Reducers/productReducer.js:260-266 | the loop yields `Σ price·quantity` and `Σ quantity` over the cart |
| `Cart.TotalsOfBump` | src/Redux/Reducers/productReducer.js:223-233 | moving one line's quantity by d moves the amount by d·price and the count by d |
| `Cart.TotalsOfAppend` | src/Redux/Reducers/productReducer.js:125-133 | appending a line adds its amount and its quantity |
| `Cart.TotalsOfArrayRemove` | src/Redux/Reducers/productReducer.js:148-151 | removing every copy of a line subtracts its amount and its quantity once for each copy the cart holds |
| `Cart.TotalsAfterRemovingOne` | src/Redux/Reducers/productReducer.js:280-285 | for a line stored once, removal subtracts exactly `quantity·price` and `quantity`, which are the fulfilled case's adjustments |
| `Cart.CountCoversLine` | src/Redux/Reducers/productReducer.js:274-278 | with every line holding at least one item, the count is at least any line's quantity, so the guard `itemInCart > 1` holds when a line holds more than one |
| `Users.UsersFromSnapshot` | src/Redux/Reducers/authReducer.js:23-28 | there is one entry per document, in order, each with that document's id and exactly its data |
| `Users.SnapshotMirrors` | src/Redux/Reducers/authReducer.js:22-30 | a list built from a snapshot of the collection has one entry per document, no id twice, and each entry equals its stored document |
| `Users.IndexOfEmail` | src/Redux/Reducers/authReducer.js:45 | the lookup by e-mail gives -1 exactly when no entry has it; otherwise it gives the first entry with it |
| `Users.SignIn` | src/Redux/Reducers/authReducer.js:76-101 | "email not found" only when no entry has the e-mail; "wrong password" only when the first entry with it has another password; success only with the first entry with it, holding this password, as the user |
| `Users.SignInOutcomes` | src/Redux/Reducers/authReducer.js:76-101 | "email not found" iff no entry has the e-mail; "wrong password" iff the first such entry has another password; success iff it has this one, and then that entry is the one logged in |
| `Users.SignInExactlyOne` | src/Redux/Reducers/authReducer.js:79-101 | for any list and credentials, exactly one of the three conditions holds |
| `Users.WriteCart` | src/Redux/Reducers/productReducer.js:51-53 | `updateDoc` of `cart` overwrites that field of that document only; a missing document leaves the collection unchanged |
| `Users.WriteOrders` | src/Redux/Reducers/productReducer.js:194-199 | `updateDoc` of `orders` overwrites that field of that document only |
| `Redux.PurchaseRecordsOrder` | src/Redux/Reducers/productReducer.js:193-202 | a purchase appends exactly the new order unless an equal order is already stored, in which case it appends nothing; it empties the stored cart unless the count was 0; other documents and fields are unchanged; the date reads back as the given day |
| `Redux.Store.constructor` | src/Redux/Reducers/productReducer.js:210-215 | both slices start empty: no users, logged out, empty cart, count 0, total 0, no orders |
| `Redux.Store.SetUserList` | src/Redux/Reducers/authReducer.js:122-124 | the user list is replaced wholesale |
| `Redux.Store.SetLoggedIn` | src/Redux/Reducers/authReducer.js:126-128 | the login flag is set to the payload |
| `Redux.Store.SetUserLoggedIn` | src/Redux/Reducers/authReducer.js:130-132 | the logged-in record is set to the payload |
| `Redux.Store.SetMyOrders` | src/Redux/Reducers/productReducer.js:218-221 | the orders are replaced |
| `Redux.Store.SetCart` | src/Redux/Reducers/productReducer.js:235-238 | the cart is replaced |
| `Redux.Store.IncreaseProductQuantity` | src/Redux/Reducers/productReducer.js:223-227 | only the quantity of the line at the index changes, by +1; the length and all other lines are unchanged |
| `Redux.Store.DecreaseProductQuantity` | src/Redux/Reducers/productReducer.js:229-233 | only the quantity of the line at the index changes, by −1; the length and all other lines are unchanged |
| `Redux.Store.IncreaseTotalItem` | src/Redux/Reducers/productReducer.js:240-243 | the count rises by one |
| `Redux.Store.IncreaseTotalAmount` | src/Redux/Reducers/productReducer.js:245-248 | the total rises by the payload |
| `Redux.Store.ReduceTotalAmount` | src/Redux/Reducers/productReducer.js:250-253 | the total drops by the payload |
| `Redux.Store.GetInitialCartOrdersFulfilled` | src/Redux/Reducers/productReducer.js:257-268 | with a cart, total = Σ price·quantity and count = Σ quantity; with no payload nothing changes |
| `Redux.Store.IncreaseQuantFulfilled` | src/Redux/Reducers/productReducer.js:270-272 | the count rises by one |
| `Redux.Store.DecreaseQuantFulfilled` | src/Redux/Reducers/productReducer.js:274-278 | the count drops by one only when it is above one |
| `Redux.Store.RemoveFromCartFulfilled` | src/Redux/Reducers/productReducer.js:280-285 | the total drops by quantity·price and the count by quantity |
| `Redux.Store.ClearCartFulfilled` | src/Redux/Reducers/productReducer.js:287-291 | count 0, total 0, empty cart, so the totals match the cart |
| `Redux.Store.UpdateDocCart` | src/Redux/Reducers/productReducer.js:173-175 | the stored cart is overwritten; the write fails exactly when the document is missing |
| `Redux.Store.CartArrayUnion` | src/Redux/Reducers/productReducer.js:127-129 | the stored cart becomes its `arrayUnion` with the line |
| `Redux.Store.CartArrayRemove` | src/Redux/Reducers/productReducer.js:149-151 | the stored cart becomes its `arrayRemove` of the line |
| `Redux.Store.OrdersArrayUnion` | src/Redux/Reducers/productReducer.js:194-199 | the stored orders become their `arrayUnion` with the order |
| `Redux.Store.AddDoc` | src/Redux/Reducers/authReducer.js:54-60 | the collection gains exactly the new document under its fresh id |
| `Redux.Store.GetInitialUserList` | src/Redux/Reducers/authReducer.js:17-33 | the collection listener is open |
| `Redux.Store.DeliverUserListSnapshot` | src/Redux/Reducers/authReducer.js:22-31 | the user list becomes the snapshot's entries and mirrors the collection |
| `Redux.Store.CreateUserThunk` | src/Redux/Reducers/authReducer.js:36-64 | a known e-mail creates no document; a new e-mail creates exactly one, with the given name, e-mail and password and an empty cart and orders |
| `Redux.Store.CreateSessionThunk` | src/Redux/Reducers/authReducer.js:67-103 | it returns true iff the first entry with the e-mail has this password, and then the user is logged in as that entry; otherwise it returns false with the session unchanged; session consistency is kept |
| `Redux.Store.RemoveSessionThunk` | src/Redux/Reducers/authReducer.js:106-140 | `isLoggedIn = false` and `userLoggedIn = null` |
| `Redux.Store.GetInitialCartOrdersThunk` | src/Redux/Reducers/productReducer.js:21-40 | logged in: the listener on the user's document opens, and total and count become those of the local cart; logged out: nothing changes |
| `Redux.Store.DeliverCartSnapshot` | src/Redux/Reducers/productReducer.js:30-34 | the local cart and orders become the stored ones (a missing document changes nothing); totals that matched the stored cart now match the local one |
| `Redux.Store.UpdateCartInDatabase` | src/Redux/Reducers/productReducer.js:43-55 | the local cart overwrites the logged-in user's stored cart |
| `Redux.Store.IncreaseQuantThunk` | src/Redux/Reducers/productReducer.js:58-75 | on an empty cart nothing changes; otherwise the line found by name, or the last line when no line has the name (`at(-1)`), gains one item, total rises by `product.price` and count rises by one; the local cart is written to the document when a user is logged in and the document exists, and otherwise the collection is unchanged; positive quantities are kept; totals that matched the cart keep matching when the name is found and `product.price` equals that line's price |
| `Redux.Store.DecreaseQuantThunk` | src/Redux/Reducers/productReducer.js:78-101 | a name not in the cart changes nothing. At quantity 1 the local cart is untouched (no line reaches 0). When a user is logged in and the document exists, every stored line equal to the product is removed, the count is first lowered only if above one and then loses the product's quantity, and the total loses quantity·price, even when no stored line was equal. Otherwise the collection and total are unchanged and only the count's `> 1` guard runs. At any other quantity the line loses one item, the total drops by its price, the count is lowered only if above one, and the local cart is written to the document when a user is logged in and the document exists. Positive quantities are kept on every path. Totals that matched the cart keep matching on this last path when, in addition, every line held at least one item |
| `Redux.Store.AddNewLine` | src/Redux/Reducers/productReducer.js:125-133 | the stored cart becomes its `arrayUnion` with `{quantity:1, ...product}`; when the write succeeds, total rises by the price and count by one; when the local cart was the stored one with matching totals, the stored cart is the local cart plus the new line and the totals match it |
| `Redux.Store.AddToCartThunk` | src/Redux/Reducers/productReducer.js:104-138 | logged out: nothing changes and nothing is written; a known name: no new line, and the effect of increase on the stored line; a new name: the local cart is unchanged and the stored cart becomes its `arrayUnion` with `{quantity:1, ...product}` (an equal line already stored absorbs it); only when the write goes through do total rise by the price and count by one; when the local cart was the stored one with matching totals, the stored cart is the local cart plus the new line and the totals match it |
| `Redux.Store.RemoveFromCartRequest` | src/Redux/Reducers/productReducer.js:143-155 | `arrayRemove` of the product from the logged-in user's stored cart; it completes exactly when a user is logged in and the document exists |
| `Redux.Store.RemoveFromCartThunk` | src/Redux/Reducers/productReducer.js:141-156 | the local cart is untouched. When a user is logged in and the document exists, every stored line equal to the product is deleted, the total drops by quantity·price and the count by quantity. Totals that matched the stored cart keep matching it when the line was stored exactly once. A line not stored leaves the collection unchanged while total and count still drop. Otherwise nothing changes |
| `Redux.Store.ClearCartThunk` | src/Redux/Reducers/productReducer.js:159-180 | with count 0 nothing is written but cart, total and count are still reset; otherwise, when a user is logged in and the document exists, the stored cart is emptied and then they are reset, and when not, nothing changes; in both reset cases the totals match the cart |
| `Redux.Store.PurchaseAllThunk` | src/Redux/Reducers/productReducer.js:183-204 | when a user is logged in and the document exists, the order of the pre-purchase cart and total, dated that day, is added as `PurchaseWrites` describes, then the cart, total and count are cleared; otherwise nothing changes |
| `Scenarios.SignedInStore` | src/Redux/Reducers/authReducer.js:76-96 | after loading the list and signing in with the stored credentials, the user is logged in as its own document |
| `Scenarios.AddTwiceScenario` | src/Redux/Reducers/productReducer.js:116-133 | a first add to an empty cart gives one line of quantity 1, count 1 and total = price; a second add after the echo gives quantity 2, not a second line |
| `Scenarios.AddTwiceBeforeEchoScenario` | src/Redux/Reducers/productReducer.js:125-133 | two adds before the echo store one line but count two items |
| `Scenarios.DecreaseFromOneScenario` | src/Redux/Reducers/productReducer.js:86-90 | decreasing a line from one removes it from the stored cart, and the count drops by two while two items remain |

## Left out

- Firestore itself is not modelled: the SDK calls, listener lifetimes and the unused
  `unsub` handles. The collection is a map. The listeners are a flag and a set of
  document ids. Their callbacks are explicit delivery methods.
- Document ids from `addDoc` are random. The fresh id is a parameter.
- Snapshot order is given by the caller. It is any order that lists every document
  once.
- Async interleaving is modelled for one order only. Thunks run as sequential
  steps. When `decreaseQuantThunk` delegates to `removeFromCartThunk`, the model
  runs the decrease's `fulfilled` case first and the removal's second. That is the
  usual order in the app, because the removal waits for its document write. The
  other order gives a different count when the count before is above one and the
  count after the removal is at most one. For example, two one-item lines with a
  count of 2 end at 0 in the modelled order and at 1 in the other.
- Remote writes always succeed when the document exists. Network and permission
  failures are not modelled. In the app such a failure rejects `addToCartThunk`,
  `removeFromCartThunk`, `clearCartThunk` and `purchaseAllThunk` before their state
  updates.
- Prices and totals are integers, not floating point.
- `getDate` does not read the clock. Year, month and day are parameters.
- `toast` notifications and the stylesheet import are not modelled.
- `window.localStorage` writes and `JSON.stringify` in sign-in and sign-out are not
  modelled.
- Redux Toolkit's `createSlice`, `createAsyncThunk` and `dispatch` are not modelled;
  only their effect on state is.
- The quantity reducers are modelled only on a valid index. `increaseQuantThunk`
  on an empty cart dispatches `increaseProductQuantity(-1)`, which throws. The model
  stands for that as the whole thunk being rejected with nothing changed.
- Products are modelled as `name`, `price` and one field that stands for all other
  catalog fields. A catalog product that itself carried a `quantity` field would
  override the 1 in `{quantity:1, ...product}`. That case is not modelled.
- `src/Component/Navbar/Navbar.js` is not part of this model. It is rendering and
  routing with no logic of its own.
