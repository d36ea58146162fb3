/** The application store: the authentication slice (`userList`, `isLoggedIn`,
    `userLoggedIn`) and the product slice (`cart`, `itemInCart`, `myorders`,
    `total`) as the fields of one object, next to the remote "buybusy-redux"
    collection they are synchronised with.

    Each reducer is a method that changes its own fields. Each thunk is a method
    that runs its dispatches in order and then applies its `fulfilled` case. A
    thunk whose body throws is rejected: the dispatches after the throw do not
    happen and its `fulfilled` case does not run. A body throws when it reads
    `userLoggedIn.id` while `userLoggedIn` is null, calls `updateDoc` on a
    document that does not exist, dispatches `increaseProductQuantity(-1)` on an
    empty cart (`at(-1)` finds no line), or reads `cart[-1].quantity` for a name
    that is not in the cart. A thunk that returns early is still fulfilled. Remote writes reach the
    local `cart`, `myorders` and `userList` only through the snapshot-delivery
    methods, which stand for the live listeners' callbacks. */
module Redux {
  import opened Prelude
  import opened Firestore
  import opened Dates
  import opened Cart
  import opened Users

  /** A write to the logged-in user's document goes through: there is a logged-in
      user and its document exists. */
  predicate CanWrite(remote: map<string, UserDoc>, user: Option<UserRecord>) {
    user.Some? && user.value.id in remote
  }

  /** `updateDoc(doc(db, "buybusy-redux", userLoggedIn.id), {cart: c})`, where a
      null `userLoggedIn` throws before anything is written. */
  function WriteUserCart(remote: map<string, UserDoc>, user: Option<UserRecord>, c: seq<CartItem>): map<string, UserDoc> {
    if user.Some? then WriteCart(remote, user.value.id, c) else remote
  }

  /** The cart array of the logged-in user's document. */
  function UserCart(remote: map<string, UserDoc>, user: Option<UserRecord>): seq<CartItem> {
    if user.Some? then CartOf(remote, user.value.id) else []
  }

  /** When document `id` holds `cart` and no line of it has the product's name,
      `arrayUnion` of the new line leaves the document holding `cart` plus that
      line at the end, whose amount is one more unit at the product's price and
      whose count is one more. */
  lemma StoredNewLine(remote: map<string, UserDoc>, id: string, cart: seq<CartItem>, p: Product)
    requires id in remote && remote[id].cart == cart && IndexOfName(cart, p.name) == -1
    ensures var stored := WriteCart(remote, id, ArrayUnion(CartOf(remote, id), NewLine(p)))[id].cart;
            stored == cart + [NewLine(p)]
            && CartTotal(stored) == CartTotal(cart) + p.price
            && CartCount(stored) == CartCount(cart) + 1
  {
    NewNameIsNewLine(cart, p);
    TotalsOfAppend(cart, NewLine(p));
    assert LineTotal(NewLine(p)) == p.price;
  }

  /** `itemInCart` after the `fulfilled` case of `decreaseQuantThunk`. */
  function AfterDecreaseFulfilled(itemInCart: int): int {
    if itemInCart > 1 then itemInCart - 1 else itemInCart
  }

  /** What a purchase does to the collection: the order is added to document
      `id`'s orders by `arrayUnion`, and the stored cart is emptied unless the
      running count was zero (then `clearCartThunk` writes nothing). */
  function PurchaseWrites(remote: map<string, UserDoc>, id: string, order: Order, itemInCart: int): map<string, UserDoc> {
    var ordered := WriteOrders(remote, id, ArrayUnion(OrdersOf(remote, id), order));
    if itemInCart == 0 then ordered else WriteCart(ordered, id, [])
  }

  /** A purchase adds exactly one order, the given one, to the buyer's orders
      unless an equal order is already stored (then none); it empties the stored
      cart when the count was not zero; it touches no other document. The order's
      date reads back as the day it was built from. */
  lemma PurchaseRecordsOrder(remote: map<string, UserDoc>, id: string, year: nat, month: nat, day: nat,
                             list: seq<CartItem>, amount: int, itemInCart: int)
    requires id in remote
    ensures var order := Order(GetDate(year, month, day), list, amount);
            var r := PurchaseWrites(remote, id, order, itemInCart);
            && r.Keys == remote.Keys
            && (order !in remote[id].orders ==> r[id].orders == remote[id].orders + [order])
            && (order in remote[id].orders ==> r[id].orders == remote[id].orders)
            && order in r[id].orders
            && r[id].cart == (if itemInCart == 0 then remote[id].cart else [])
            && r[id].name == remote[id].name && r[id].email == remote[id].email
            && r[id].password == remote[id].password
            && (forall other :: other in remote && other != id ==> r[other] == remote[other])
            && ParseDate(order.date) == Some((year, month, day))
  {
    DateRoundTrip(year, month, day);
  }

  class Store {
    // authReducer
    var userList: seq<UserRecord>
    var isLoggedIn: bool
    var userLoggedIn: Option<UserRecord>
    // productReducer
    var cart: seq<CartItem>
    var itemInCart: int
    var myorders: seq<Order>
    var total: int
    // the remote collection, and the live listeners opened on it
    var remote: map<string, UserDoc>
    var listeningToUsers: bool
    var cartListeners: set<string>

    /** Both slices in their initial state, over a collection as it stands. */
    constructor (collection: map<string, UserDoc>)
      ensures userList == [] && !isLoggedIn && userLoggedIn == None
      ensures cart == [] && itemInCart == 0 && myorders == [] && total == 0
      ensures remote == collection && !listeningToUsers && cartListeners == {}
      ensures SessionAgrees() && TotalsMatchCart()
    {
      userList, isLoggedIn, userLoggedIn := [], false, None;
      cart, itemInCart, myorders, total := [], 0, [], 0;
      remote, listeningToUsers, cartListeners := collection, false, {};
    }

    /** The login flag and the logged-in record agree. */
    ghost predicate SessionAgrees()
      reads this
    {
      isLoggedIn <==> userLoggedIn.Some?
    }

    /** The running amount and count are those of the local cart. */
    ghost predicate TotalsMatchCart()
      reads this
    {
      total == CartTotal(cart) && itemInCart == CartCount(cart)
    }

    /** The running amount and count are those of document `id`'s cart, which the
        next snapshot of that document will deliver as the local cart. */
    ghost predicate TotalsMatchRemote(id: string)
      reads this
    {
      id in remote && total == CartTotal(remote[id].cart) && itemInCart == CartCount(remote[id].cart)
    }

    /** The local cart is the logged-in user's stored cart. */
    ghost predicate CartSynced()
      reads this
    {
      userLoggedIn.Some? && userLoggedIn.value.id in remote && remote[userLoggedIn.value.id].cart == cart
    }

    // ----- authReducer reducers -----

    method SetUserList(users: seq<UserRecord>)
      modifies this`userList
      ensures userList == users
    {
      userList := users;
    }

    method SetLoggedIn(b: bool)
      modifies this`isLoggedIn
      ensures isLoggedIn == b
    {
      isLoggedIn := b;
    }

    method SetUserLoggedIn(user: Option<UserRecord>)
      modifies this`userLoggedIn
      ensures userLoggedIn == user
    {
      userLoggedIn := user;
    }

    // ----- productReducer reducers -----

    method SetMyOrders(orders: seq<Order>)
      modifies this`myorders
      ensures myorders == orders
    {
      myorders := orders;
    }

    method SetCart(c: seq<CartItem>)
      modifies this`cart
      ensures cart == c
    {
      cart := c;
    }

    /** `state.cart.at(index).quantity++`: only that line's quantity changes, by one. */
    method IncreaseProductQuantity(index: int)
      requires 0 <= index < |cart|
      modifies this`cart
      ensures cart == Bump(old(cart), index, 1)
      ensures |cart| == |old(cart)| && cart[index].quantity == old(cart[index].quantity) + 1
      ensures cart[index] == old(cart[index]).(quantity := cart[index].quantity)
      ensures forall j :: 0 <= j < |cart| && j != index ==> cart[j] == old(cart[j])
    {
      cart := cart[index := cart[index].(quantity := cart[index].quantity + 1)];
    }

    /** `state.cart.at(index).quantity--`: only that line's quantity changes, by one. */
    method DecreaseProductQuantity(index: int)
      requires 0 <= index < |cart|
      modifies this`cart
      ensures cart == Bump(old(cart), index, -1)
      ensures |cart| == |old(cart)| && cart[index].quantity == old(cart[index].quantity) - 1
      ensures cart[index] == old(cart[index]).(quantity := cart[index].quantity)
      ensures forall j :: 0 <= j < |cart| && j != index ==> cart[j] == old(cart[j])
    {
      cart := cart[index := cart[index].(quantity := cart[index].quantity - 1)];
    }

    method IncreaseTotalItem()
      modifies this`itemInCart
      ensures itemInCart == old(itemInCart) + 1
    {
      itemInCart := itemInCart + 1;
    }

    method IncreaseTotalAmount(amount: int)
      modifies this`total
      ensures total == old(total) + amount
    {
      total := total + amount;
    }

    method ReduceTotalAmount(amount: int)
      modifies this`total
      ensures total == old(total) - amount
    {
      total := total - amount;
    }

    // ----- productReducer extra reducers (the `fulfilled` cases) -----

    /** `getInitialCartOrdersThunk.fulfilled`: with a cart as payload, `total` and
        `itemInCart` are recomputed from it; with no payload nothing changes. */
    method GetInitialCartOrdersFulfilled(payload: Option<seq<CartItem>>)
      modifies this`total, this`itemInCart
      ensures payload.Some? ==> total == CartTotal(payload.value) && itemInCart == CartCount(payload.value)
      ensures payload.None? ==> total == old(total) && itemInCart == old(itemInCart)
    {
      if payload.Some? {
        var sum, len := RecomputeTotals(payload.value);
        total := sum;
        itemInCart := len;
      }
    }

    method IncreaseQuantFulfilled()
      modifies this`itemInCart
      ensures itemInCart == old(itemInCart) + 1
    {
      itemInCart := itemInCart + 1;
    }

    /** `decreaseQuantThunk.fulfilled`: the count drops by one only while above one. */
    method DecreaseQuantFulfilled()
      modifies this`itemInCart
      ensures itemInCart == AfterDecreaseFulfilled(old(itemInCart))
      ensures old(itemInCart) > 1 ==> itemInCart == old(itemInCart) - 1
      ensures old(itemInCart) <= 1 ==> itemInCart == old(itemInCart)
    {
      if itemInCart > 1 {
        itemInCart := itemInCart - 1;
      }
    }

    /** `removeFromCartThunk.fulfilled`: the removed line's amount and quantity are
        taken off. */
    method RemoveFromCartFulfilled(product: CartItem)
      modifies this`total, this`itemInCart
      ensures total == old(total) - product.quantity * product.price
      ensures itemInCart == old(itemInCart) - product.quantity
    {
      total := total - product.quantity * product.price;
      itemInCart := itemInCart - product.quantity;
    }

    /** `clearCartThunk.fulfilled`. */
    method ClearCartFulfilled()
      modifies this`itemInCart, this`total, this`cart
      ensures itemInCart == 0 && total == 0 && cart == []
      ensures TotalsMatchCart()
    {
      itemInCart := 0;
      total := 0;
      cart := [];
    }

    // ----- the remote collection -----

    /** `updateDoc(userRef, {cart: c})`; `ok` is false when the document does not
        exist and the write is rejected. */
    method UpdateDocCart(id: string, c: seq<CartItem>) returns (ok: bool)
      modifies this`remote
      ensures ok == (id in old(remote))
      ensures remote == WriteCart(old(remote), id, c)
    {
      ok := id in remote;
      remote := WriteCart(remote, id, c);
    }

    /** `updateDoc(userRef, {cart: arrayUnion(x)})`. */
    method CartArrayUnion(id: string, x: CartItem) returns (ok: bool)
      modifies this`remote
      ensures ok == (id in old(remote))
      ensures remote == WriteCart(old(remote), id, ArrayUnion(CartOf(old(remote), id), x))
    {
      ok := id in remote;
      remote := WriteCart(remote, id, ArrayUnion(CartOf(remote, id), x));
    }

    /** `updateDoc(userRef, {cart: arrayRemove(x)})`. */
    method CartArrayRemove(id: string, x: CartItem) returns (ok: bool)
      modifies this`remote
      ensures ok == (id in old(remote))
      ensures remote == WriteCart(old(remote), id, ArrayRemove(CartOf(old(remote), id), x))
    {
      ok := id in remote;
      remote := WriteCart(remote, id, ArrayRemove(CartOf(remote, id), x));
    }

    /** `updateDoc(userRef, {orders: arrayUnion(o)})`. */
    method OrdersArrayUnion(id: string, o: Order) returns (ok: bool)
      modifies this`remote
      ensures ok == (id in old(remote))
      ensures remote == WriteOrders(old(remote), id, ArrayUnion(OrdersOf(old(remote), id), o))
    {
      ok := id in remote;
      remote := WriteOrders(remote, id, ArrayUnion(OrdersOf(remote, id), o));
    }

    /** `addDoc(collection(db, "buybusy-redux"), d)` under the fresh id `id` that the
        store generates. */
    method AddDoc(id: string, d: UserDoc)
      requires id !in remote
      modifies this`remote
      ensures remote == old(remote)[id := d]
    {
      remote := remote[id := d];
    }

    // ----- authentication thunks and the user-list listener -----

    /** `getInitialUserList`: opens the live listener on the collection. */
    method GetInitialUserList()
      modifies this`listeningToUsers
      ensures listeningToUsers
    {
      listeningToUsers := true;
    }

    /** The collection listener's callback: `setUserList` with one entry per
        document, so the list mirrors the collection. */
    method DeliverUserListSnapshot(docs: seq<(string, UserDoc)>)
      requires listeningToUsers && IsSnapshot(docs, remote)
      modifies this`userList
      ensures userList == UsersFromSnapshot(docs)
      ensures Mirrors(userList, remote)
    {
      SetUserList(UsersFromSnapshot(docs));
      SnapshotMirrors(docs, remote);
    }

    /** `createUserThunk`: a sign-up whose e-mail is in the cached list creates
        nothing; otherwise exactly one new document, under the fresh id `newId`,
        with the given name, e-mail and password and an empty cart and order list.
        The cached list changes only when the listener delivers the collection. */
    method CreateUserThunk(name: string, email: string, password: string, newId: string)
      requires newId !in remote
      modifies this`remote
      ensures (exists j :: 0 <= j < |userList| && userList[j].email == email) ==> remote == old(remote)
      ensures (forall j :: 0 <= j < |userList| ==> userList[j].email != email) ==>
                remote == old(remote)[newId := NewUserDoc(name, email, password)]
                && remote.Keys == old(remote).Keys + {newId}
    {
      var index := IndexOfEmail(userList, email);
      if index != -1 {
        return;
      }
      AddDoc(newId, NewUserDoc(name, email, password));
    }

    /** `createSessionThunk`: the first cached entry with the e-mail decides. Unknown
        e-mail or wrong password: false, session untouched. Matching password:
        logged in as that entry, true. */
    method CreateSessionThunk(email: string, password: string) returns (ok: bool)
      modifies this`isLoggedIn, this`userLoggedIn
      ensures ok <==> FirstHasPassword(userList, email, password)
      ensures ok ==> isLoggedIn && userLoggedIn == Some(SignIn(userList, email, password).user)
      ensures ok ==> exists k :: FirstWithEmail(userList, email, k) && userLoggedIn == Some(userList[k])
      ensures !ok ==> isLoggedIn == old(isLoggedIn) && userLoggedIn == old(userLoggedIn)
      ensures NoUserWithEmail(userList, email) ==> !ok
      ensures FirstLacksPassword(userList, email, password) ==> !ok
      ensures old(SessionAgrees()) ==> SessionAgrees()
    {
      SignInOutcomes(userList, email, password);
      var index := IndexOfEmail(userList, email);
      if index == -1 {
        return false;
      }
      if userList[index].password == password {
        SetLoggedIn(true);
        SetUserLoggedIn(Some(userList[index]));
        return true;
      } else {
        return false;
      }
    }

    /** `removeSessionThunk` and its `fulfilled` case: logged out. */
    method RemoveSessionThunk()
      modifies this`isLoggedIn, this`userLoggedIn
      ensures !isLoggedIn && userLoggedIn == None
      ensures SessionAgrees()
    {
      isLoggedIn := false;
      userLoggedIn := None;
    }

    // ----- product thunks and the user-document listener -----

    /** `getInitialCartOrdersThunk`: when logged in, opens the listener on the
        user's document and recomputes `total` and `itemInCart` from the local cart
        as it stands; when logged out, the payload is undefined and nothing
        changes. */
    method GetInitialCartOrdersThunk()
      modifies this`cartListeners, this`total, this`itemInCart
      ensures !isLoggedIn ==>
                cartListeners == old(cartListeners) && total == old(total) && itemInCart == old(itemInCart)
      ensures isLoggedIn && userLoggedIn.Some? ==>
                cartListeners == old(cartListeners) + {userLoggedIn.value.id}
                && total == CartTotal(cart) && itemInCart == CartCount(cart)
      ensures isLoggedIn && userLoggedIn.None? ==>
                cartListeners == old(cartListeners) && total == old(total) && itemInCart == old(itemInCart)
      ensures isLoggedIn && userLoggedIn.Some? ==> TotalsMatchCart()
    {
      if isLoggedIn {
        if userLoggedIn.None? {
          return;
        }
        cartListeners := cartListeners + {userLoggedIn.value.id};
        GetInitialCartOrdersFulfilled(Some(cart));
      } else {
        GetInitialCartOrdersFulfilled(None);
      }
    }

    /** The document listener's callback: `setCart(data.cart)` and
        `setMyOrders(data.orders)`; a missing document makes `data` undefined and
        the callback throws before either dispatch. */
    method DeliverCartSnapshot(id: string)
      requires id in cartListeners
      modifies this`cart, this`myorders
      ensures id in remote ==> cart == remote[id].cart && myorders == remote[id].orders
      ensures id !in remote ==> cart == old(cart) && myorders == old(myorders)
      ensures old(TotalsMatchRemote(id)) ==> TotalsMatchCart()
    {
      if id !in remote {
        return;
      }
      SetCart(remote[id].cart);
      SetMyOrders(remote[id].orders);
    }

    /** `updateCartInDatabase`: writes the local cart over the user's stored cart. */
    method UpdateCartInDatabase()
      modifies this`remote
      ensures remote == WriteUserCart(old(remote), userLoggedIn, cart)
    {
      if userLoggedIn.None? {
        return;
      }
      var _ := UpdateDocCart(userLoggedIn.value.id, cart);
    }

    /** `increaseQuantThunk`: the line found by name (or, for an absent name, the
        last line, which is what `at(-1)` reaches) gains one item, `total` rises by
        the product's price, the local cart is written to the user's document and
        the `fulfilled` case adds one to `itemInCart`. On an empty cart `at(-1)` is
        undefined and the thunk is rejected with nothing changed. */
    method IncreaseQuantThunk(product: CartItem)
      modifies this`cart, this`total, this`itemInCart, this`remote
      ensures old(cart) == [] ==>
                cart == old(cart) && total == old(total) && itemInCart == old(itemInCart) && remote == old(remote)
      ensures old(cart) != [] ==>
                var i := AtIndex(old(cart), product.name);
                && cart == Bump(old(cart), i, 1)
                && total == old(total) + product.price
                && itemInCart == old(itemInCart) + 1
                && remote == WriteUserCart(old(remote), userLoggedIn, cart)
      ensures (IndexOfName(old(cart), product.name) >= 0
               && old(cart)[IndexOfName(old(cart), product.name)].price == product.price
               && old(TotalsMatchCart())) ==> TotalsMatchCart()
      ensures old(QuantitiesPositive(cart)) ==> QuantitiesPositive(cart)
      ensures old(cart) != [] && CanWrite(old(remote), userLoggedIn) ==> CartSynced()
    {
      var index := IndexOfName(cart, product.name);
      if index == -1 {
        if |cart| == 0 {
          return;
        }
        index := |cart| - 1;
      }
      ghost var before := cart;
      IncreaseProductQuantity(index);
      IncreaseTotalAmount(product.price);
      UpdateCartInDatabase();
      IncreaseQuantFulfilled();
      TotalsOfBump(before, index, 1);
    }

    /** The body of `removeFromCartThunk` up to its `return`: `arrayRemove` of
        the product from the logged-in user's stored cart. It completes exactly
        when there is a logged-in user and the document exists; a null user throws
        before anything is written. */
    method RemoveFromCartRequest(product: CartItem) returns (ok: bool)
      modifies this`remote
      ensures ok == CanWrite(old(remote), userLoggedIn)
      ensures remote == WriteUserCart(old(remote), userLoggedIn, ArrayRemove(UserCart(old(remote), userLoggedIn), product))
    {
      if userLoggedIn.None? {
        return false;
      }
      ok := CartArrayRemove(userLoggedIn.value.id, product);
    }

    /** `removeFromCartThunk`: every stored line equal to `product` is deleted from
        the user's document, and the `fulfilled` case takes the product's amount and
        quantity off `total` and `itemInCart`. The local cart is left to the next
        snapshot. Logged out or with no document, the thunk is rejected and nothing
        changes. */
    method RemoveFromCartThunk(product: CartItem)
      modifies this`total, this`itemInCart, this`remote
      ensures remote == WriteUserCart(old(remote), userLoggedIn, ArrayRemove(UserCart(old(remote), userLoggedIn), product))
      ensures CanWrite(old(remote), userLoggedIn) ==>
                total == old(total) - product.quantity * product.price
                && itemInCart == old(itemInCart) - product.quantity
      ensures !CanWrite(old(remote), userLoggedIn) ==> total == old(total) && itemInCart == old(itemInCart)
      ensures CanWrite(old(remote), userLoggedIn) ==> product !in remote[userLoggedIn.value.id].cart
      ensures CanWrite(old(remote), userLoggedIn) && old(TotalsMatchRemote(userLoggedIn.value.id))
              && multiset(old(remote)[userLoggedIn.value.id].cart)[product] == 1
              ==> TotalsMatchRemote(userLoggedIn.value.id)
      ensures CanWrite(old(remote), userLoggedIn) && product !in old(remote)[userLoggedIn.value.id].cart ==>
                remote == old(remote)
    {
      if userLoggedIn.None? {
        return;
      }
      var id := userLoggedIn.value.id;
      ghost var stored := CartOf(remote, id);
      var ok := RemoveFromCartRequest(product);
      if !ok {
        return;
      }
      ghost var amount, count := total, itemInCart;
      RemoveFromCartFulfilled(product);
      assert remote[id].cart == ArrayRemove(stored, product);
      if amount == CartTotal(stored) && count == CartCount(stored) && multiset(stored)[product] == 1 {
        TotalsAfterRemovingOne(stored, product);
      }
      if product !in stored {
        ArrayRemoveAbsent(stored, product);
        RewriteSameCart(old(remote), id);
      }
    }

    /** `decreaseQuantThunk`. A name not in the cart makes `cart[-1].quantity`
        throw: rejected, nothing changes. A line holding one item is never brought
        to zero: the thunk dispatches `removeFromCartThunk` with the product,
        leaves the local cart alone and returns without waiting for it. Otherwise
        the line loses one item, `total` drops by its price and the local cart is
        written to the user's document. On both paths the `fulfilled` case lowers
        `itemInCart` by one only if it is above one. After a delegated removal it
        runs before the removal's own `fulfilled` case, which waits for the
        document write and then takes the removed quantity and amount off. */
    method DecreaseQuantThunk(product: CartItem)
      modifies this`cart, this`total, this`itemInCart, this`remote
      ensures IndexOfName(old(cart), product.name) == -1 ==>
                cart == old(cart) && total == old(total) && itemInCart == old(itemInCart) && remote == old(remote)
      ensures var i := IndexOfName(old(cart), product.name);
              i >= 0 && old(cart)[i].quantity == 1 ==>
                && cart == old(cart)
                && remote == WriteUserCart(old(remote), userLoggedIn, ArrayRemove(UserCart(old(remote), userLoggedIn), product))
                && (CanWrite(old(remote), userLoggedIn) ==>
                      total == old(total) - product.quantity * product.price
                      && itemInCart == AfterDecreaseFulfilled(old(itemInCart)) - product.quantity)
                && (!CanWrite(old(remote), userLoggedIn) ==>
                      total == old(total) && itemInCart == AfterDecreaseFulfilled(old(itemInCart)))
      ensures var i := IndexOfName(old(cart), product.name);
              i >= 0 && old(cart)[i].quantity != 1 ==>
                && cart == Bump(old(cart), i, -1)
                && total == old(total) - old(cart)[i].price
                && itemInCart == AfterDecreaseFulfilled(old(itemInCart))
                && remote == WriteUserCart(old(remote), userLoggedIn, cart)
      ensures old(QuantitiesPositive(cart)) ==> QuantitiesPositive(cart)
      ensures var i := IndexOfName(old(cart), product.name);
              i >= 0 && old(cart)[i].quantity > 1 && old(TotalsMatchCart()) && old(QuantitiesPositive(cart))
              ==> TotalsMatchCart()
    {
      var index := IndexOfName(cart, product.name);
      if index == -1 {
        return;
      }
      if cart[index].quantity == 1 {
        DecreaseLastItem(product);
      } else {
        DecreaseLine(index);
      }
    }

    /** The path of `decreaseQuantThunk` for a line holding one item: the removal
        is requested, the thunk's own `fulfilled` case runs, and then, when the
        document write went through, the removal's `fulfilled` case. */
    method DecreaseLastItem(product: CartItem)
      modifies this`total, this`itemInCart, this`remote
      ensures remote == WriteUserCart(old(remote), userLoggedIn, ArrayRemove(UserCart(old(remote), userLoggedIn), product))
      ensures CanWrite(old(remote), userLoggedIn) ==>
                total == old(total) - product.quantity * product.price
                && itemInCart == AfterDecreaseFulfilled(old(itemInCart)) - product.quantity
      ensures !CanWrite(old(remote), userLoggedIn) ==>
                total == old(total) && itemInCart == AfterDecreaseFulfilled(old(itemInCart))
    {
      var removed := RemoveFromCartRequest(product);
      DecreaseQuantFulfilled();
      if removed {
        RemoveFromCartFulfilled(product);
      }
    }

    /** The path of `decreaseQuantThunk` for any other line: one item fewer at
        `index`, `total` down by its price, the local cart written to the user's
        document, then the `fulfilled` case. */
    method DecreaseLine(index: int)
      requires 0 <= index < |cart|
      modifies this`cart, this`total, this`itemInCart, this`remote
      ensures cart == Bump(old(cart), index, -1)
      ensures total == old(total) - old(cart)[index].price
      ensures itemInCart == AfterDecreaseFulfilled(old(itemInCart))
      ensures remote == WriteUserCart(old(remote), userLoggedIn, cart)
      ensures old(cart)[index].quantity > 1 && old(QuantitiesPositive(cart)) ==> QuantitiesPositive(cart)
      ensures old(cart)[index].quantity > 1 && old(TotalsMatchCart()) && old(QuantitiesPositive(cart))
              ==> TotalsMatchCart()
    {
      ghost var before := cart;
      var price := cart[index].price;
      DecreaseProductQuantity(index);
      ReduceTotalAmount(price);
      UpdateCartInDatabase();
      TotalsOfBump(before, index, -1);
      if QuantitiesPositive(before) {
        CountCoversLine(before, index);
      }
      DecreaseQuantFulfilled();
    }

    /** `addToCartThunk`. Logged out: nothing is written and nothing changes. A name
        already in the cart: no new line; the thunk delegates to
        `increaseQuantThunk` with the stored line. A new name: the user's stored
        cart becomes its `arrayUnion` with `{quantity: 1, ...product}`, which an
        equal line already stored absorbs; when the write goes through, `total`
        rises by the price and `itemInCart` by one; the local cart waits for the
        snapshot. */
    method AddToCartThunk(product: Product)
      modifies this`cart, this`total, this`itemInCart, this`remote
      ensures !old(isLoggedIn) ==>
                cart == old(cart) && total == old(total) && itemInCart == old(itemInCart) && remote == old(remote)
      ensures var i := IndexOfName(old(cart), product.name);
              old(isLoggedIn) && i >= 0 ==>
                && cart == Bump(old(cart), i, 1)
                && |cart| == |old(cart)|
                && total == old(total) + old(cart)[i].price
                && itemInCart == old(itemInCart) + 1
                && remote == WriteUserCart(old(remote), userLoggedIn, cart)
                && (old(TotalsMatchCart()) ==> TotalsMatchCart())
      ensures old(isLoggedIn) && IndexOfName(old(cart), product.name) == -1 ==>
                && cart == old(cart)
                && remote == WriteUserCart(old(remote), userLoggedIn, ArrayUnion(UserCart(old(remote), userLoggedIn), NewLine(product)))
                && (CanWrite(old(remote), userLoggedIn) ==>
                      total == old(total) + product.price && itemInCart == old(itemInCart) + 1)
                && (!CanWrite(old(remote), userLoggedIn) ==>
                      total == old(total) && itemInCart == old(itemInCart))
      ensures old(isLoggedIn) && IndexOfName(old(cart), product.name) == -1
              && old(CartSynced()) && old(TotalsMatchCart()) ==>
                remote[userLoggedIn.value.id].cart == old(cart) + [NewLine(product)]
                && TotalsMatchRemote(userLoggedIn.value.id)
    {
      if !isLoggedIn {
        return;
      }
      var index := IndexOfName(cart, product.name);
      if index != -1 {
        IncreaseQuantThunk(cart[index]);
        return;
      }
      AddNewLine(product);
    }

    /** The new-name path of `addToCartThunk`: `arrayUnion` of the new line into
        the user's stored cart, then the amount and the count rise. */
    method AddNewLine(product: Product)
      requires IndexOfName(cart, product.name) == -1
      modifies this`total, this`itemInCart, this`remote
      ensures remote == WriteUserCart(old(remote), userLoggedIn, ArrayUnion(UserCart(old(remote), userLoggedIn), NewLine(product)))
      ensures CanWrite(old(remote), userLoggedIn) ==>
                total == old(total) + product.price && itemInCart == old(itemInCart) + 1
      ensures !CanWrite(old(remote), userLoggedIn) ==>
                total == old(total) && itemInCart == old(itemInCart)
      ensures old(CartSynced()) && old(TotalsMatchCart()) ==>
                remote[userLoggedIn.value.id].cart == cart + [NewLine(product)]
                && TotalsMatchRemote(userLoggedIn.value.id)
    {
      if userLoggedIn.Some? {
        var id := userLoggedIn.value.id;
        ghost var before, amount, count := remote, total, itemInCart;
        var ok := CartArrayUnion(id, NewLine(product));
        if ok {
          IncreaseTotalAmount(product.price);
          IncreaseTotalItem();
          if before[id].cart == cart && amount == CartTotal(cart) && count == CartCount(cart) {
            StoredNewLine(before, id, cart, product);
          }
        }
      }
    }

    /** `clearCartThunk`. With `itemInCart` at zero nothing is written, yet the
        `fulfilled` case still runs. Otherwise the user's stored cart is emptied
        first (a rejected write skips the `fulfilled` case). The `fulfilled` case
        sets `itemInCart` and `total` to zero and the local cart to empty. */
    method ClearCartThunk()
      modifies this`cart, this`total, this`itemInCart, this`remote
      ensures old(itemInCart) == 0 ==> remote == old(remote) && cart == [] && total == 0 && itemInCart == 0
      ensures old(itemInCart) != 0 && CanWrite(old(remote), userLoggedIn) ==>
                remote == WriteCart(old(remote), userLoggedIn.value.id, [])
                && cart == [] && total == 0 && itemInCart == 0
      ensures old(itemInCart) != 0 && !CanWrite(old(remote), userLoggedIn) ==>
                remote == old(remote) && cart == old(cart) && total == old(total) && itemInCart == old(itemInCart)
      ensures old(itemInCart) == 0 || CanWrite(old(remote), userLoggedIn) ==> TotalsMatchCart()
    {
      if itemInCart != 0 {
        if userLoggedIn.None? {
          return;
        }
        var ok := UpdateDocCart(userLoggedIn.value.id, []);
        if !ok {
          return;
        }
      }
      ClearCartFulfilled();
    }

    /** `purchaseAllThunk`: the order `{date, list: cart, amount: total}` of the
        cart as it stands is added to the user's orders by `arrayUnion`, then the
        cart is cleared through `clearCartThunk`; what that does to the stored
        documents is `PurchaseWrites`. The date is `year-month-day`. Logged out or
        with no document, the thunk is rejected and nothing changes. */
    method PurchaseAllThunk(year: nat, month: nat, day: nat)
      modifies this`cart, this`total, this`itemInCart, this`remote
      ensures !CanWrite(old(remote), userLoggedIn) ==>
                remote == old(remote) && cart == old(cart) && total == old(total) && itemInCart == old(itemInCart)
      ensures CanWrite(old(remote), userLoggedIn) ==>
                remote == PurchaseWrites(old(remote), userLoggedIn.value.id,
                                         Order(GetDate(year, month, day), old(cart), old(total)), old(itemInCart))
      ensures CanWrite(old(remote), userLoggedIn) ==> cart == [] && total == 0 && itemInCart == 0
    {
      var date := GetDate(year, month, day);
      if userLoggedIn.None? {
        return;
      }
      var id := userLoggedIn.value.id;
      var ok := OrdersArrayUnion(id, Order(date, cart, total));
      if !ok {
        return;
      }
      assert CanWrite(remote, userLoggedIn);
      ClearCartThunk();
    }
  }
}
