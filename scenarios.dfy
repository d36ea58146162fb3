/** Short sessions run against the store, each from a collection holding one
    user with an empty cart: what a client of the two slices can rely on, and
    where the running count drifts from the cart. */
module Scenarios {
  import opened Prelude
  import opened Firestore
  import opened Cart
  import opened Users
  import opened Redux

  /** A collection of one user document `d` under `uid`, its user list loaded and
      the user signed in with the stored credentials, the cart listener open and
      its first snapshot delivered. */
  method SignedInStore(uid: string, d: UserDoc) returns (s: Store)
    requires d.cart == []
    ensures s.remote == map[uid := d]
    ensures s.isLoggedIn && s.userLoggedIn == Some(WithId(uid, d))
    ensures s.cart == [] && s.total == 0 && s.itemInCart == 0
    ensures SyncedAs(s, uid)
    ensures fresh(s)
  {
    s := LoggedInStore(uid, d);
    s.GetInitialCartOrdersThunk();
    s.DeliverCartSnapshot(uid);
  }

  /** The user list loaded from a collection of one document and that user
      signed in with the stored credentials. */
  method LoggedInStore(uid: string, d: UserDoc) returns (s: Store)
    ensures s.remote == map[uid := d]
    ensures s.isLoggedIn && s.userLoggedIn == Some(WithId(uid, d))
    ensures s.cart == [] && s.total == 0 && s.itemInCart == 0
    ensures fresh(s)
  {
    s := new Store(map[uid := d]);
    s.GetInitialUserList();
    OneDocumentSnapshot(uid, d);
    s.DeliverUserListSnapshot([(uid, d)]);
    assert s.userList == [WithId(uid, d)];
    assert FirstWithEmail(s.userList, d.email, 0);
    var ok := s.CreateSessionThunk(d.email, d.password);
  }

  /** The one-document list is a snapshot of the one-document collection. */
  lemma OneDocumentSnapshot(uid: string, d: UserDoc)
    ensures IsSnapshot([(uid, d)], map[uid := d])
  {
    assert [(uid, d)][0].0 == uid;
  }

  /** Adding a product to an empty cart, then receiving the echo: one line of
      quantity one, the count one, the amount its price. Adding it again after the
      echo makes no second line: the line holds two, and the stored cart is the
      same as the local one. */
  method AddTwiceScenario(uid: string, d: UserDoc, p: Product)
    returns (afterFirst: seq<CartItem>, totalFirst: int, countFirst: int,
             afterSecond: seq<CartItem>, stored: seq<CartItem>, totalSecond: int, countSecond: int)
    requires d.cart == []
    ensures afterFirst == [NewLine(p)] && countFirst == 1 && totalFirst == p.price
    ensures afterSecond == [NewLine(p).(quantity := 2)] && stored == afterSecond
    ensures countSecond == 2 && totalSecond == 2 * p.price
  {
    var s := SignedInStore(uid, d);
    AddNewThenEcho(s, uid, p);
    assert s.cart == [NewLine(p)];
    afterFirst, totalFirst, countFirst := s.cart, s.total, s.itemInCart;
    AddAgainThenEcho(s, uid, p, 0);
    afterSecond, stored, totalSecond, countSecond := s.cart, s.remote[uid].cart, s.total, s.itemInCart;
  }

  /** Adding the same product twice before the echo arrives: the local cart still
      lacks it both times, so the second `arrayUnion` finds the equal line already
      stored and writes nothing, while the count and amount rise twice. */
  method AddTwiceBeforeEchoScenario(uid: string, d: UserDoc, p: Product)
    returns (stored: seq<CartItem>, total: int, count: int)
    requires d.cart == []
    ensures stored == [NewLine(p)]
    ensures count == 2 && total == 2 * p.price
    ensures count != CartCount(stored)
  {
    var s := LoggedInStore(uid, d);
    AddWithoutEcho(s, uid, p);
    OneLineAbsorbsItself(p);
    AddWithoutEcho(s, uid, p);
    stored, total, count := s.remote[uid].cart, s.total, s.itemInCart;
  }

  /** A first `arrayUnion` into an empty cart stores the new line; a second one
      of the same line changes nothing; that cart holds one item. */
  lemma OneLineAbsorbsItself(p: Product)
    ensures ArrayUnion([], NewLine(p)) == [NewLine(p)]
    ensures ArrayUnion([NewLine(p)], NewLine(p)) == [NewLine(p)]
    ensures CartCount([NewLine(p)]) == 1
  {
    TotalsOfSingle(NewLine(p));
  }

  /** Adding a product whose name is not in the local cart, with no echo
      delivered afterwards: the stored cart takes the line by `arrayUnion`, the
      local cart stays as it was, and the amount and count rise. */
  method AddWithoutEcho(s: Store, uid: string, p: Product)
    requires s.isLoggedIn && s.userLoggedIn.Some? && s.userLoggedIn.value.id == uid && uid in s.remote
    requires IndexOfName(s.cart, p.name) == -1
    modifies s`cart, s`total, s`itemInCart, s`remote
    ensures s.remote.Keys == old(s.remote.Keys)
    ensures uid in s.remote && s.remote[uid].cart == ArrayUnion(old(s.remote[uid].cart), NewLine(p))
    ensures s.cart == old(s.cart)
    ensures s.itemInCart == old(s.itemInCart) + 1 && s.total == old(s.total) + p.price
  {
    s.AddToCartThunk(p);
  }

  /** Signed in as `uid`, listening to its document, and the local cart is the
      stored one. */
  ghost predicate SyncedAs(s: Store, uid: string)
    reads s
  {
    s.isLoggedIn && s.userLoggedIn.Some? && s.userLoggedIn.value.id == uid
    && uid in s.cartListeners && uid in s.remote && s.remote[uid].cart == s.cart
  }

  /** Adding a product whose name is new, then receiving the echo. */
  method AddNewThenEcho(s: Store, uid: string, p: Product)
    requires SyncedAs(s, uid) && IndexOfName(s.cart, p.name) == -1
    modifies s`cart, s`total, s`itemInCart, s`remote, s`myorders
    ensures SyncedAs(s, uid) && s.remote.Keys == old(s.remote.Keys)
    ensures s.cart == old(s.cart) + [NewLine(p)]
    ensures s.itemInCart == old(s.itemInCart) + 1 && s.total == old(s.total) + p.price
  {
    NewNameIsNewLine(s.cart, p);
    AddWithoutEcho(s, uid, p);
    s.DeliverCartSnapshot(uid);
  }

  /** Adding a product whose name is stored at `index`, then receiving the echo. */
  method AddAgainThenEcho(s: Store, uid: string, p: Product, index: int)
    requires SyncedAs(s, uid) && 0 <= index < |s.cart| && IndexOfName(s.cart, p.name) == index
    modifies s`cart, s`total, s`itemInCart, s`remote, s`myorders
    ensures SyncedAs(s, uid) && s.remote.Keys == old(s.remote.Keys)
    ensures s.cart == Bump(old(s.cart), index, 1)
    ensures s.itemInCart == old(s.itemInCart) + 1 && s.total == old(s.total) + old(s.cart[index].price)
  {
    s.AddToCartThunk(p);
    s.DeliverCartSnapshot(uid);
  }

  /** A signed-in store whose cart, stored and local, holds one `p` and two `q`. */
  method TwoProductStore(uid: string, d: UserDoc, p: Product, q: Product) returns (s: Store)
    requires d.cart == [] && p.name != q.name
    ensures SyncedAs(s, uid) && s.remote.Keys == {uid}
    ensures s.cart == [NewLine(p), NewLine(q).(quantity := 2)]
    ensures s.itemInCart == 3
    ensures fresh(s)
  {
    s := SignedInStore(uid, d);
    AddNewThenEcho(s, uid, p);
    assert s.cart == [NewLine(p)];
    AddNewThenEcho(s, uid, q);
    assert s.cart == [NewLine(p), NewLine(q)];
    assert s.cart[0].name != q.name && s.cart[1].name == q.name;
    AddAgainThenEcho(s, uid, q, 1);
  }

  /** Decreasing `p` from one in a cart holding one `p` and two `q`: `p` is removed
      from the stored cart, but the count drops by two, to one, while two items
      remain. */
  method DecreaseFromOneScenario(uid: string, d: UserDoc, p: Product, q: Product)
    returns (stored: seq<CartItem>, count: int)
    requires d.cart == [] && p.name != q.name
    ensures stored == [NewLine(q).(quantity := 2)]
    ensures count == 1 && CartCount(stored) == 2
  {
    var s := TwoProductStore(uid, d, p, q);
    assert IndexOfName(s.cart, p.name) == 0;
    s.DecreaseQuantThunk(NewLine(p));
    stored, count := s.remote[uid].cart, s.itemInCart;
    assert stored == ArrayRemove([NewLine(p), NewLine(q).(quantity := 2)], NewLine(p));
    assert stored == [NewLine(q).(quantity := 2)];
    TotalsOfSingle(NewLine(q).(quantity := 2));
  }
}
