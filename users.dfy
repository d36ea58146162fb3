/** The user collection ("buybusy-redux"): one document per user, keyed by a
    document id, and the pure parts of the authentication slice that read it:
    the snapshot-to-list mapping, the e-mail lookup and the three outcomes of a
    sign-in. Passwords are plain strings compared for equality, as stored. */
module Users {
  import opened Prelude
  import opened Cart

  /** A user document's data: `{name, email, password, cart, orders}`. */
  datatype UserDoc = UserDoc(name: string, email: string, password: string,
                             cart: seq<CartItem>, orders: seq<Order>)

  /** An entry of the cached user list, `{id: doc.id, ...doc.data()}`. */
  datatype UserRecord = UserRecord(id: string, name: string, email: string, password: string,
                                   cart: seq<CartItem>, orders: seq<Order>)

  function WithId(id: string, d: UserDoc): UserRecord {
    UserRecord(id, d.name, d.email, d.password, d.cart, d.orders)
  }

  /** The document data an entry was built from (the entry without its id). */
  function DataOf(u: UserRecord): UserDoc {
    UserDoc(u.name, u.email, u.password, u.cart, u.orders)
  }

  /** The document that signup creates: the given name, e-mail and password, an
      empty cart and no orders. */
  function NewUserDoc(name: string, email: string, password: string): UserDoc {
    UserDoc(name, email, password, [], [])
  }

  /** The snapshot callback's `snapShot.docs.map(doc => ({id: doc.id, ...doc.data()}))`:
      one entry per document, in snapshot order, each carrying its document id and
      exactly that document's data. */
  function UsersFromSnapshot(docs: seq<(string, UserDoc)>): (users: seq<UserRecord>)
    ensures |users| == |docs|
    ensures forall i :: 0 <= i < |docs| ==> users[i].id == docs[i].0 && DataOf(users[i]) == docs[i].1
  {
    if docs == [] then []
    else [WithId(docs[0].0, docs[0].1)] + UsersFromSnapshot(docs[1..])
  }

  /** `docs` is a snapshot of the collection `remote`: every document exactly once,
      with its current data. */
  ghost predicate IsSnapshot(docs: seq<(string, UserDoc)>, remote: map<string, UserDoc>) {
    && (forall i, j :: 0 <= i < j < |docs| ==> docs[i].0 != docs[j].0)
    && (forall i :: 0 <= i < |docs| ==> docs[i].0 in remote && remote[docs[i].0] == docs[i].1)
    && (forall id :: id in remote ==> exists i :: 0 <= i < |docs| && docs[i].0 == id)
  }

  /** The user list mirrors the collection: one entry per document, each with its
      document's id and data. */
  ghost predicate Mirrors(users: seq<UserRecord>, remote: map<string, UserDoc>) {
    && (forall i, j :: 0 <= i < j < |users| ==> users[i].id != users[j].id)
    && (forall i :: 0 <= i < |users| ==> users[i].id in remote && remote[users[i].id] == DataOf(users[i]))
    && (forall id :: id in remote ==> exists i :: 0 <= i < |users| && users[i].id == id)
  }

  lemma SnapshotMirrors(docs: seq<(string, UserDoc)>, remote: map<string, UserDoc>)
    requires IsSnapshot(docs, remote)
    ensures Mirrors(UsersFromSnapshot(docs), remote)
  {
    var users := UsersFromSnapshot(docs);
    forall id | id in remote ensures exists i :: 0 <= i < |users| && users[i].id == id {
      var i :| 0 <= i < |docs| && docs[i].0 == id;
      assert users[i].id == id;
    }
  }

  /** `userList.findIndex((user) => user.email === email)`. */
  function IndexOfEmail(users: seq<UserRecord>, email: string): (r: int)
    ensures -1 <= r < |users|
    ensures r == -1 <==> forall j :: 0 <= j < |users| ==> users[j].email != email
    ensures r >= 0 ==> users[r].email == email && forall j :: 0 <= j < r ==> users[j].email != email
  {
    FindIndex(users, (u: UserRecord) => u.email == email)
  }

  /** Entry `k` is the first one registered under `email`. */
  ghost predicate FirstWithEmail(users: seq<UserRecord>, email: string, k: int) {
    0 <= k < |users| && users[k].email == email
    && forall j :: 0 <= j < k ==> users[j].email != email
  }

  /** The three ways a sign-in can end; on success, the entry that is logged in. */
  datatype SignInOutcome = EmailNotFound | WrongPassword | SignedIn(user: UserRecord)

  /** The credential check of `createSessionThunk` against the cached list: the
      first entry with the given e-mail decides. */
  function SignIn(users: seq<UserRecord>, email: string, password: string): (r: SignInOutcome)
    ensures r == EmailNotFound ==> forall j :: 0 <= j < |users| ==> users[j].email != email
    ensures r == WrongPassword ==>
              exists k :: 0 <= k < |users| && users[k].email == email && users[k].password != password
                          && forall j :: 0 <= j < k ==> users[j].email != email
    ensures r.SignedIn? ==>
              exists k :: 0 <= k < |users| && users[k].email == email && users[k].password == password
                          && r.user == users[k] && forall j :: 0 <= j < k ==> users[j].email != email
  {
    var i := IndexOfEmail(users, email);
    if i == -1 then EmailNotFound
    else if users[i].password == password then SignedIn(users[i])
    else WrongPassword
  }

  /** No entry is registered under `email`. */
  ghost predicate NoUserWithEmail(users: seq<UserRecord>, email: string) {
    forall j :: 0 <= j < |users| ==> users[j].email != email
  }

  /** The first entry registered under `email` has password `password`. */
  ghost predicate FirstHasPassword(users: seq<UserRecord>, email: string, password: string) {
    exists k :: FirstWithEmail(users, email, k) && users[k].password == password
  }

  /** The first entry registered under `email` has another password. */
  ghost predicate FirstLacksPassword(users: seq<UserRecord>, email: string, password: string) {
    exists k :: FirstWithEmail(users, email, k) && users[k].password != password
  }

  /** Each outcome of a sign-in, stated without the lookup: not found exactly when
      no entry has the e-mail; a wrong password exactly when the first entry with
      it has another password; success exactly when the first entry with it has
      this password, and then that entry is the one logged in. */
  lemma SignInOutcomes(users: seq<UserRecord>, email: string, password: string)
    ensures SignIn(users, email, password) == EmailNotFound <==> NoUserWithEmail(users, email)
    ensures SignIn(users, email, password) == WrongPassword <==> FirstLacksPassword(users, email, password)
    ensures SignIn(users, email, password).SignedIn? <==> FirstHasPassword(users, email, password)
    ensures SignIn(users, email, password).SignedIn? ==>
            exists k :: FirstWithEmail(users, email, k) && SignIn(users, email, password).user == users[k]
  {
    var i := IndexOfEmail(users, email);
    forall k | FirstWithEmail(users, email, k) ensures k == i {
    }
    if i != -1 {
      assert FirstWithEmail(users, email, i);
    }
  }

  /** For any list and any credentials exactly one of the three conditions holds:
      the e-mail is unknown, its first entry has another password, or its first
      entry has this password. */
  lemma SignInExactlyOne(users: seq<UserRecord>, email: string, password: string)
    ensures NoUserWithEmail(users, email) || FirstLacksPassword(users, email, password)
            || FirstHasPassword(users, email, password)
    ensures !(NoUserWithEmail(users, email) && FirstLacksPassword(users, email, password))
    ensures !(NoUserWithEmail(users, email) && FirstHasPassword(users, email, password))
    ensures !(FirstLacksPassword(users, email, password) && FirstHasPassword(users, email, password))
  {
    SignInOutcomes(users, email, password);
  }

  /** The cart array of document `id` (empty when there is no such document). */
  function CartOf(remote: map<string, UserDoc>, id: string): seq<CartItem> {
    if id in remote then remote[id].cart else []
  }

  /** The orders array of document `id` (empty when there is no such document). */
  function OrdersOf(remote: map<string, UserDoc>, id: string): seq<Order> {
    if id in remote then remote[id].orders else []
  }

  /** `updateDoc(doc(db, "buybusy-redux", id), {cart: c})`: overwrites the cart
      field of an existing document and nothing else; a missing document makes the
      write fail and the collection stays as it was. */
  function WriteCart(remote: map<string, UserDoc>, id: string, c: seq<CartItem>): (r: map<string, UserDoc>)
    ensures r.Keys == remote.Keys
    ensures id in remote ==> r[id] == remote[id].(cart := c)
    ensures forall other :: other in remote && other != id ==> r[other] == remote[other]
  {
    if id in remote then remote[id := remote[id].(cart := c)] else remote
  }

  /** Writing a document's own cart back over it leaves the collection as it was. */
  lemma RewriteSameCart(remote: map<string, UserDoc>, id: string)
    requires id in remote
    ensures WriteCart(remote, id, remote[id].cart) == remote
  {
    assert remote[id].(cart := remote[id].cart) == remote[id];
  }

  /** `updateDoc(doc(db, "buybusy-redux", id), {orders: o})`, likewise. */
  function WriteOrders(remote: map<string, UserDoc>, id: string, o: seq<Order>): (r: map<string, UserDoc>)
    ensures r.Keys == remote.Keys
    ensures id in remote ==> r[id] == remote[id].(orders := o)
    ensures forall other :: other in remote && other != id ==> r[other] == remote[other]
  {
    if id in remote then remote[id := remote[id].(orders := o)] else remote
  }
}
