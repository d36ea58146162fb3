/** Cart lines, orders, and the two quantities the cart slice keeps in step with
    its cart: the amount `total = Σ price·quantity` and the count
    `itemInCart = Σ quantity`. Prices are whole numbers (cents), so sums are exact. */
module Cart {
  import opened Prelude
  import opened Firestore

  /** A catalog product as handed to `addToCartThunk`: its name (the key that
      identifies a cart line), its unit price, and the remaining catalog fields
      (image, category, ...) folded into one value. Catalog products carry no
      `quantity` field. */
  datatype Product = Product(name: string, price: int, details: string)

  /** A cart line, the object `{quantity, ...product}` stored in a user's `cart`. */
  datatype CartItem = CartItem(quantity: int, name: string, price: int, details: string)

  /** An order `{date, list, amount}` stored in a user's `orders`. */
  datatype Order = Order(date: string, list: seq<CartItem>, amount: int)

  /** The line `{quantity: 1, ...product}` that a first add writes. */
  function NewLine(p: Product): CartItem {
    CartItem(1, p.name, p.price, p.details)
  }

  /** `cart.findIndex((item) => item.name === name)`. */
  function IndexOfName(cart: seq<CartItem>, name: string): (r: int)
    ensures -1 <= r < |cart|
    ensures r == -1 <==> forall j :: 0 <= j < |cart| ==> cart[j].name != name
    ensures r >= 0 ==> cart[r].name == name && forall j :: 0 <= j < r ==> cart[j].name != name
  {
    FindIndex(cart, (item: CartItem) => item.name == name)
  }

  /** The line `state.cart.at(index)` reaches when `index` was looked up by
      name: when some line has the name, the first such line; when none has it
      (the lookup gave -1), the last line. */
  function AtIndex(cart: seq<CartItem>, name: string): (r: int)
    requires |cart| > 0
    ensures 0 <= r < |cart|
    ensures (exists j :: 0 <= j < |cart| && cart[j].name == name) ==>
              cart[r].name == name && forall j :: 0 <= j < r ==> cart[j].name != name
    ensures (forall j :: 0 <= j < |cart| ==> cart[j].name != name) ==> r == |cart| - 1
  {
    var i := IndexOfName(cart, name);
    if i == -1 then |cart| - 1 else i
  }

  /** Every line holds at least one item. */
  predicate QuantitiesPositive(cart: seq<CartItem>) {
    forall j :: 0 <= j < |cart| ==> cart[j].quantity >= 1
  }

  /** A product whose name is in no line is not equal to any line once it is
      given quantity 1, so `arrayUnion` of it appends. */
  lemma NewNameIsNewLine(cart: seq<CartItem>, p: Product)
    requires IndexOfName(cart, p.name) == -1
    ensures ArrayUnion(cart, NewLine(p)) == cart + [NewLine(p)]
  {
  }

  /** `cart[index].quantity += d` on a copy: the line at `index` with its quantity
      moved by `d`, everything else as it was. */
  function Bump(cart: seq<CartItem>, index: int, d: int): seq<CartItem>
    requires 0 <= index < |cart|
  {
    cart[index := cart[index].(quantity := cart[index].quantity + d)]
  }

  function LineTotal(item: CartItem): int {
    item.price * item.quantity
  }

  /** The amount of a cart: Σ price·quantity, summed from the first line on. */
  function CartTotal(cart: seq<CartItem>): int {
    if cart == [] then 0 else CartTotal(cart[..|cart| - 1]) + LineTotal(cart[|cart| - 1])
  }

  /** The number of items in a cart: Σ quantity. */
  function CartCount(cart: seq<CartItem>): int {
    if cart == [] then 0 else CartCount(cart[..|cart| - 1]) + cart[|cart| - 1].quantity
  }

  /** The loop of the initial-load handler: `sum += item.price * item.quantity`
      and `len += item.quantity` over the cart. */
  method RecomputeTotals(cart: seq<CartItem>) returns (sum: int, len: int)
    ensures sum == CartTotal(cart) && len == CartCount(cart)
  {
    sum, len := 0, 0;
    var i := 0;
    while i < |cart|
      invariant 0 <= i <= |cart|
      invariant sum == CartTotal(cart[..i]) && len == CartCount(cart[..i])
    {
      assert cart[..i + 1][..i] == cart[..i];
      sum := sum + cart[i].price * cart[i].quantity;
      len := len + cart[i].quantity;
      i := i + 1;
    }
    assert cart[..i] == cart;
  }

  lemma {:induction false} TotalsOfConcat(a: seq<CartItem>, b: seq<CartItem>)
    ensures CartTotal(a + b) == CartTotal(a) + CartTotal(b)
    ensures CartCount(a + b) == CartCount(a) + CartCount(b)
    decreases |b|
  {
    if b == [] {
      assert a + b == a;
    } else {
      var b' := b[..|b| - 1];
      assert (a + b)[..|a + b| - 1] == a + b';
      TotalsOfConcat(a, b');
    }
  }

  lemma TotalsOfSingle(x: CartItem)
    ensures CartTotal([x]) == LineTotal(x) && CartCount([x]) == x.quantity
  {
    assert [x][..0] == [];
  }

  /** Moving one line's quantity by `d` moves the amount by `d` times that line's
      price and the count by `d`. */
  lemma TotalsOfBump(cart: seq<CartItem>, index: int, d: int)
    requires 0 <= index < |cart|
    ensures CartTotal(Bump(cart, index, d)) == CartTotal(cart) + d * cart[index].price
    ensures CartCount(Bump(cart, index, d)) == CartCount(cart) + d
  {
    var x := cart[index];
    var y := x.(quantity := x.quantity + d);
    var pre, post := cart[..index], cart[index + 1..];
    SplitAt(cart, index, x);
    SplitAt(Bump(cart, index, d), index, y);
    TotalsAround(pre, x, post);
    TotalsAround(pre, y, post);
    LineTotalShift(x, d);
  }

  lemma SplitAt(s: seq<CartItem>, index: int, x: CartItem)
    requires 0 <= index < |s| && s[index] == x
    ensures s == s[..index] + [x] + s[index + 1..]
  {
  }

  lemma TotalsAround(pre: seq<CartItem>, x: CartItem, post: seq<CartItem>)
    ensures CartTotal(pre + [x] + post) == CartTotal(pre) + LineTotal(x) + CartTotal(post)
    ensures CartCount(pre + [x] + post) == CartCount(pre) + x.quantity + CartCount(post)
  {
    TotalsOfConcat(pre + [x], post);
    TotalsOfConcat(pre, [x]);
    TotalsOfSingle(x);
  }

  lemma LineTotalShift(x: CartItem, d: int)
    ensures LineTotal(x.(quantity := x.quantity + d)) == LineTotal(x) + d * x.price
  {
    assert x.price * (x.quantity + d) == x.price * x.quantity + x.price * d;
  }

  /** Appending a line adds its amount and its quantity. */
  lemma TotalsOfAppend(cart: seq<CartItem>, x: CartItem)
    ensures CartTotal(cart + [x]) == CartTotal(cart) + LineTotal(x)
    ensures CartCount(cart + [x]) == CartCount(cart) + x.quantity
  {
    assert (cart + [x])[..|cart|] == cart;
  }

  /** `n` copies of `a` added up: what `n` equal lines contribute to a sum. */
  function Copies(n: nat, a: int): int {
    if n == 0 then 0 else Copies(n - 1, a) + a
  }

  /** Removing every line equal to `x` takes away `x`'s amount and quantity once
      per copy that was there. */
  lemma {:induction false} TotalsOfArrayRemove(cart: seq<CartItem>, x: CartItem)
    ensures CartTotal(ArrayRemove(cart, x)) == CartTotal(cart) - Copies(multiset(cart)[x], LineTotal(x))
    ensures CartCount(ArrayRemove(cart, x)) == CartCount(cart) - Copies(multiset(cart)[x], x.quantity)
    decreases |cart|
  {
    if cart != [] {
      var h, t := cart[0], cart[1..];
      TotalsOfArrayRemove(t, x);
      if h != x {
        RemoveStepKeep(cart, x);
      } else {
        RemoveStepDrop(cart, x);
      }
    }
  }

  /** One step of `arrayRemove` past a first line that differs from `x`. */
  lemma RemoveStepKeep(cart: seq<CartItem>, x: CartItem)
    requires cart != [] && cart[0] != x
    ensures multiset(cart)[x] == multiset(cart[1..])[x]
    ensures CartTotal(ArrayRemove(cart, x)) - CartTotal(cart) == CartTotal(ArrayRemove(cart[1..], x)) - CartTotal(cart[1..])
    ensures CartCount(ArrayRemove(cart, x)) - CartCount(cart) == CartCount(ArrayRemove(cart[1..], x)) - CartCount(cart[1..])
  {
    var h, t := cart[0], cart[1..];
    assert cart == [h] + t;
    assert ArrayRemove(cart, x) == [h] + ArrayRemove(t, x);
    TotalsOfConcat([h], t);
    TotalsOfConcat([h], ArrayRemove(t, x));
  }

  /** One step of `arrayRemove` past a first line equal to `x`. */
  lemma RemoveStepDrop(cart: seq<CartItem>, x: CartItem)
    requires cart != [] && cart[0] == x
    ensures multiset(cart)[x] == multiset(cart[1..])[x] + 1
    ensures ArrayRemove(cart, x) == ArrayRemove(cart[1..], x)
    ensures CartTotal(cart) == LineTotal(x) + CartTotal(cart[1..])
    ensures CartCount(cart) == x.quantity + CartCount(cart[1..])
  {
    var t := cart[1..];
    assert cart == [x] + t;
    TotalsOfConcat([x], t);
    TotalsOfSingle(x);
  }

  /** Removing a line stored exactly once takes away exactly its amount and its
      quantity. */
  lemma {:induction false} TotalsAfterRemovingOne(cart: seq<CartItem>, x: CartItem)
    requires multiset(cart)[x] == 1
    ensures CartTotal(ArrayRemove(cart, x)) == CartTotal(cart) - x.quantity * x.price
    ensures CartCount(ArrayRemove(cart, x)) == CartCount(cart) - x.quantity
  {
    TotalsOfArrayRemove(cart, x);
    assert Copies(1, LineTotal(x)) == LineTotal(x) && Copies(1, x.quantity) == x.quantity;
    LineTotalCommutes(x);
  }

  /** The reducers write a line's amount both as `price * quantity` and as
      `quantity * price`. */
  lemma LineTotalCommutes(x: CartItem)
    ensures LineTotal(x) == x.quantity * x.price
  {
  }

  lemma {:induction false} CountNonNegative(cart: seq<CartItem>)
    requires QuantitiesPositive(cart)
    ensures CartCount(cart) >= 0
  {
    if cart != [] {
      CountNonNegative(cart[..|cart| - 1]);
    }
  }

  /** With every line holding at least one item, the count is at least any one
      line's quantity. */
  lemma CountCoversLine(cart: seq<CartItem>, index: int)
    requires 0 <= index < |cart| && QuantitiesPositive(cart)
    ensures CartCount(cart) >= cart[index].quantity
  {
    SplitAt(cart, index, cart[index]);
    TotalsAround(cart[..index], cart[index], cart[index + 1..]);
    CountNonNegative(cart[..index]);
    CountNonNegative(cart[index + 1..]);
  }
}
