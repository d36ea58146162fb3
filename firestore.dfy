/** The two array-field transforms of the document store that the slices use:
    `arrayUnion(x)` and `arrayRemove(x)`, both comparing elements by deep value
    equality. Field overwrite (`updateDoc`) and document creation (`addDoc`) act on
    the collection and are modelled in module Users. */
module Firestore {

  /** `arrayUnion(x)`: the array keeps its elements and order, and gains `x` at the
      end unless an equal element is already present. */
  function ArrayUnion<T(==,!new)>(s: seq<T>, x: T): (r: seq<T>)
    ensures x in r
    ensures |s| <= |r| && forall i :: 0 <= i < |s| ==> r[i] == s[i]
    ensures |r| == if x in s then |s| else |s| + 1
    ensures forall y :: y in r <==> y in s || y == x
  {
    if x in s then s else s + [x]
  }

  /** `arrayRemove(x)`: every element equal to `x` is deleted; the others stay,
      in order. */
  function ArrayRemove<T(==,!new)>(s: seq<T>, x: T): (r: seq<T>)
    ensures x !in r
    ensures forall y :: y in r <==> y in s && y != x
    ensures multiset(r) == multiset(s)[x := 0]
    ensures |r| == |s| - multiset(s)[x]
  {
    if |s| == 0 then []
    else
      var rest := ArrayRemove(s[1..], x);
      assert s == [s[0]] + s[1..];
      if s[0] == x then rest else [s[0]] + rest
  }

  /** Removing an element that is absent leaves the array as it was. */
  lemma {:induction false} ArrayRemoveAbsent<T(!new)>(s: seq<T>, x: T)
    requires x !in s
    ensures ArrayRemove(s, x) == s
  {
    if |s| > 0 {
      assert x !in s[1..];
      ArrayRemoveAbsent(s[1..], x);
    }
  }

  /** `arrayRemove` works element by element: removing from two halves and
      joining them is removing from the whole, so the elements kept stay in
      their order. */
  lemma {:induction false} ArrayRemoveConcat<T(!new)>(a: seq<T>, b: seq<T>, x: T)
    ensures ArrayRemove(a + b, x) == ArrayRemove(a, x) + ArrayRemove(b, x)
    decreases |a|
  {
    if |a| == 0 {
      assert a + b == b;
    } else {
      assert (a + b)[1..] == a[1..] + b;
      ArrayRemoveConcat(a[1..], b, x);
    }
  }

  /** `arrayRemove` undoes an `arrayUnion` that added a new element. */
  lemma {:induction false} RemoveUndoesUnion<T(!new)>(s: seq<T>, x: T)
    requires x !in s
    ensures ArrayRemove(ArrayUnion(s, x), x) == s
  {
    if |s| == 0 {
      assert ArrayUnion(s, x) == [x];
    } else {
      assert ArrayUnion(s, x) == s + [x];
      assert (s + [x])[1..] == s[1..] + [x];
      assert x !in s[1..];
      RemoveUndoesUnion(s[1..], x);
      assert ArrayUnion(s[1..], x) == s[1..] + [x];
    }
  }
}
