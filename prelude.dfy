/** Small building blocks shared by both slices: an optional value (JavaScript's
    `null`/`undefined` versus a present value) and `Array.prototype.findIndex`. */
module Prelude {

  datatype Option<T> = None | Some(value: T)

  /** `s.findIndex(p)`: the index of the first element satisfying `p`, or -1 when
      there is none. */
  function FindIndex<T>(s: seq<T>, p: T -> bool): (r: int)
    ensures -1 <= r < |s|
    ensures r == -1 <==> forall j :: 0 <= j < |s| ==> !p(s[j])
    ensures r >= 0 ==> p(s[r]) && forall j :: 0 <= j < r ==> !p(s[j])
  {
    if |s| == 0 then -1
    else if p(s[0]) then 0
    else
      var k := FindIndex(s[1..], p);
      assert forall j :: 1 <= j < |s| ==> s[j] == s[1..][j - 1];
      if k == -1 then -1 else k + 1
  }
}
