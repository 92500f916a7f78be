/** Python slicing on sequences, `s[a:b]` with non-negative bounds. */
module Slicing {

  function Min(a: int, b: int): int {
    if a <= b then a else b
  }

  /** `s[a:b]`: both bounds are clamped to the length, and an empty window
      results when the clamped start is past the clamped end. */
  function Slice<T>(s: seq<T>, a: nat, b: nat): (r: seq<T>)
    ensures |r| <= |s|
    ensures a <= b <= |s| ==> r == s[a..b]
    ensures a <= b && a <= |s| ==> r == s[a..Min(b, |s|)]
    ensures |s| <= a ==> r == []
    ensures b <= a ==> r == []
  {
    var lo := Min(a, |s|);
    var hi := Min(b, |s|);
    if hi < lo then [] else s[lo..hi]
  }
}
