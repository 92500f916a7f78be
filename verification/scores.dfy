/** Choosing the winning class from a classifier's score vector. */
module Scores {

  /** The index of the FIRST maximal score.  `np.argmax` returns the first
      occurrence of the maximum, and Python's `max(d, key=d.get)` over a
      dict built in label order keeps the first key it met with the largest
      value; both are this function. */
  function ArgMax(s: seq<real>): (k: nat)
    requires |s| > 0
    ensures k < |s|
    ensures forall j :: 0 <= j < |s| ==> s[j] <= s[k]
    ensures forall j :: 0 <= j < k ==> s[j] < s[k]
  {
    if |s| == 1 then 0
    else
      var k' := ArgMax(s[..|s| - 1]);
      if s[k'] < s[|s| - 1] then |s| - 1 else k'
  }

  /** The two properties of `ArgMax` pin the index down: any index holding
      a maximum with only smaller scores before it is `ArgMax`. */
  lemma ArgMaxUnique(s: seq<real>, k: nat)
    requires k < |s|
    requires forall j :: 0 <= j < |s| ==> s[j] <= s[k]
    requires forall j :: 0 <= j < k ==> s[j] < s[k]
    ensures ArgMax(s) == k
  {
  }

  /** Scaling every score by 100 (turning probabilities into percentages)
      keeps the winner. */
  lemma ArgMaxScaled(s: seq<real>, t: seq<real>)
    requires |s| > 0 && |t| == |s|
    requires forall i :: 0 <= i < |s| ==> t[i] == 100.0 * s[i]
    ensures ArgMax(t) == ArgMax(s)
  {
    var k := ArgMax(s);
    forall j | 0 <= j < |t|
      ensures t[j] <= t[k]
    {
      assert s[j] <= s[k];
    }
    forall j | 0 <= j < k
      ensures t[j] < t[k]
    {
      assert s[j] < s[k];
    }
    ArgMaxUnique(t, k);
  }
}
