/** The result aggregation of `EmotionDetector.process_video`: the pandas
    `value_counts` over the records' emotions, and the summary built from it.

    `value_counts` orders labels by decreasing count; which of several
    equally frequent labels comes first is not fixed by the code.  This
    model makes the choice explicit: among the labels with the largest
    count, the one that appeared first among the records wins. */
module VideoSummary {
  import opened Results
  import opened Scores
  import opened VideoFrames

  const NoFacesMessage: string := "No faces detected in the video"

  /** The dictionary returned to the router. */
  datatype Summary = Summary(dominantEmotion: string, occurrenceCount: int,
                             distribution: map<string, int>, totalFramesProcessed: int)

  /** The `emotion` column of the records' data frame. */
  function Emotions(rs: seq<FaceRecord>): (ls: seq<string>)
    ensures |ls| == |rs|
    ensures forall i :: 0 <= i < |rs| ==> ls[i] == rs[i].emotion
  {
    seq(|rs|, i requires 0 <= i < |rs| => rs[i].emotion)
  }

  /** How often `l` occurs in `ls`. */
  function Count(ls: seq<string>, l: string): nat {
    if |ls| == 0 then 0
    else Count(ls[..|ls| - 1], l) + (if ls[|ls| - 1] == l then 1 else 0)
  }

  /** The count map, folded over the column one record at a time. */
  function Tally(ls: seq<string>): (m: map<string, int>)
    ensures forall l :: l in m ==> l in ls && m[l] >= 1
    ensures forall i :: 0 <= i < |ls| ==> ls[i] in m
  {
    if |ls| == 0 then map[]
    else
      var m := Tally(ls[..|ls| - 1]);
      var l := ls[|ls| - 1];
      m[l := Get(m, l) + 1]
  }

  function Get(m: map<string, int>, l: string): int {
    if l in m then m[l] else 0
  }

  /** The distinct labels of `ls` in order of first appearance. */
  function FirstSeen(ls: seq<string>): seq<string> {
    if |ls| == 0 then []
    else
      var order := FirstSeen(ls[..|ls| - 1]);
      if ls[|ls| - 1] in order then order else order + [ls[|ls| - 1]]
  }

  predicate Distinct(s: seq<string>) {
    forall i, j :: 0 <= i < j < |s| ==> s[i] != s[j]
  }

  /** Sum of the counts stored under `keys`. */
  function SumOver(keys: seq<string>, m: map<string, int>): int {
    if |keys| == 0 then 0 else Get(m, keys[0]) + SumOver(keys[1..], m)
  }

  lemma {:induction false} FirstSeenContents(ls: seq<string>)
    ensures forall l :: l in FirstSeen(ls) <==> l in ls
    ensures Distinct(FirstSeen(ls))
  {
    if |ls| > 0 {
      FirstSeenContents(ls[..|ls| - 1]);
      assert ls == ls[..|ls| - 1] + [ls[|ls| - 1]];
    }
  }

  /** The fold computes, for every observed label, its number of
      occurrences, and holds no other key. */
  lemma {:induction false} TallyIsCount(ls: seq<string>)
    ensures forall l :: l in Tally(ls) <==> l in ls
    ensures forall l :: l in Tally(ls) ==> Tally(ls)[l] == Count(ls, l) >= 1
  {
    if |ls| > 0 {
      var init := ls[..|ls| - 1];
      TallyIsCount(init);
      assert ls == init + [ls[|ls| - 1]];
      forall l | l !in init
        ensures Count(init, l) == 0
      {
        CountAbsent(init, l);
      }
    }
  }

  lemma {:induction false} CountAbsent(ls: seq<string>, l: string)
    requires l !in ls
    ensures Count(ls, l) == 0
  {
    if |ls| > 0 {
      CountAbsent(ls[..|ls| - 1], l);
    }
  }

  lemma {:induction false} SumOverEmpty(keys: seq<string>)
    ensures SumOver(keys, map[]) == 0
  {
    if |keys| > 0 {
      SumOverEmpty(keys[1..]);
    }
  }

  /** Adding one to a key counted once among `keys` adds one to the sum. */
  lemma {:induction false} SumOverBump(keys: seq<string>, m: map<string, int>, l: string)
    requires Distinct(keys)
    ensures SumOver(keys, m[l := Get(m, l) + 1]) == SumOver(keys, m) + (if l in keys then 1 else 0)
  {
    if |keys| > 0 {
      SumOverBump(keys[1..], m, l);
      assert keys[0] == l ==> l !in keys[1..];
      assert l in keys <==> keys[0] == l || l in keys[1..];
    }
  }

  /** The counts add up to the number of records, summed over any
      duplicate-free list of keys that covers every observed label. */
  lemma {:induction false} TallySum(ls: seq<string>, keys: seq<string>)
    requires Distinct(keys)
    requires forall l :: l in ls ==> l in keys
    ensures SumOver(keys, Tally(ls)) == |ls|
  {
    if |ls| == 0 {
      SumOverEmpty(keys);
    } else {
      var init := ls[..|ls| - 1];
      assert forall l :: l in init ==> l in ls;
      var last := ls[|ls| - 1];
      TallySum(init, keys);
      SumOverBump(keys, Tally(init), last);
      assert last in keys;
      assert Tally(ls) == Tally(init)[last := Get(Tally(init), last) + 1];
    }
  }

  /** The majority label: a label with the largest count, and among those the
      one that appeared first. */
  function Dominant(ls: seq<string>): (d: string)
    requires |ls| > 0
    ensures d in ls
    ensures forall l :: l in ls ==> Count(ls, l) <= Count(ls, d)
    ensures exists k :: 0 <= k < |FirstSeen(ls)| && FirstSeen(ls)[k] == d
                        && forall j :: 0 <= j < k ==> Count(ls, FirstSeen(ls)[j]) < Count(ls, d)
  {
    FirstSeenContents(ls);
    var order := FirstSeen(ls);
    assert ls[0] in order;
    var counts := seq(|order|, i requires 0 <= i < |order| => Count(ls, order[i]) as real);
    var k := ArgMax(counts);
    assert forall l :: l in ls ==> exists j :: 0 <= j < |order| && order[j] == l && counts[j] == Count(ls, l) as real;
    order[k]
  }

  /** From the records to the summary; no records is the error the code raises. */
  function Summarize(rs: seq<FaceRecord>): (r: Result<Summary>)
    ensures r.Err? <==> |rs| == 0
    ensures r.Err? ==> r.message == NoFacesMessage
    ensures r.Ok? ==> r.value.totalFramesProcessed == |rs|
    ensures r.Ok? ==> r.value.dominantEmotion in r.value.distribution
                      && r.value.occurrenceCount == r.value.distribution[r.value.dominantEmotion]
    ensures r.Ok? ==> forall l :: l in r.value.distribution ==>
                        1 <= r.value.distribution[l] <= r.value.occurrenceCount
    ensures r.Ok? ==> forall l :: l in r.value.distribution <==>
                        exists i :: 0 <= i < |rs| && rs[i].emotion == l
    ensures r.Ok? ==> forall l :: l in r.value.distribution ==>
                        r.value.distribution[l] == Count(Emotions(rs), l)
  {
    if |rs| == 0 then Err(NoFacesMessage)
    else
      var ls := Emotions(rs);
      TallyIsCount(ls);
      assert forall l :: l in ls <==> exists i :: 0 <= i < |rs| && rs[i].emotion == l;
      var dist := Tally(ls);
      var d := Dominant(ls);
      Ok(Summary(d, dist[d], dist, |rs|))
  }

  /** `emotion_distribution` sums to `total_frames_processed` when its
      values are added up over any listing of its keys. */
  lemma DistributionSumsToTotal(rs: seq<FaceRecord>, keys: seq<string>)
    requires Summarize(rs).Ok?
    requires Distinct(keys)
    requires forall l :: l in keys <==> l in Summarize(rs).value.distribution
    ensures SumOver(keys, Summarize(rs).value.distribution) == Summarize(rs).value.totalFramesProcessed
  {
    var ls := Emotions(rs);
    TallyIsCount(ls);
    TallySum(ls, keys);
  }
}
