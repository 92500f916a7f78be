/** `fetch_wellness_metrics`: the fitness API's data sources folded into a
    heart-rate / steps / heart-points record, or the fixed mock record when
    authentication or fetching fails.

    OAuth and HTTP are abstracted into a `Fetch` outcome: no credentials,
    an exception on the way, or the list of data sources with the points of
    each source's dataset for the last 24 hours. */
module WellnessMetrics {
  import opened Results
  import opened Text

  const HeartRateKey: string := "heart_rate"
  const StepsKey: string := "steps"
  const HeartPointsKey: string := "heart_points"

  const MockHeartRate: int := 75
  const MockSteps: int := 5000
  const MockHeartPoints: int := 35

  /** The first value of a data point: its optional `fpVal` and `intVal`. */
  datatype Point = Point(fpVal: Option<real>, intVal: Option<int>)

  /** A data source and the points of its dataset. */
  datatype Source = Source(streamId: string, points: seq<Point>)

  datatype Fetch = NoCredentials | Raised(message: string) | Fetched(sources: seq<Source>)

  /** Which metric a source feeds, by the `if`/`elif` chain on its stream id. */
  datatype Kind = HeartRate | Steps | HeartPoints | Unused

  /** The record returned when the live path is unavailable. */
  function Mock(): map<string, int> {
    map[HeartRateKey := MockHeartRate, StepsKey := MockSteps, HeartPointsKey := MockHeartPoints]
  }

  /** The record the live path starts from. */
  function Zero(): map<string, int> {
    map[HeartRateKey := 0, StepsKey := 0, HeartPointsKey := 0]
  }

  predicate HasMetricKeys(m: map<string, int>) {
    m.Keys == {HeartRateKey, StepsKey, HeartPointsKey}
  }

  /** `int(x)` on a float: truncation toward zero. */
  function Trunc(x: real): (r: int)
    ensures x >= 0.0 ==> r as real <= x < r as real + 1.0
    ensures x < 0.0 ==> r as real - 1.0 < x <= r as real
  {
    if x >= 0.0 then x.Floor else -((-x).Floor)
  }

  /** Case-insensitive substring tests, heart rate first, then step count,
      then heart minutes. */
  function Classify(streamId: string): (k: Kind)
    ensures k == HeartRate <==> Contains(Lower(streamId), "heart_rate")
    ensures k == Steps <==> !Contains(Lower(streamId), "heart_rate") && Contains(Lower(streamId), "step_count")
    ensures k == HeartPoints <==> !Contains(Lower(streamId), "heart_rate") && !Contains(Lower(streamId), "step_count")
                                  && Contains(Lower(streamId), "heart_minutes")
  {
    var id := Lower(streamId);
    if Contains(id, "heart_rate") then HeartRate
    else if Contains(id, "step_count") then Steps
    else if Contains(id, "heart_minutes") then HeartPoints
    else Unused
  }

  function KeyOf(k: Kind): string
    requires k != Unused
  {
    match k
    case HeartRate => HeartRateKey
    case Steps => StepsKey
    case HeartPoints => HeartPointsKey
  }

  /** Python's `sum` of the integer values, a missing value counting 0. */
  function SumInt(ps: seq<Point>): (r: int)
    ensures (forall i :: 0 <= i < |ps| ==> ps[i].intVal.GetOr(0) >= 0) ==> r >= 0
  {
    if |ps| == 0 then 0 else SumInt(ps[..|ps| - 1]) + ps[|ps| - 1].intVal.GetOr(0)
  }

  /** Python's `sum` of the float values, a missing value counting 0. */
  function SumFp(ps: seq<Point>): (r: real)
    ensures (forall i :: 0 <= i < |ps| ==> ps[i].fpVal.GetOr(0.0) >= 0.0) ==> r >= 0.0
  {
    if |ps| == 0 then 0.0 else SumFp(ps[..|ps| - 1]) + ps[|ps| - 1].fpVal.GetOr(0.0)
  }

  /** The value a source with at least one point writes: the latest heart
      rate, the total steps, or the total heart points. */
  function Reading(k: Kind, ps: seq<Point>): (r: int)
    requires k != Unused && |ps| > 0
    ensures k == HeartRate && ps[|ps| - 1].fpVal.GetOr(0.0) >= 0.0 ==>
              r as real <= ps[|ps| - 1].fpVal.GetOr(0.0) < r as real + 1.0
    ensures k == Steps && (forall i :: 0 <= i < |ps| ==> ps[i].intVal.GetOr(0) >= 0) ==> r >= 0
    ensures k == HeartPoints && (forall i :: 0 <= i < |ps| ==> ps[i].fpVal.GetOr(0.0) >= 0.0) ==> r >= 0
  {
    match k
    case HeartRate => Trunc(ps[|ps| - 1].fpVal.GetOr(0.0))
    case Steps => SumInt(ps)
    case HeartPoints => Trunc(SumFp(ps))
  }

  /** The heart-rate reading looks at the latest point only. */
  lemma HeartRateReadsLatest(ps: seq<Point>, qs: seq<Point>)
    requires |ps| > 0 && |qs| > 0 && ps[|ps| - 1] == qs[|qs| - 1]
    ensures Reading(HeartRate, ps) == Reading(HeartRate, qs)
  {
  }

  /** Whether a source writes into the metric of kind `k`. */
  predicate Feeds(s: Source, k: Kind) {
    k != Unused && Classify(s.streamId) == k && |s.points| > 0
  }

  /** One iteration of the loop over the data sources. */
  function Step(m: map<string, int>, s: Source): (r: map<string, int>)
    ensures r.Keys == m.Keys + (if Classify(s.streamId) != Unused && |s.points| > 0
                                then {KeyOf(Classify(s.streamId))} else {})
    ensures Classify(s.streamId) != Unused && |s.points| > 0 ==>
              r[KeyOf(Classify(s.streamId))] == Reading(Classify(s.streamId), s.points)
    ensures forall key :: key in m && !(Feeds(s, Classify(s.streamId)) && key == KeyOf(Classify(s.streamId)))
                          ==> r[key] == m[key]
  {
    var k := Classify(s.streamId);
    if k == Unused || |s.points| == 0 then m
    else m[KeyOf(k) := Reading(k, s.points)]
  }

  /** The loop over the data sources, starting from zeros. */
  function Aggregate(sources: seq<Source>): (r: map<string, int>)
    ensures HasMetricKeys(r)
  {
    if |sources| == 0 then Zero()
    else Step(Aggregate(sources[..|sources| - 1]), sources[|sources| - 1])
  }

  /** A metric no source feeds stays at the 0 it started from. */
  lemma {:induction false} UnfedMetricIsZero(sources: seq<Source>, k: Kind)
    requires k != Unused
    requires forall i :: 0 <= i < |sources| ==> !Feeds(sources[i], k)
    ensures Aggregate(sources)[KeyOf(k)] == 0
  {
    if |sources| > 0 {
      var init := sources[..|sources| - 1];
      assert forall i :: 0 <= i < |init| ==> init[i] == sources[i];
      UnfedMetricIsZero(init, k);
    }
  }

  /** Each metric holds what the LAST source feeding it wrote: later
      sources overwrite, they do not add. */
  lemma {:induction false} LastSourceWins(sources: seq<Source>, k: Kind, i: nat)
    requires k != Unused
    requires i < |sources| && Feeds(sources[i], k)
    requires forall j :: i < j < |sources| ==> !Feeds(sources[j], k)
    ensures Aggregate(sources)[KeyOf(k)] == Reading(k, sources[i].points)
  {
    var init := sources[..|sources| - 1];
    if i < |sources| - 1 {
      assert forall j :: i < j < |init| ==> init[j] == sources[j];
      LastSourceWins(init, k, i);
      var lk := Classify(sources[|sources| - 1].streamId);
      if lk != Unused && |sources[|sources| - 1].points| > 0 {
        assert lk != k;
        assert KeyOf(lk) != KeyOf(k);
      }
    }
  }

  /** A source that feeds nothing leaves the record as it is. */
  lemma UnusedSourceChangesNothing(sources: seq<Source>, s: Source)
    requires Classify(s.streamId) == Unused || |s.points| == 0
    ensures Aggregate(sources + [s]) == Aggregate(sources)
  {
    assert (sources + [s])[..|sources|] == sources;
  }

  /** The stream id is classified the same whatever the case of its letters. */
  lemma {:induction false} ClassifyIgnoresCase(a: string, b: string)
    requires SameIgnoringCase(a, b)
    ensures Classify(a) == Classify(b)
  {
    LowerIdempotent(a);
    LowerIdempotent(b);
  }

  /** The whole of `fetch_wellness_metrics`. */
  function FetchWellnessMetrics(f: Fetch): (r: map<string, int>)
    ensures HasMetricKeys(r)
    ensures !f.Fetched? ==> r == Mock()
    ensures f.Fetched? ==> r == Aggregate(f.sources)
  {
    match f
    case NoCredentials => Mock()
    case Raised(_) => Mock()
    case Fetched(sources) => Aggregate(sources)
  }

  /** The mock is exactly 75 / 5000 / 35 under the three keys. */
  lemma MockValues()
    ensures HasMetricKeys(Mock())
    ensures Mock()[HeartRateKey] == 75 && Mock()[StepsKey] == 5000 && Mock()[HeartPointsKey] == 35
  {
  }
}
