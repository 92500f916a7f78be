/** `AudioEmotionDetector`: loading and trimming the waveform, shaping the
    MFCC matrix to the classifier's input size, and labelling its output.

    The decoders (soundfile and, as fallback, librosa), the MFCC extractor
    and the Keras model are collaborators passed in as values or functions.
    Samples and scores are idealised as reals. */
module AudioEmotion {
  import opened Results
  import opened Scores
  import opened Slicing

  /** The classifier's output order. */
  const Labels: seq<string> := ["neutral", "calm", "happy", "sad", "angry", "fear", "disgust", "surprise"]

  /** Number of MFCC coefficients asked of the extractor (rows of the matrix). */
  const MfccCount: nat := 20

  /** Number of time frames the classifier expects (columns of the matrix). */
  const TargetFrames: nat := 108

  const EmptyArgMaxMessage: string := "attempt to get argmax of an empty sequence"
  const ListIndexMessage: string := "list index out of range"

  /** What `sf.read` returns: a one-dimensional buffer, or one row of
      channel values per frame. */
  datatype Waveform = Mono(samples: seq<real>) | Multi(frames: seq<seq<real>>)

  /** What `predict_emotion` returns. */
  datatype AudioResult = AudioResult(dominantEmotion: string, confidenceScores: map<string, real>)

  function Sum(xs: seq<real>): real {
    if |xs| == 0 then 0.0 else Sum(xs[..|xs| - 1]) + xs[|xs| - 1]
  }

  /** `np.mean` of one frame's channels (an empty frame is taken as 0). */
  function Mean(xs: seq<real>): real {
    if |xs| == 0 then 0.0 else Sum(xs) / (|xs| as real)
  }

  /** Down-mixing to mono: one sample per frame. */
  function ToMono(w: Waveform): (r: seq<real>)
    ensures w.Mono? ==> r == w.samples
    ensures w.Multi? ==> |r| == |w.frames|
    ensures w.Multi? ==> forall i :: 0 <= i < |r| ==> r[i] == Mean(w.frames[i])
  {
    match w
    case Mono(s) => s
    case Multi(fs) => seq(|fs|, i requires 0 <= i < |fs| => Mean(fs[i]))
  }

  lemma {:induction false} SumOfCopies(xs: seq<real>, v: real)
    requires forall i :: 0 <= i < |xs| ==> xs[i] == v
    ensures Sum(xs) == (|xs| as real) * v
  {
    if |xs| > 0 {
      SumOfCopies(xs[..|xs| - 1], v);
    }
  }

  lemma MeanOfCopies(xs: seq<real>, v: real)
    requires |xs| > 0
    requires forall i :: 0 <= i < |xs| ==> xs[i] == v
    ensures Mean(xs) == v
  {
    SumOfCopies(xs, v);
    var n := |xs| as real;
    assert Sum(xs) / n == n * v / n;
    assert n * v / n == v;
  }

  /** A recording whose channels carry the same signal down-mixes to that
      signal. */
  lemma ToMonoOfIdenticalChannels(fs: seq<seq<real>>, signal: seq<real>)
    requires |fs| == |signal|
    requires forall i, c :: 0 <= i < |fs| && 0 <= c < |fs[i]| ==> fs[i][c] == signal[i]
    requires forall i :: 0 <= i < |fs| ==> |fs[i]| > 0
    ensures ToMono(Multi(fs)) == signal
  {
    forall i | 0 <= i < |fs|
      ensures Mean(fs[i]) == signal[i]
    {
      MeanOfCopies(fs[i], signal[i]);
    }
  }

  /** `int(sr * 0.6)` and `int(sr * 3.1)`: the window 0.6 s to 3.1 s. */
  function TrimStart(sr: nat): nat {
    6 * sr / 10
  }

  function TrimEnd(sr: nat): nat {
    31 * sr / 10
  }

  /** Whether the buffer is longer than 2.5 seconds (`len > sr * 2.5`). */
  predicate LongerThanWindow(n: nat, sr: nat) {
    2 * n > 5 * sr
  }

  /** Trimming a buffer of more than 2.5 s to the window that starts 0.6 s in. */
  function Trim(samples: seq<real>, sr: nat): (r: seq<real>)
    ensures !LongerThanWindow(|samples|, sr) ==> r == samples
    ensures LongerThanWindow(|samples|, sr) ==>
              TrimStart(sr) + |r| <= |samples| && r == samples[TrimStart(sr)..TrimStart(sr) + |r|]
    ensures LongerThanWindow(|samples|, sr) ==>
              r == samples[TrimStart(sr)..Min(TrimEnd(sr), |samples|)]
    ensures LongerThanWindow(|samples|, sr) ==>
              |r| <= TrimEnd(sr) - TrimStart(sr) && 10 * |r| <= 25 * sr + 10
    ensures LongerThanWindow(|samples|, sr) && sr > 0 ==> |r| > 0
    ensures LongerThanWindow(|samples|, sr) && sr % 10 == 0 ==> 2 * |r| <= 5 * sr
  {
    if LongerThanWindow(|samples|, sr) then
      WindowBounds(sr);
      Slice(samples, TrimStart(sr), TrimEnd(sr))
    else samples
  }

  lemma WindowBounds(sr: nat)
    ensures TrimStart(sr) <= TrimEnd(sr)
    ensures 10 * (TrimEnd(sr) - TrimStart(sr)) <= 25 * sr + 10
    ensures 2 * TrimStart(sr) < 5 * sr || sr == 0
    ensures sr > 0 ==> TrimStart(sr) < TrimEnd(sr)
    ensures sr % 10 == 0 ==> 2 * (TrimEnd(sr) - TrimStart(sr)) == 5 * sr
  {
    var q := sr / 10;
    var m := sr % 10;
    assert sr == 10 * q + m;
    assert 6 * sr == 10 * (6 * q) + 6 * m;
    assert 31 * sr == 10 * (31 * q) + 31 * m;
    assert TrimStart(sr) == 6 * q + (6 * m) / 10;
    assert TrimEnd(sr) == 31 * q + (31 * m) / 10;
  }

  /** The first step of `extract_features`: soundfile first (down-mix then
      trim); if it raised, librosa's own 2.5 s read at 0.6 s offset. */
  function Load(primary: Result<(Waveform, nat)>, fallback: Result<(seq<real>, nat)>)
    : (r: Result<(seq<real>, nat)>)
    ensures primary.Ok? ==> r.Ok? && r.value.1 == primary.value.1
    ensures primary.Ok? ==> r.value.0 == Trim(ToMono(primary.value.0), primary.value.1)
    ensures primary.Err? ==> r == fallback
  {
    match primary
    case Ok((w, sr)) => Ok((Trim(ToMono(w), sr), sr))
    case Err(_) => fallback
  }

  /** One row of the MFCC matrix brought to `TargetFrames` columns. */
  function FitRow(row: seq<real>): (r: seq<real>)
    ensures |r| == TargetFrames
    ensures |row| <= TargetFrames ==> r[..|row|] == row
    ensures |row| <= TargetFrames ==> forall j :: |row| <= j < TargetFrames ==> r[j] == 0.0
    ensures |row| >= TargetFrames ==> r == row[..TargetFrames]
  {
    if |row| < TargetFrames then row + seq(TargetFrames - |row|, _ => 0.0)
    else if |row| > TargetFrames then row[..TargetFrames]
    else row
  }

  /** Zero-padding on the right, or cutting, the time axis to exactly
      `TargetFrames` columns; the rows are untouched otherwise. */
  function PadOrTruncate(m: seq<seq<real>>): (r: seq<seq<real>>)
    ensures |r| == |m|
    ensures forall i :: 0 <= i < |r| ==> |r[i]| == TargetFrames
    ensures forall i :: 0 <= i < |m| && |m[i]| <= TargetFrames ==>
              r[i][..|m[i]|] == m[i] && forall j :: |m[i]| <= j < TargetFrames ==> r[i][j] == 0.0
    ensures forall i :: 0 <= i < |m| && |m[i]| >= TargetFrames ==> r[i] == m[i][..TargetFrames]
  {
    seq(|m|, i requires 0 <= i < |m| => FitRow(m[i]))
  }

  /** A matrix already of the target width is left as it is, so shaping
      twice is shaping once. */
  lemma PadOrTruncateIdempotent(m: seq<seq<real>>)
    ensures PadOrTruncate(PadOrTruncate(m)) == PadOrTruncate(m)
  {
  }

  lemma PadOrTruncateFixesTargetWidth(m: seq<seq<real>>)
    requires forall i :: 0 <= i < |m| ==> |m[i]| == TargetFrames
    ensures PadOrTruncate(m) == m
  {
  }

  /** `extract_features`: load, compute the MFCC matrix with the given
      extractor, shape it, and add the batch dimension. */
  function ExtractFeatures(primary: Result<(Waveform, nat)>, fallback: Result<(seq<real>, nat)>,
                           mfcc: (seq<real>, nat) -> seq<seq<real>>)
    : (r: Result<seq<seq<seq<real>>>>)
    ensures r.Ok? <==> Load(primary, fallback).Ok?
    ensures r.Err? ==> r == Load(primary, fallback).PropagateFailure()
    ensures r.Ok? ==> |r.value| == 1
    ensures r.Ok? ==> |r.value[0]| == |mfcc(Load(primary, fallback).value.0, Load(primary, fallback).value.1)|
    ensures r.Ok? ==> forall i :: 0 <= i < |r.value[0]| ==> |r.value[0][i]| == TargetFrames
    ensures r.Ok? ==> r.value[0] == PadOrTruncate(mfcc(Load(primary, fallback).value.0, Load(primary, fallback).value.1))
  {
    var loaded :- Load(primary, fallback);
    Ok([PadOrTruncate(mfcc(loaded.0, loaded.1))])
  }

  /** With an extractor that yields `MfccCount` rows the features have shape
      (1, 20, 108), whatever the recording's length. */
  lemma FeatureShape(primary: Result<(Waveform, nat)>, fallback: Result<(seq<real>, nat)>,
                     mfcc: (seq<real>, nat) -> seq<seq<real>>)
    requires forall y, sr :: |mfcc(y, sr)| == MfccCount
    requires ExtractFeatures(primary, fallback, mfcc).Ok?
    ensures var f := ExtractFeatures(primary, fallback, mfcc).value;
            |f| == 1 && |f[0]| == MfccCount && forall i :: 0 <= i < MfccCount ==> |f[0][i]| == TargetFrames
  {
  }

  /** The confidence dictionary: `zip` pairs the labels with the scores and
      stops at the shorter of the two. */
  function ConfidenceScores(prediction: seq<real>): (m: map<string, real>)
    ensures forall i :: 0 <= i < |Labels| && i < |prediction| ==>
              Labels[i] in m && m[Labels[i]] == prediction[i] * 100.0
    ensures forall l :: l in m ==> exists i :: 0 <= i < |Labels| && i < |prediction| && Labels[i] == l
  {
    var n := Min(|Labels|, |prediction|);
    map i | 0 <= i < n :: Labels[i] := prediction[i] * 100.0
  }

  /** Labelling the classifier's row: `np.argmax` over the whole row, the
      label at that index, and the percentage dictionary. */
  function Predict(prediction: seq<real>): (r: Result<AudioResult>)
    ensures |prediction| == 0 ==> r == Err(EmptyArgMaxMessage)
    ensures |prediction| > 0 && ArgMax(prediction) >= |Labels| ==> r == Err(ListIndexMessage)
    ensures r.Ok? <==> |prediction| > 0 && ArgMax(prediction) < |Labels|
    ensures r.Ok? ==> exists k :: 0 <= k < |Labels| && k < |prediction|
                        && r.value.dominantEmotion == Labels[k]
                        && (forall j :: 0 <= j < |prediction| ==> prediction[j] <= prediction[k])
                        && (forall j :: 0 <= j < k ==> prediction[j] < prediction[k])
    ensures r.Ok? ==> r.value.confidenceScores == ConfidenceScores(prediction)
  {
    if |prediction| == 0 then Err(EmptyArgMaxMessage)
    else
      var k := ArgMax(prediction);
      if k >= |Labels| then Err(ListIndexMessage)
      else Ok(AudioResult(Labels[k], ConfidenceScores(prediction)))
  }

  /** For a classifier with one output per label the call always succeeds,
      and the dictionary is keyed by exactly the eight labels. */
  lemma PredictWithEightScores(prediction: seq<real>)
    requires |prediction| == |Labels|
    ensures Predict(prediction).Ok?
    ensures Predict(prediction).value.confidenceScores.Keys == set l | l in Labels
    ensures forall i :: 0 <= i < |Labels| ==>
              Predict(prediction).value.confidenceScores[Labels[i]] == prediction[i] * 100.0
  {
    var m := Predict(prediction).value.confidenceScores;
    forall l | l in Labels
      ensures l in m
    {
      var i :| 0 <= i < |Labels| && Labels[i] == l;
    }
  }

  /** `predict_emotion` once the upload is saved. */
  function PredictEmotion(primary: Result<(Waveform, nat)>, fallback: Result<(seq<real>, nat)>,
                          mfcc: (seq<real>, nat) -> seq<seq<real>>,
                          model: seq<seq<seq<real>>> -> seq<real>)
    : (r: Result<AudioResult>)
    ensures Load(primary, fallback).Err? ==> r == Load(primary, fallback).PropagateFailure()
    ensures ExtractFeatures(primary, fallback, mfcc).Ok? ==>
              r == Predict(model(ExtractFeatures(primary, fallback, mfcc).value))
    ensures r.Ok? ==> r.value.dominantEmotion in Labels
    ensures r.Ok? ==> forall l :: l in r.value.confidenceScores ==> l in Labels
  {
    var features :- ExtractFeatures(primary, fallback, mfcc);
    Predict(model(features))
  }

  /** With a model that gives one score per label, the call fails only when
      both decoders fail. */
  lemma FailsOnlyWhenLoadingFails(primary: Result<(Waveform, nat)>, fallback: Result<(seq<real>, nat)>,
                                  mfcc: (seq<real>, nat) -> seq<seq<real>>,
                                  model: seq<seq<seq<real>>> -> seq<real>)
    requires forall f :: |model(f)| == |Labels|
    ensures PredictEmotion(primary, fallback, mfcc, model).Ok? <==> Load(primary, fallback).Ok?
  {
    if Load(primary, fallback).Ok? {
      PredictWithEightScores(model(ExtractFeatures(primary, fallback, mfcc).value));
    }
  }
}
