/** The frame loop of `EmotionDetector.process_video`: which frames are
    looked at, which detected faces are kept, and what record each kept
    face produces.

    Decoding, face detection, cropping with preprocessing and the Keras
    classifier are collaborators passed in as functions: `detect` stands for
    MTCNN on a frame, `preprocess` for the crop plus `preprocess_face` (which
    yields `None` when OpenCV fails), `classify` for `classifier.predict(roi)[0]`. */
module VideoFrames {
  import opened Results
  import opened Scores
  import opened Text

  /** The classifier's output order. */
  const Labels: seq<string> := ["Angry", "Disgust", "Fear", "Happy", "Neutral", "Sad", "Surprise"]

  /** Only every `FrameSkip`-th frame (1-based) is examined. */
  const FrameSkip: nat := 5

  /** Detections below this confidence are ignored. */
  const MinFaceConfidence: real := 0.95

  datatype Box = Box(x: int, y: int, w: int, h: int)

  /** One entry of MTCNN's `detect_faces` list. */
  datatype Detection = Detection(box: Box, confidence: real)

  /** One entry of `emotion_data`: the 1-based frame number, the winning
      label and its score as a percentage. */
  datatype FaceRecord = FaceRecord(frame: nat, emotion: string, confidence: real)

  predicate Sampled(frameNumber: nat) {
    frameNumber % FrameSkip == 0
  }

  /** A detection the loop gets past the confidence test and preprocessing for. */
  predicate Accepted<F, R>(frame: F, d: Detection, preprocess: (F, Box) -> Option<R>) {
    d.confidence >= MinFaceConfidence && preprocess(frame, d.box).Some?
  }

  /** numpy's message for reading index `n` of a row of size `n`. */
  function IndexErrorMessage(n: nat): string {
    "index " + NatToString(n) + " is out of bounds for axis 0 with size " + NatToString(n)
  }

  /** Reading `predictions[i]` for every label index and picking the winner
      of the percentage dictionary.  A classifier row shorter than the label
      list makes numpy raise at the first missing index. */
  function Dominant(predictions: seq<real>): (r: Result<nat>)
    ensures r.Ok? <==> |predictions| >= |Labels|
    ensures r.Err? ==> r.message == IndexErrorMessage(|predictions|)
    ensures r.Ok? ==> r.value < |Labels|
    ensures r.Ok? ==> forall j :: 0 <= j < |Labels| ==> predictions[j] <= predictions[r.value]
    ensures r.Ok? ==> forall j :: 0 <= j < r.value ==> predictions[j] < predictions[r.value]
  {
    if |predictions| < |Labels| then Err(IndexErrorMessage(|predictions|))
    else
      var row := predictions[..|Labels|];
      var percentages := seq(|Labels|, i requires 0 <= i < |Labels| => 100.0 * row[i]);
      ArgMaxScaled(row, percentages);
      Ok(ArgMax(percentages))
  }

  /** The record the loop appends for an accepted face whose classifier row
      is `predictions`. */
  function Record(frameNumber: nat, predictions: seq<real>): (r: Result<FaceRecord>)
    ensures r.Ok? <==> |predictions| >= |Labels|
    ensures r.Ok? ==> r.value.frame == frameNumber
    ensures r.Ok? ==> exists k :: 0 <= k < |Labels| && r.value.emotion == Labels[k]
                                  && r.value.confidence == predictions[k] * 100.0
                                  && (forall j :: 0 <= j < |Labels| ==> predictions[j] <= predictions[k])
  {
    var k :- Dominant(predictions);
    Ok(FaceRecord(frameNumber, Labels[k], predictions[k] * 100.0))
  }

  /** The inner `for face in faces` loop over one sampled frame. */
  function FaceRecords<F, R>(frame: F, frameNumber: nat, faces: seq<Detection>,
                             preprocess: (F, Box) -> Option<R>, classify: R -> seq<real>)
    : (r: Result<seq<FaceRecord>>)
    ensures r.Ok? ==> |r.value| == |Filter(frame, faces, preprocess)|
    ensures r.Ok? ==> forall i :: 0 <= i < |r.value| ==>
                        r.value[i].frame == frameNumber && r.value[i].emotion in Labels
    ensures r.Ok? ==> forall i :: 0 <= i < |r.value| ==>
                        var d := Filter(frame, faces, preprocess)[i];
                        preprocess(frame, d.box).Some?
                        && Record(frameNumber, classify(preprocess(frame, d.box).value)) == Ok(r.value[i])
  {
    if |faces| == 0 then Ok([])
    else
      var d := faces[0];
      if d.confidence < MinFaceConfidence then
        assert Filter(frame, faces, preprocess) == Filter(frame, faces[1..], preprocess);
        FaceRecords(frame, frameNumber, faces[1..], preprocess, classify)
      else
        match preprocess(frame, d.box)
        case None =>
          assert Filter(frame, faces, preprocess) == Filter(frame, faces[1..], preprocess);
          FaceRecords(frame, frameNumber, faces[1..], preprocess, classify)
        case Some(roi) =>
          assert Filter(frame, faces, preprocess) == [d] + Filter(frame, faces[1..], preprocess);
          var rec :- Record(frameNumber, classify(roi));
          var rest :- FaceRecords(frame, frameNumber, faces[1..], preprocess, classify);
          Ok([rec] + rest)
  }

  /** The detections that survive the two `continue`s of the inner loop. */
  function Filter<F, R>(frame: F, faces: seq<Detection>, preprocess: (F, Box) -> Option<R>)
    : (r: seq<Detection>)
    ensures forall d :: d in r ==> d in faces && Accepted(frame, d, preprocess)
    ensures forall d :: d in faces && Accepted(frame, d, preprocess) ==> d in r
  {
    if |faces| == 0 then []
    else if Accepted(frame, faces[0], preprocess) then [faces[0]] + Filter(frame, faces[1..], preprocess)
    else Filter(frame, faces[1..], preprocess)
  }

  /** The filter keeps every accepted detection as often as the detector
      reported it, and no rejected one. */
  lemma {:induction false} FilterKeepsMultiplicity<F, R>(frame: F, faces: seq<Detection>,
                                                          preprocess: (F, Box) -> Option<R>)
    ensures forall d :: multiset(Filter(frame, faces, preprocess))[d]
                        == if Accepted(frame, d, preprocess) then multiset(faces)[d] else 0
  {
    if |faces| > 0 {
      FilterKeepsMultiplicity(frame, faces[1..], preprocess);
      assert faces == [faces[0]] + faces[1..];
    }
  }

  /** Every accepted detection of the frame has a classifier row with at
      least one score per label, so its record can be built. */
  predicate FullRows<F, R>(frame: F, faces: seq<Detection>, preprocess: (F, Box) -> Option<R>,
                           classify: R -> seq<real>)
  {
    forall d :: d in faces && Accepted(frame, d, preprocess) ==>
      |classify(preprocess(frame, d.box).value)| >= |Labels|
  }

  /** With full classifier rows the inner loop never raises. */
  lemma {:induction false} FaceRecordsOk<F, R>(frame: F, frameNumber: nat, faces: seq<Detection>,
                                                preprocess: (F, Box) -> Option<R>,
                                                classify: R -> seq<real>)
    requires FullRows(frame, faces, preprocess, classify)
    ensures FaceRecords(frame, frameNumber, faces, preprocess, classify).Ok?
  {
    if |faces| > 0 {
      assert faces[0] in faces;
      FaceRecordsOk(frame, frameNumber, faces[1..], preprocess, classify);
    }
  }

  /** A frame none of whose detections is accepted keeps none. */
  lemma {:induction false} NothingAcceptedNothingKept<F, R>(frame: F, faces: seq<Detection>,
                                                            preprocess: (F, Box) -> Option<R>)
    requires forall d :: d in faces ==> !Accepted(frame, d, preprocess)
    ensures Filter(frame, faces, preprocess) == []
  {
    if |faces| > 0 {
      assert faces[0] in faces;
      NothingAcceptedNothingKept(frame, faces[1..], preprocess);
    }
  }

  /** Rejected faces contribute nothing: the inner loop gives the same
      outcome on the accepted detections alone. */
  lemma {:induction false} RejectedFacesIgnored<F, R>(frame: F, frameNumber: nat, faces: seq<Detection>,
                                                       preprocess: (F, Box) -> Option<R>,
                                                       classify: R -> seq<real>)
    ensures FaceRecords(frame, frameNumber, faces, preprocess, classify)
         == FaceRecords(frame, frameNumber, Filter(frame, faces, preprocess), preprocess, classify)
  {
    if |faces| > 0 {
      RejectedFacesIgnored(frame, frameNumber, faces[1..], preprocess, classify);
      if Accepted(frame, faces[0], preprocess) {
        var filtered := Filter(frame, faces, preprocess);
        assert filtered[0] == faces[0] && filtered[1..] == Filter(frame, faces[1..], preprocess);
      }
    }
  }

  /** The outer `while` loop over the frames still to be read; `seen` frames
      have been read already, so the next frame is number `seen + 1`.  The
      first exception ends the whole loop. */
  function Records<F, R>(frames: seq<F>, seen: nat, detect: F -> seq<Detection>,
                         preprocess: (F, Box) -> Option<R>, classify: R -> seq<real>)
    : (r: Result<seq<FaceRecord>>)
    ensures r.Ok? ==> forall i :: 0 <= i < |r.value| ==>
                        Sampled(r.value[i].frame) && seen < r.value[i].frame <= seen + |frames|
                        && r.value[i].emotion in Labels
    decreases |frames|
  {
    if |frames| == 0 then Ok([])
    else
      var n := seen + 1;
      if !Sampled(n) then Records(frames[1..], n, detect, preprocess, classify)
      else
        var here :- FaceRecords(frames[0], n, detect(frames[0]), preprocess, classify);
        var later :- Records(frames[1..], n, detect, preprocess, classify);
        Ok(here + later)
  }

  /** Frames whose number is not a multiple of five are never looked at:
      two videos that agree on every sampled frame give the same outcome. */
  lemma {:induction false} UnsampledFramesIgnored<F, R>(frames: seq<F>, other: seq<F>, seen: nat,
                                                         detect: F -> seq<Detection>,
                                                         preprocess: (F, Box) -> Option<R>,
                                                         classify: R -> seq<real>)
    requires |other| == |frames|
    requires forall i :: 0 <= i < |frames| && Sampled(seen + i + 1) ==> other[i] == frames[i]
    ensures Records(frames, seen, detect, preprocess, classify)
         == Records(other, seen, detect, preprocess, classify)
    decreases |frames|
  {
    if |frames| > 0 {
      forall i | 0 <= i < |frames| - 1 && Sampled(seen + 1 + i + 1)
        ensures other[1..][i] == frames[1..][i]
      {
        assert other[i + 1] == frames[i + 1];
      }
      UnsampledFramesIgnored(frames[1..], other[1..], seen + 1, detect, preprocess, classify);
      if Sampled(seen + 1) {
        assert other[0] == frames[0];
      }
    }
  }

  /** A video in which no sampled frame holds an accepted face yields no
      records at all. */
  lemma {:induction false} NoAcceptedFaceNoRecords<F, R>(frames: seq<F>, seen: nat,
                                                          detect: F -> seq<Detection>,
                                                          preprocess: (F, Box) -> Option<R>,
                                                          classify: R -> seq<real>)
    requires forall i :: 0 <= i < |frames| && Sampled(seen + i + 1) ==>
               Filter(frames[i], detect(frames[i]), preprocess) == []
    ensures Records(frames, seen, detect, preprocess, classify) == Ok([])
    decreases |frames|
  {
    if |frames| > 0 {
      forall i | 0 <= i < |frames| - 1 && Sampled(seen + 1 + i + 1)
        ensures Filter(frames[1..][i], detect(frames[1..][i]), preprocess) == []
      {
        assert frames[1..][i] == frames[i + 1];
      }
      NoAcceptedFaceNoRecords(frames[1..], seen + 1, detect, preprocess, classify);
      if Sampled(seen + 1) {
        assert Filter(frames[0], detect(frames[0]), preprocess) == [];
        RejectedFacesIgnored(frames[0], seen + 1, detect(frames[0]), preprocess, classify);
        assert FaceRecords(frames[0], seen + 1, detect(frames[0]), preprocess, classify) == Ok([]);
        assert Records(frames[1..], seen + 1, detect, preprocess, classify) == Ok([]);
        var none: seq<FaceRecord> := [];
        assert none + none == none;
      }
    }
  }

  /** Accepted faces over the sampled frames among `frames`, the frame after
      `seen` first. */
  function AcceptedFaces<F, R>(frames: seq<F>, seen: nat, detect: F -> seq<Detection>,
                               preprocess: (F, Box) -> Option<R>): nat
    decreases |frames|
  {
    if |frames| == 0 then 0
    else
      (if Sampled(seen + 1) then |Filter(frames[0], detect(frames[0]), preprocess)| else 0)
      + AcceptedFaces(frames[1..], seen + 1, detect, preprocess)
  }

  /** One record per accepted face of a sampled frame: the loop counts
      faces, not frames. */
  lemma {:induction false} RecordPerAcceptedFace<F, R>(frames: seq<F>, seen: nat,
                                                        detect: F -> seq<Detection>,
                                                        preprocess: (F, Box) -> Option<R>,
                                                        classify: R -> seq<real>)
    requires Records(frames, seen, detect, preprocess, classify).Ok?
    ensures |Records(frames, seen, detect, preprocess, classify).value|
         == AcceptedFaces(frames, seen, detect, preprocess)
    decreases |frames|
  {
    if |frames| > 0 {
      RecordPerAcceptedFace(frames[1..], seen + 1, detect, preprocess, classify);
    }
  }

  /** `FullRows` on every sampled frame among `frames`, the frame after
      `seen` first. */
  predicate SampledRowsFull<F, R>(frames: seq<F>, seen: nat, detect: F -> seq<Detection>,
                                  preprocess: (F, Box) -> Option<R>, classify: R -> seq<real>)
    decreases |frames|
  {
    |frames| == 0
    || ((Sampled(seen + 1) ==> FullRows(frames[0], detect(frames[0]), preprocess, classify))
        && SampledRowsFull(frames[1..], seen + 1, detect, preprocess, classify))
  }

  /** `SampledRowsFull` says, frame by frame, that each sampled frame's
      accepted faces get full rows. */
  lemma {:induction false} SampledRowsFullAtEachFrame<F, R>(frames: seq<F>, seen: nat,
                                                             detect: F -> seq<Detection>,
                                                             preprocess: (F, Box) -> Option<R>,
                                                             classify: R -> seq<real>)
    ensures SampledRowsFull(frames, seen, detect, preprocess, classify) <==>
              forall i :: 0 <= i < |frames| && Sampled(seen + i + 1) ==>
                FullRows(frames[i], detect(frames[i]), preprocess, classify)
    decreases |frames|
  {
    if |frames| > 0 {
      SampledRowsFullAtEachFrame(frames[1..], seen + 1, detect, preprocess, classify);
      assert forall i :: 0 <= i < |frames| - 1 ==> frames[1..][i] == frames[i + 1];
    }
  }

  /** With full classifier rows on every sampled frame the frame loop runs
      to the end without raising. */
  lemma {:induction false} RecordsOk<F, R>(frames: seq<F>, seen: nat, detect: F -> seq<Detection>,
                                            preprocess: (F, Box) -> Option<R>,
                                            classify: R -> seq<real>)
    requires SampledRowsFull(frames, seen, detect, preprocess, classify)
    ensures Records(frames, seen, detect, preprocess, classify).Ok?
    decreases |frames|
  {
    if |frames| > 0 {
      RecordsOk(frames[1..], seen + 1, detect, preprocess, classify);
      if Sampled(seen + 1) {
        FaceRecordsOk(frames[0], seen + 1, detect(frames[0]), preprocess, classify);
      }
    }
  }

  /** `rec` is the record of some detection of `frame` that the inner loop
      accepted, built from that detection's classifier row. */
  predicate FromKeptFace<F, R>(frame: F, rec: FaceRecord, detect: F -> seq<Detection>,
                               preprocess: (F, Box) -> Option<R>, classify: R -> seq<real>)
  {
    exists d :: d in detect(frame) && Accepted(frame, d, preprocess)
                && Record(rec.frame, classify(preprocess(frame, d.box).value)) == Ok(rec)
  }

  /** `rec` was made on one of `frames`, whose first is frame `seen + 1`,
      from an accepted detection on that frame. */
  predicate KeptOn<F, R>(frames: seq<F>, seen: nat, rec: FaceRecord, detect: F -> seq<Detection>,
                         preprocess: (F, Box) -> Option<R>, classify: R -> seq<real>)
  {
    seen < rec.frame <= seen + |frames|
    && FromKeptFace(frames[rec.frame - seen - 1], rec, detect, preprocess, classify)
  }

  /** A record made on a later frame is still made on one of the frames
      once the current frame is put back in front. */
  lemma KeptOnLater<F, R>(frames: seq<F>, seen: nat, rec: FaceRecord, detect: F -> seq<Detection>,
                          preprocess: (F, Box) -> Option<R>, classify: R -> seq<real>)
    requires |frames| > 0
    requires KeptOn(frames[1..], seen + 1, rec, detect, preprocess, classify)
    ensures KeptOn(frames, seen, rec, detect, preprocess, classify)
  {
    assert frames[1..][rec.frame - (seen + 1) - 1] == frames[rec.frame - seen - 1];
  }

  /** Every record of the inner loop is made on its frame from an accepted
      detection. */
  lemma HereFromKeptFaces<F, R>(frames: seq<F>, seen: nat, detect: F -> seq<Detection>,
                                preprocess: (F, Box) -> Option<R>, classify: R -> seq<real>)
    requires |frames| > 0
    requires FaceRecords(frames[0], seen + 1, detect(frames[0]), preprocess, classify).Ok?
    ensures var here := FaceRecords(frames[0], seen + 1, detect(frames[0]), preprocess, classify).value;
            forall i :: 0 <= i < |here| ==> KeptOn(frames, seen, here[i], detect, preprocess, classify)
  {
    var faces := detect(frames[0]);
    var here := FaceRecords(frames[0], seen + 1, faces, preprocess, classify).value;
    forall i | 0 <= i < |here|
      ensures KeptOn(frames, seen, here[i], detect, preprocess, classify)
    {
      var d := Filter(frames[0], faces, preprocess)[i];
      assert d in Filter(frames[0], faces, preprocess);
    }
  }

  /** On a sampled frame a successful loop is the frame's own records
      followed by the later frames' records. */
  lemma RecordsOnSampledFrame<F, R>(frames: seq<F>, seen: nat, detect: F -> seq<Detection>,
                                    preprocess: (F, Box) -> Option<R>, classify: R -> seq<real>)
    requires |frames| > 0 && Sampled(seen + 1)
    requires Records(frames, seen, detect, preprocess, classify).Ok?
    ensures FaceRecords(frames[0], seen + 1, detect(frames[0]), preprocess, classify).Ok?
    ensures Records(frames[1..], seen + 1, detect, preprocess, classify).Ok?
    ensures Records(frames, seen, detect, preprocess, classify).value
         == FaceRecords(frames[0], seen + 1, detect(frames[0]), preprocess, classify).value
            + Records(frames[1..], seen + 1, detect, preprocess, classify).value
  {
  }

  /** Every record of a successful loop belongs to one of the frames read,
      and is the record of an accepted detection on that very frame, so the
      argmax facts of `Record` hold for every row of the loop's output. */
  lemma {:induction false} RecordsFromKeptFaces<F, R>(frames: seq<F>, seen: nat, detect: F -> seq<Detection>,
                                                preprocess: (F, Box) -> Option<R>,
                                                classify: R -> seq<real>)
    requires Records(frames, seen, detect, preprocess, classify).Ok?
    ensures var rs := Records(frames, seen, detect, preprocess, classify).value;
            forall i :: 0 <= i < |rs| ==> KeptOn(frames, seen, rs[i], detect, preprocess, classify)
    decreases |frames|
  {
    if |frames| > 0 {
      var rs := Records(frames, seen, detect, preprocess, classify).value;
      var later := Records(frames[1..], seen + 1, detect, preprocess, classify);
      RecordsFromKeptFaces(frames[1..], seen + 1, detect, preprocess, classify);
      if !Sampled(seen + 1) {
        assert rs == later.value;
        forall i | 0 <= i < |rs|
          ensures KeptOn(frames, seen, rs[i], detect, preprocess, classify)
        {
          KeptOnLater(frames, seen, rs[i], detect, preprocess, classify);
        }
      } else {
        RecordsOnSampledFrame(frames, seen, detect, preprocess, classify);
        HereFromKeptFaces(frames, seen, detect, preprocess, classify);
        var here := FaceRecords(frames[0], seen + 1, detect(frames[0]), preprocess, classify).value;
        forall i | 0 <= i < |rs|
          ensures KeptOn(frames, seen, rs[i], detect, preprocess, classify)
        {
          if i < |here| {
            assert rs[i] == here[i];
          } else {
            assert rs[i] == later.value[i - |here|];
            KeptOnLater(frames, seen, rs[i], detect, preprocess, classify);
          }
        }
      }
    }
  }

}
