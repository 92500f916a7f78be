/** `EmotionDetector.process_video` end to end: open the video, run the
    frame loop, summarise.  `decoded` is `None` when OpenCV cannot open the
    saved upload, and otherwise the frames `cap.read()` returns before its
    first failure. */
module VideoEmotion {
  import opened Results
  import opened VideoFrames
  import opened VideoSummary

  const CannotOpenMessage: string := "Could not open video file"

  function ProcessVideo<F, R>(decoded: Option<seq<F>>, detect: F -> seq<Detection>,
                              preprocess: (F, Box) -> Option<R>, classify: R -> seq<real>)
    : (r: Result<Summary>)
    ensures decoded.None? ==> r == Err(CannotOpenMessage)
    ensures r.Ok? ==> r.value.dominantEmotion in Labels
    ensures r.Ok? ==> forall l :: l in r.value.distribution ==> l in Labels
    ensures r.Ok? ==> r.value.totalFramesProcessed
                      == AcceptedFaces(decoded.value, 0, detect, preprocess) > 0
    ensures r.Ok? ==> forall l :: l in r.value.distribution ==>
                        1 <= r.value.distribution[l] <= r.value.occurrenceCount
    ensures r.Ok? ==> r.value.dominantEmotion in r.value.distribution
                      && r.value.occurrenceCount == r.value.distribution[r.value.dominantEmotion]
    ensures decoded.Some? && Records(decoded.value, 0, detect, preprocess, classify).Err? ==>
              r == Records(decoded.value, 0, detect, preprocess, classify).PropagateFailure()
    ensures decoded.Some? && Records(decoded.value, 0, detect, preprocess, classify).Ok? ==>
              r == Summarize(Records(decoded.value, 0, detect, preprocess, classify).value)
  {
    match decoded
    case None => Err(CannotOpenMessage)
    case Some(frames) =>
      var rs :- Records(frames, 0, detect, preprocess, classify);
      RecordPerAcceptedFace(frames, 0, detect, preprocess, classify);
      Summarize(rs)
  }

  /** With no face accepted on any sampled frame the call fails with the
      "no faces" error and never returns a summary. */
  lemma NoFaceFails<F, R>(frames: seq<F>, detect: F -> seq<Detection>,
                          preprocess: (F, Box) -> Option<R>, classify: R -> seq<real>)
    requires forall i :: 0 <= i < |frames| && Sampled(i + 1) ==>
               Filter(frames[i], detect(frames[i]), preprocess) == []
    ensures ProcessVideo(Some(frames), detect, preprocess, classify) == Err(NoFacesMessage)
  {
    NoAcceptedFaceNoRecords(frames, 0, detect, preprocess, classify);
  }

  /** In particular a video whose sampled frames show only detections below
      the 0.95 threshold fails that way. */
  lemma LowConfidenceFails<F, R>(frames: seq<F>, detect: F -> seq<Detection>,
                                 preprocess: (F, Box) -> Option<R>, classify: R -> seq<real>)
    requires forall i, j :: 0 <= i < |frames| && 0 <= j < |detect(frames[i])| ==>
               detect(frames[i])[j].confidence < MinFaceConfidence
    ensures ProcessVideo(Some(frames), detect, preprocess, classify) == Err(NoFacesMessage)
  {
    forall i | 0 <= i < |frames| && Sampled(i + 1)
      ensures Filter(frames[i], detect(frames[i]), preprocess) == []
    {
      NothingAcceptedNothingKept(frames[i], detect(frames[i]), preprocess);
    }
    NoFaceFails(frames, detect, preprocess, classify);
  }

  /** When every sampled frame's accepted faces get full classifier rows,
      the call returns a summary exactly when some sampled frame keeps a
      face. */
  lemma SummaryWhenFaceKept<F, R>(frames: seq<F>, detect: F -> seq<Detection>,
                                  preprocess: (F, Box) -> Option<R>, classify: R -> seq<real>)
    requires SampledRowsFull(frames, 0, detect, preprocess, classify)
    ensures ProcessVideo(Some(frames), detect, preprocess, classify).Ok?
            <==> AcceptedFaces(frames, 0, detect, preprocess) > 0
  {
    RecordsOk(frames, 0, detect, preprocess, classify);
    RecordPerAcceptedFace(frames, 0, detect, preprocess, classify);
    var rs := Records(frames, 0, detect, preprocess, classify).value;
    assert ProcessVideo(Some(frames), detect, preprocess, classify) == Summarize(rs);
  }
}
