# MindCare backend — a Dafny model of its decision logic

MindCare's Flask backend takes a video or audio upload, classifies the
speaker's emotion, and answers with a supportive message.  It also exposes
wellness metrics from a fitness API.  The heavy lifting is done by library
calls. These are face detection, the Keras classifiers, MFCC extraction,
the generative chat model and the fitness API. This project models the
sequential logic around those calls. Each collaborator is passed in as an
opaque function or an already-computed outcome:

- **Video aggregation** (`video_frames.dfy`, `video_summary.dfy`,
  `video_emotion.dfy`). The frame loop samples every fifth frame and keeps
  faces detected with confidence at least 0.95 that preprocessing accepts.
  It labels each kept face with the first maximal of the 7 classifier
  scores. A `value_counts` summary follows: a count map, the dominant label,
  and the total.
- **Audio shaping and labelling** (`audio_emotion.dfy`). Steps: down-mix to
  mono; trim to the 0.6 s–3.1 s window; pad or truncate the MFCC matrix to
  108 columns; add the batch dimension; take the argmax over the 8 labels;
  build the percentage dictionary.
- **Mood responder** (`mood_chat.dfy`). It applies Python's `capitalize()`,
  checks exact membership in the 8-mood list, and looks up the canned table
  with its default. Anything else goes to the generator. The table is
  written as two lookups: a key's position in the table, and the text
  stored at a position.
- **Wellness metrics** (`wellness_metrics.dfy`). Data sources are folded
  into `{heart_rate, steps, heart_points}` by case-insensitive substring
  classification with overwrite semantics. Any failure gives the mock record.
- **Request dispatch** (`router.dfy`). These are the three Flask handlers as
  pure functions giving a status code and a JSON body.

Shared pieces: `results.dfy` (`Result`/`Option`, with the exception message
`str(e)` as the error), `text.dfy` (ASCII case mapping, substring test),
`slicing.dfy` (Python slicing), `scores.dfy` (first-maximum argmax).

Floating-point values (scores, samples, fitness readings) are idealised as
`real`.

`value_counts` does not say which of several equally frequent labels comes
first. This model picks one explicitly: the label that appeared first among
the records. `VideoSummary.Summarize` states maximality on its own, and
`VideoSummary.Dominant` states the tie-break.

## Model

| member | source | states |
|---|---|---|
| Scores.ArgMax | backend/services/emotion_detector.py:82-86 | the chosen index holds a maximal score and every earlier index a strictly smaller one (first maximum, as `max` over the label-ordered dict and `np.argmax` choose) |
| Scores.ArgMaxUnique | backend/services/audio_emotion_detector.py:92 | any index with a maximal score and only smaller scores before it is the argmax, so the choice is determined |
| Scores.ArgMaxScaled | backend/services/emotion_detector.py:82-86 | multiplying every probability by 100 does not change the winning label |
| Text.Capitalize | backend/services/gemini_chat.py:30 | `capitalize()` keeps the length, upper-cases the first character and lower-cases the rest |
| Text.Lower | backend/services/google_fit_service.py:67 | `lower()` keeps the length and lower-cases each character in place |
| Text.ContainsIsSomeWindow | backend/services/google_fit_service.py:67 | the substring test `needle in hay` holds exactly when some contiguous window of `hay` equals `needle` |
| Slicing.Slice | backend/services/audio_emotion_detector.py:49 | Python slicing clamps both bounds to the length and yields the in-range window; a start at or past the end, or past the length, gives the empty list |
| VideoFrames.Dominant | backend/services/emotion_detector.py:81-86 | a classifier row shorter than the 7 labels raises numpy's index error; otherwise the winner is a label index whose score is maximal, earliest on ties |
| Text.NatToString | backend/services/emotion_detector.py:81-86 | the index in numpy's error message is written as decimal digits without a leading zero, denoting the index |
| VideoFrames.Record | backend/services/emotion_detector.py:81-93 | a kept face's record carries its frame number, a label of the 7-label list, and that label's own score as a percentage, and that score is maximal |
| VideoFrames.Filter | backend/services/emotion_detector.py:72-79 | exactly the detections with confidence at least 0.95 whose preprocessing succeeds are kept |
| VideoFrames.FilterKeepsMultiplicity | backend/services/emotion_detector.py:72-79 | each accepted detection is kept as many times as the detector reported it, and a rejected one never |
| VideoFrames.NothingAcceptedNothingKept | backend/services/emotion_detector.py:72-79 | a frame none of whose detections passes both checks keeps no face |
| VideoFrames.FaceRecords | backend/services/emotion_detector.py:68-93 | one frame gives one record per kept face, in detection order: record i is the record of the i-th kept face's classifier row, tagged with that frame and a label from the list |
| VideoFrames.RejectedFacesIgnored | backend/services/emotion_detector.py:72-79 | a face below 0.95 or failing preprocessing contributes nothing: the outcome equals the outcome on the kept faces alone |
| VideoFrames.Records | backend/services/emotion_detector.py:55-93 | every record comes from a frame whose 1-based number is a multiple of 5 within the video, and has a label from the list |
| VideoFrames.UnsampledFramesIgnored | backend/services/emotion_detector.py:50-62 | two videos that agree on every fifth frame give the same outcome, so the other frames are never examined |
| VideoFrames.NoAcceptedFaceNoRecords | backend/services/emotion_detector.py:55-93 | without a kept face on any sampled frame the loop produces no record |
| VideoFrames.RecordsFromKeptFaces | backend/services/emotion_detector.py:55-93 | every record of a successful frame loop was made on one of the frames read, from a detection on that frame with confidence at least 0.95 whose preprocessing succeeded, and equals `Record` of that detection's classifier row, so each record carries the first maximal label of its own face |
| VideoFrames.RecordPerAcceptedFace | backend/services/emotion_detector.py:68-93 | the number of records equals the number of kept faces over the sampled frames |
| VideoFrames.FaceRecordsOk | backend/services/emotion_detector.py:68-93 | when every accepted face of the frame gets a classifier row with at least 7 scores, the inner loop never raises |
| VideoFrames.RecordsOk | backend/services/emotion_detector.py:55-93 | when that holds on every sampled frame, the frame loop runs to the end without raising |
| VideoFrames.SampledRowsFullAtEachFrame | backend/services/emotion_detector.py:60-85 | the frame-loop condition on classifier rows is exactly: every sampled frame's accepted faces get at least 7 scores |
| VideoSummary.Tally | backend/services/emotion_detector.py:99 | the `value_counts` fold has a key for every observed label and no other, each with a count of at least 1 |
| VideoSummary.FirstSeenContents | backend/services/emotion_detector.py:99 | the first-appearance order lists each observed label exactly once and nothing else |
| VideoSummary.TallyIsCount | backend/services/emotion_detector.py:99-108 | the folded count map has exactly the observed labels as keys, each mapped to its number of occurrences, at least 1 |
| VideoSummary.SumOverBump | backend/services/emotion_detector.py:99 | adding one occurrence of a label adds one to the sum of counts over a duplicate-free key list, or nothing if the label is absent |
| VideoSummary.TallySum | backend/services/emotion_detector.py:99-109 | the counts sum to the number of records over any duplicate-free key list covering the observed labels |
| VideoSummary.Dominant | backend/services/emotion_detector.py:99-100 | the dominant label occurs, no label occurs more often, and it is the first such label in order of appearance |
| VideoSummary.Summarize | backend/services/emotion_detector.py:95-116 | no records fails with "No faces detected in the video"; otherwise the total is the record count, the dominant label is a key of the distribution with the maximal count, the occurrence count equals its count, and the keys are exactly the observed labels, each counted correctly |
| VideoSummary.DistributionSumsToTotal | backend/services/emotion_detector.py:99-109 | the distribution's values add up to `total_frames_processed` |
| VideoEmotion.ProcessVideo | backend/services/emotion_detector.py:46-116 | an unopenable video fails with "Could not open video file"; a summary has its dominant label and distribution keys in the 7-label list, and a positive total equal to the number of kept faces on sampled frames; its dominant label is a key of the distribution whose count is the occurrence count; an exception in the frame loop is the call's error, and otherwise the result is `Summarize` of the frame loop's records |
| VideoEmotion.NoFaceFails | backend/services/emotion_detector.py:114-116 | with no kept face on any sampled frame the call fails with the "no faces" error and never returns a summary |
| VideoEmotion.LowConfidenceFails | backend/services/emotion_detector.py:72-73 | a video whose detections are all below 0.95 fails with the "no faces" error |
| VideoEmotion.SummaryWhenFaceKept | backend/services/emotion_detector.py:55-113 | when every sampled frame's accepted faces get at least 7 scores, the call returns a summary exactly when some sampled frame keeps a face |
| AudioEmotion.ToMono | backend/services/audio_emotion_detector.py:45-46 | a mono buffer is kept; a multi-channel one becomes one sample per frame, the mean of its channels |
| AudioEmotion.ToMonoOfIdenticalChannels | backend/services/audio_emotion_detector.py:45-46 | channels carrying the same signal down-mix to that signal |
| AudioEmotion.Trim | backend/services/audio_emotion_detector.py:48-49 | a buffer of at most 2.5 s is untouched; a longer one becomes exactly the samples from floor(0.6 sr) up to floor(3.1 sr), the end clamped to the buffer, non-empty for a positive rate, and at most one sample over 2.5 s (exactly at most 2.5 s when the rate is a multiple of 10) |
| AudioEmotion.WindowBounds | backend/services/audio_emotion_detector.py:49 | the floors of 0.6 sr and 3.1 sr are ordered, at least one apart for a positive rate, and at most 2.5 sr + 1 apart |
| AudioEmotion.Load | backend/services/audio_emotion_detector.py:42-52 | a successful primary read is down-mixed and trimmed at its own rate; a failing one is replaced by the fallback reader's outcome |
| AudioEmotion.FitRow | backend/services/audio_emotion_detector.py:61-65 | a row comes out exactly 108 long: a short row is its prefix followed by zeros, a long row loses everything after column 108 |
| AudioEmotion.PadOrTruncate | backend/services/audio_emotion_detector.py:61-65 | the row count is unchanged and every row has 108 columns, original columns first and zeros appended on the right only |
| AudioEmotion.PadOrTruncateIdempotent | backend/services/audio_emotion_detector.py:61-65 | shaping an already shaped matrix changes nothing |
| AudioEmotion.PadOrTruncateFixesTargetWidth | backend/services/audio_emotion_detector.py:61-65 | a matrix that already has 108 columns is returned unchanged |
| AudioEmotion.ExtractFeatures | backend/services/audio_emotion_detector.py:42-71 | with a total MFCC extractor, feature extraction fails exactly when loading fails, with loading's error; otherwise the single batch entry is the extractor's matrix on the loaded signal, padded or truncated to 108 columns |
| AudioEmotion.FeatureShape | backend/services/audio_emotion_detector.py:57-70 | with a 20-coefficient extractor the features have shape (1, 20, 108) whatever the recording's length |
| AudioEmotion.ConfidenceScores | backend/services/audio_emotion_detector.py:96-99 | the dictionary maps each label zipped with a score to that score times 100, and has no other key |
| AudioEmotion.Predict | backend/services/audio_emotion_detector.py:91-106 | an empty row raises argmax's error; an argmax beyond the 8 labels raises the list index error; otherwise the call succeeds, and the label is the first maximal score's, with the zipped percentage dictionary |
| AudioEmotion.PredictWithEightScores | backend/services/audio_emotion_detector.py:31-99 | a row of 8 scores always succeeds, and the dictionary's keys are exactly the 8 labels, each with its score times 100 |
| AudioEmotion.PredictEmotion | backend/services/audio_emotion_detector.py:85-106 | a load failure fails the call with loading's error; otherwise the outcome is exactly the labelling of the model's output on the extracted features; a result's label and dictionary keys are audio labels |
| AudioEmotion.FailsOnlyWhenLoadingFails | backend/services/audio_emotion_detector.py:42-106 | with a model that gives one score per label, the call fails only when both decoders fail |
| MoodChat.MoodRecommendation | backend/services/gemini_chat.py:15-26 | `get_mood_recommendation` gives the text stored under a mood of the list, and the "didn't recognize" default for any other name |
| MoodChat.UnknownMoodGetsDefault | backend/services/gemini_chat.py:15-26 | `get_mood_recommendation` on a name outside the mood list returns the fixed "didn't recognize" text |
| MoodChat.ProcessMessage | backend/services/gemini_chat.py:28-35 | a message whose capitalised form is a mood gets the reply stored under that mood in the table; any other message gets exactly the generator's outcome on the raw message |
| MoodChat.MoodListIsTableKeys | backend/services/gemini_chat.py:16-30 | a name is a key of the recommendations table exactly when it is in the recognised mood list, and the table lists the moods in the list's order |
| MoodChat.ReplyIsNotDefault | backend/services/gemini_chat.py:16-26 | no text stored in the table is the "didn't recognize" default |
| MoodChat.NeverDefaultForKnownMood | backend/services/gemini_chat.py:26-31 | a message routed to the table always succeeds and never gets the "didn't recognize" default |
| Text.LowerIdempotent | backend/services/google_fit_service.py:67 | lower-casing twice is lower-casing once |
| MoodChat.CapitalizeIgnoresCase | backend/services/gemini_chat.py:30 | messages that differ only in letter case capitalise alike |
| MoodChat.CaseInsensitiveRouting | backend/services/gemini_chat.py:30-31 | a mood is matched case-insensitively: case variants get the same canned reply, whatever generator either call is given |
| MoodChat.MixedCaseHappy | backend/services/gemini_chat.py:30-31 | "hAPPY" gets the reply "Happy" gets, whatever generator either call is given |
| MoodChat.LeadingBlankGoesToGenerator | backend/services/gemini_chat.py:30-35 | " happy" with a leading blank does not match and goes to the generator |
| MoodChat.VideoLabelsWithoutReply | backend/services/gemini_chat.py:30-35 | the video labels Disgust, Fear and Surprise are not moods of the table and go to the generator |
| MoodChat.AudioLabelsWithoutReply | backend/services/gemini_chat.py:30-35 | the audio labels fear, disgust and surprise go to the generator |
| WellnessMetrics.Trunc | backend/services/google_fit_service.py:71 | `int()` on a float truncates toward zero |
| WellnessMetrics.Classify | backend/services/google_fit_service.py:67-83 | a source is heart rate if its lower-cased id contains heart_rate, else steps if it contains step_count, else heart points if it contains heart_minutes |
| WellnessMetrics.Step | backend/services/google_fit_service.py:67-83 | one source with points writes its reading under the key of its kind, and every other key keeps its value; a source without points or of no kind changes nothing |
| WellnessMetrics.Reading | backend/services/google_fit_service.py:68-82 | for a non-negative latest value the heart-rate reading is that value rounded down; the step and heart-point totals are non-negative when every point's value is |
| WellnessMetrics.HeartRateReadsLatest | backend/services/google_fit_service.py:70-71 | the heart-rate reading depends on the latest point only |
| WellnessMetrics.Aggregate | backend/services/google_fit_service.py:51-85 | the live record always has exactly the three keys |
| WellnessMetrics.UnfedMetricIsZero | backend/services/google_fit_service.py:51-83 | a metric that no source with points feeds keeps the starting 0 |
| WellnessMetrics.LastSourceWins | backend/services/google_fit_service.py:67-83 | each metric holds the reading of the last source of its kind with points: the truncated fpVal of its last point for heart rate, the sum of intVal (missing as 0) for steps, the truncated sum of fpVal for heart points; later sources overwrite rather than add |
| WellnessMetrics.UnusedSourceChangesNothing | backend/services/google_fit_service.py:67-83 | a source that matches no kind, or has no points, leaves the record unchanged |
| WellnessMetrics.ClassifyIgnoresCase | backend/services/google_fit_service.py:67-79 | stream ids differing only in letter case are classified alike |
| WellnessMetrics.FetchWellnessMetrics | backend/services/google_fit_service.py:34-93 | missing credentials or any exception give the mock record; a successful fetch gives the fold from zeros; the result always has the three keys |
| WellnessMetrics.MockValues | backend/services/google_fit_service.py:39-43 | the mock record is exactly heart_rate 75, steps 5000, heart_points 35 |
| Router.Respond | backend/app.py:38-48 | a failed pipeline or responder gives 500 with its message; otherwise 200 with the pipeline's keys unchanged plus `response` holding the reply |
| Router.DetectEmotion | backend/app.py:33-66 | 400 with "No video or audio file provided" exactly when neither field is present; statuses are 200, 400 or 500; error bodies hold only `error` |
| Router.VideoTakesPrecedence | backend/app.py:34-50 | with a video field, the audio field and the audio pipeline cannot change the response |
| Router.VideoSuccess | backend/app.py:34-45 | a successful video upload answers 200 with the four summary fields unchanged plus `response` |
| Router.AudioSuccess | backend/app.py:50-61 | a successful audio upload without video answers 200 with label and scores unchanged plus `response` |
| Router.PipelineFailure | backend/app.py:36-64 | a failing video or audio pipeline answers 500 with its message, and so does a responder failing on the successful pipeline's dominant emotion |
| Router.Chat | backend/app.py:68-80 | an unreadable body gives 500; a missing or empty message gives 400 "No message provided"; otherwise 200 with the reply, or 500 with the responder's error |
| Router.ChatMoodInAnyCase | backend/app.py:68-80 | a non-empty message naming a mood in any letter case gets a 200 with the same canned reply, whatever the generator |
| Router.GetWellnessMetrics | backend/app.py:19-30 | a 200 carries the adapter's record as JSON integers; anything else is the 500 "Unable to fetch wellness metrics" |
| Router.WellnessAlwaysSucceeds | backend/app.py:25-27 | the 500 branch is unreachable: the endpoint always answers 200 with the three keys, and with 75/5000/35 when authentication fails |

## Left out

- The face detector, the video classifier, the MFCC extractor and the audio model are taken as total functions. An exception raised inside `detect_faces`, `classifier.predict`, `librosa.feature.mfcc` or `model.predict` is not modelled; the router's abstract pipeline outcomes stand in for it.
- Model loading, Keras inference, MTCNN detection, OpenCV colour conversion, crop and resize, `img_to_array`, librosa MFCC and `librosa.load`, and soundfile decoding are foreign library calls. They appear only as function parameters or given outcomes. Failures while loading a model are covered by the router's abstract pipeline outcomes.
- Floating point is idealised as `real`. This leaves out `round(…, 2)` on video confidences, float rounding in `* 100`, and ties that float rounding could create or break. It also leaves out the softmax sum of about 100.
- AudioEmotion.Trim: `int(sr * 0.6)` and `int(sr * 3.1)` are modelled as the exact floors `6*sr/10` and `31*sr/10`. The float products can round one sample differently.
- AudioEmotion.Mean: the mean of a frame with no channels is taken as 0 (numpy gives NaN with a warning).
- AudioEmotion.PadOrTruncate: rows are fitted one by one. This matches numpy only because an MFCC matrix is rectangular.
- Text.Lower: only the ASCII letters A-Z are lower-cased, one character for one. Python's `lower()` also maps other cased characters (`É` to `é`) and lengthens `İ` (U+0130) to two characters. `Classify` is unaffected: the only non-ASCII characters that lower into ASCII letters are the Kelvin sign (to `k`, which no searched name contains) and `İ` (to `i` followed by a combining dot, which cannot complete `heart_minutes`).
- Text.Capitalize: only ASCII letters change case. Python's Unicode case mapping, including title-case and multi-character results, is not modelled.
- Temporary-file save and delete in `finally` blocks, the shared scratch file name and its concurrency race, and logging are I/O.
- The OAuth flow, `token.json` reads and writes, the fitness API calls and the wall-clock dataset id are reduced to the `Fetch` outcome. Missing keys inside a fetched dataset count as the raised case, which yields the mock record.
- Router.Chat: a `message` that is JSON but not a string (a number, a list) is not modelled. Only absent, empty and string messages are.
- Flask/CORS setup, JSON serialisation and server start-up are left out.
- The video index-error text is the one numpy gives for a one-dimensional row. The argmax and list-index error texts are Python's and numpy's standard messages.
