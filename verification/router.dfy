/** The Flask handlers of `app.py` as pure functions from a request and the
    outcomes of the collaborators to a status code and a JSON body. */
module Router {
  import opened Results
  import opened VideoSummary
  import opened AudioEmotion
  import opened MoodChat
  import opened Text
  import opened WellnessMetrics

  const NoUploadMessage: string := "No video or audio file provided"
  const NoMessageMessage: string := "No message provided"
  const NoMetricsMessage: string := "Unable to fetch wellness metrics"

  /** The JSON values the handlers put in a body. */
  datatype Json = JStr(str: string) | JInt(number: int) | JInts(ints: map<string, int>) | JReals(reals: map<string, real>)

  datatype Response = Response(status: int, body: map<string, Json>)

  function ErrorResponse(status: int, message: string): Response {
    Response(status, map["error" := JStr(message)])
  }

  function VideoJson(s: Summary): (j: map<string, Json>)
    ensures j.Keys == {"dominant_emotion", "occurrence_count", "emotion_distribution", "total_frames_processed"}
  {
    map["dominant_emotion" := JStr(s.dominantEmotion),
        "occurrence_count" := JInt(s.occurrenceCount),
        "emotion_distribution" := JInts(s.distribution),
        "total_frames_processed" := JInt(s.totalFramesProcessed)]
  }

  function AudioJson(a: AudioResult): (j: map<string, Json>)
    ensures j.Keys == {"dominant_emotion", "confidence_scores"}
  {
    map["dominant_emotion" := JStr(a.dominantEmotion), "confidence_scores" := JReals(a.confidenceScores)]
  }

  /** A pipeline result with the responder's reply for its dominant emotion
      added under `response`; any exception on the way becomes a 500. */
  function Respond(result: Result<map<string, Json>>, dominant: string,
                   generate: string -> Result<string>): (r: Response)
    ensures result.Err? ==> r == ErrorResponse(500, result.message)
    ensures result.Ok? && ProcessMessage(dominant, generate).Err? ==>
              r == ErrorResponse(500, ProcessMessage(dominant, generate).message)
    ensures result.Ok? && ProcessMessage(dominant, generate).Ok? ==>
              r.status == 200 && r.body.Keys == result.value.Keys + {"response"}
              && r.body["response"] == JStr(ProcessMessage(dominant, generate).value)
              && forall key :: key in result.value && key != "response" ==> r.body[key] == result.value[key]
  {
    match result
    case Err(e) => ErrorResponse(500, e)
    case Ok(fields) =>
      match ProcessMessage(dominant, generate)
      case Err(e) => ErrorResponse(500, e)
      case Ok(reply) => Response(200, fields["response" := JStr(reply)])
  }

  /** `POST /api/detect-emotion`: the video field is looked at first, then
      the audio field. */
  function DetectEmotion<V, A>(video: Option<V>, audio: Option<A>,
                               processVideo: V -> Result<Summary>,
                               processAudio: A -> Result<AudioResult>,
                               generate: string -> Result<string>): (r: Response)
    ensures video.None? && audio.None? ==> r == ErrorResponse(400, NoUploadMessage)
    ensures r.status in {200, 400, 500}
    ensures r.status == 400 <==> video.None? && audio.None?
    ensures r.status != 200 ==> r.body.Keys == {"error"}
  {
    if video.Some? then
      match processVideo(video.value)
      case Err(e) => ErrorResponse(500, e)
      case Ok(s) => Respond(Ok(VideoJson(s)), s.dominantEmotion, generate)
    else if audio.Some? then
      match processAudio(audio.value)
      case Err(e) => ErrorResponse(500, e)
      case Ok(res) => Respond(Ok(AudioJson(res)), res.dominantEmotion, generate)
    else ErrorResponse(400, NoUploadMessage)
  }

  /** When both files are uploaded only the video pipeline matters: the
      audio upload and the audio pipeline cannot change the response. */
  lemma VideoTakesPrecedence<V, A>(v: V, audio: Option<A>, audio': Option<A>,
                                   processVideo: V -> Result<Summary>,
                                   processAudio: A -> Result<AudioResult>,
                                   processAudio': A -> Result<AudioResult>,
                                   generate: string -> Result<string>)
    ensures DetectEmotion(Some(v), audio, processVideo, processAudio, generate)
         == DetectEmotion(Some(v), audio', processVideo, processAudio', generate)
  {
  }

  /** A successful video upload answers 200 with the summary's four fields
      unchanged plus the reply for the dominant emotion. */
  lemma VideoSuccess<V, A>(v: V, audio: Option<A>, processVideo: V -> Result<Summary>,
                           processAudio: A -> Result<AudioResult>, generate: string -> Result<string>)
    requires processVideo(v).Ok?
    requires ProcessMessage(processVideo(v).value.dominantEmotion, generate).Ok?
    ensures var r := DetectEmotion(Some(v), audio, processVideo, processAudio, generate);
            r.status == 200
            && r.body == VideoJson(processVideo(v).value)["response" := JStr(
                 ProcessMessage(processVideo(v).value.dominantEmotion, generate).value)]
            && r.body.Keys == {"dominant_emotion", "occurrence_count", "emotion_distribution",
                               "total_frames_processed", "response"}
  {
  }

  /** Without a video field, a successful audio upload answers 200 with the
      label and the score dictionary unchanged plus the reply for the label. */
  lemma AudioSuccess<V, A>(a: A, processVideo: V -> Result<Summary>,
                           processAudio: A -> Result<AudioResult>, generate: string -> Result<string>)
    requires processAudio(a).Ok?
    requires ProcessMessage(processAudio(a).value.dominantEmotion, generate).Ok?
    ensures var r := DetectEmotion(None, Some(a), processVideo, processAudio, generate);
            r.status == 200
            && r.body == AudioJson(processAudio(a).value)["response" := JStr(
                 ProcessMessage(processAudio(a).value.dominantEmotion, generate).value)]
            && r.body.Keys == {"dominant_emotion", "confidence_scores", "response"}
  {
  }

  /** A failing pipeline, or a responder failing on the pipeline's dominant
      emotion, answers 500 with the failure's message. */
  lemma PipelineFailure<V, A>(video: Option<V>, audio: Option<A>, processVideo: V -> Result<Summary>,
                              processAudio: A -> Result<AudioResult>, generate: string -> Result<string>)
    ensures video.Some? && processVideo(video.value).Err? ==>
              DetectEmotion(video, audio, processVideo, processAudio, generate)
              == ErrorResponse(500, processVideo(video.value).message)
    ensures video.None? && audio.Some? && processAudio(audio.value).Err? ==>
              DetectEmotion(video, audio, processVideo, processAudio, generate)
              == ErrorResponse(500, processAudio(audio.value).message)
    ensures video.Some? && processVideo(video.value).Ok?
            && ProcessMessage(processVideo(video.value).value.dominantEmotion, generate).Err? ==>
              DetectEmotion(video, audio, processVideo, processAudio, generate)
              == ErrorResponse(500, ProcessMessage(processVideo(video.value).value.dominantEmotion, generate).message)
    ensures video.None? && audio.Some? && processAudio(audio.value).Ok?
            && ProcessMessage(processAudio(audio.value).value.dominantEmotion, generate).Err? ==>
              DetectEmotion(video, audio, processVideo, processAudio, generate)
              == ErrorResponse(500, ProcessMessage(processAudio(audio.value).value.dominantEmotion, generate).message)
  {
  }

  /** The body of a chat request: unreadable (reading it raised, with the
      given message), or a JSON object with an optional `message`. */
  datatype ChatRequest = Unreadable(error: string) | ChatBody(message: Option<string>)

  /** `POST /api/chat`. */
  function Chat(req: ChatRequest, generate: string -> Result<string>): (r: Response)
    ensures req.Unreadable? ==> r == ErrorResponse(500, req.error)
    ensures req.ChatBody? && (req.message.None? || req.message.value == "") ==>
              r == ErrorResponse(400, NoMessageMessage)
    ensures req.ChatBody? && req.message.Some? && req.message.value != "" ==>
              match ProcessMessage(req.message.value, generate)
              case Ok(reply) => r == Response(200, map["response" := JStr(reply)])
              case Err(e) => r == ErrorResponse(500, e)
  {
    match req
    case Unreadable(e) => ErrorResponse(500, e)
    case ChatBody(message) =>
      if message.None? || message.value == "" then ErrorResponse(400, NoMessageMessage)
      else
        match ProcessMessage(message.value, generate)
        case Ok(reply) => Response(200, map["response" := JStr(reply)])
        case Err(e) => ErrorResponse(500, e)
  }

  /** At the endpoint, a mood typed in any letter case gets a 200 with the
      same canned reply, whatever the generator. */
  lemma ChatMoodInAnyCase(s: string, t: string, g: string -> Result<string>, h: string -> Result<string>)
    requires s != "" && t != ""
    requires SameIgnoringCase(s, t)
    requires Capitalize(s) in Moods
    ensures Chat(ChatBody(Some(s)), g) == Chat(ChatBody(Some(t)), h)
    ensures Chat(ChatBody(Some(s)), g).status == 200
  {
    CaseInsensitiveRouting(s, t, g, h);
  }

  /** `GET /api/wellness-metrics`. */
  function GetWellnessMetrics(f: Fetch): (r: Response)
    ensures r.status == 200 ==> r.body == map key | key in FetchWellnessMetrics(f) :: JInt(FetchWellnessMetrics(f)[key])
    ensures r.status != 200 ==> r == ErrorResponse(500, NoMetricsMessage)
  {
    var metrics := FetchWellnessMetrics(f);
    if |metrics| > 0 then Response(200, map key | key in metrics :: JInt(metrics[key]))
    else ErrorResponse(500, NoMetricsMessage)
  }

  /** The "unable to fetch" branch is dead: the adapter always returns its
      three keys, so the endpoint always answers 200, with the mock values
      when authentication fails. */
  lemma WellnessAlwaysSucceeds(f: Fetch)
    ensures GetWellnessMetrics(f).status == 200
    ensures GetWellnessMetrics(f).body.Keys == {HeartRateKey, StepsKey, HeartPointsKey}
    ensures f == NoCredentials ==>
              GetWellnessMetrics(f).body == map[HeartRateKey := JInt(75), StepsKey := JInt(5000),
                                                HeartPointsKey := JInt(35)]
  {
    var m := FetchWellnessMetrics(f);
    assert HeartRateKey in m;
  }
}
