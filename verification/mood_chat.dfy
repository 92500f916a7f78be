/** `gemini_chat`: the canned mood replies and the routing between them and
    the generative model.  The model's `generate_content(message).text` is
    the collaborator `generate`; it may raise. */
module MoodChat {
  import opened Results
  import opened Text

  /** The moods `process_message` recognises, in its own list order. */
  const Moods: seq<string> := ["Neutral", "Happy", "Sad", "Angry", "Fearful", "Disgusted", "Surprised", "Calm"]

  const DefaultReply: string := "I didn't recognize that mood. Can you describe how you're feeling?"

  /** The `recommendations` table of `get_mood_recommendation`, split in
      two: the position of a key among the table's entries, and the text
      stored at a position.  Positions follow the table's own order. */
  function TableEntry(mood: string): Option<nat> {
    if mood == "Neutral" then Some(0)
    else if mood == "Happy" then Some(1)
    else if mood == "Sad" then Some(2)
    else if mood == "Angry" then Some(3)
    else if mood == "Fearful" then Some(4)
    else if mood == "Disgusted" then Some(5)
    else if mood == "Surprised" then Some(6)
    else if mood == "Calm" then Some(7)
    else None
  }

  function ReplyText(k: nat): string {
    match k
    case 0 => "Let's do something fun! Would you like to play a quick game, hear an interesting fact, or get a fun challenge?"
    case 1 => "You're in a great mood! Let's keep the positivity going. Want to listen to an uplifting story, get a fun challenge, or share a happy memory?"
    case 2 => "I'm here for you. Would you like some calming music recommendations, a motivational story, or a virtual hug?"
    case 3 => "I understand frustration can be tough. Want to try a quick breathing exercise, hear a calming story, or vent your thoughts?"
    case 4 => "You're not alone! Let's ease your mind. Want a comforting quote, a guided relaxation, or an inspiring success story?"
    case 5 => "Let's distract your mind. Want to hear a joke, learn a new interesting fact, or play a quick word game?"
    case 6 => "Surprises can be fun! Want to share what happened, hear about a surprising event, or play a quick reaction game?"
    case _ => "A peaceful moment is precious. Would you like to try meditation, listen to soothing nature sounds, or explore a new mindfulness tip?"
  }

  /** `recommendations.get(mood, default)`. */
  function MoodRecommendation(mood: string): (r: string)
    ensures mood in Moods ==> TableEntry(mood).Some? && r == ReplyText(TableEntry(mood).value)
    ensures mood !in Moods ==> r == DefaultReply
  {
    MoodListIsTableKeys(mood);
    match TableEntry(mood)
    case Some(k) => ReplyText(k)
    case None => DefaultReply
  }

  /** A message whose capitalised form is a known mood gets that mood's
      canned reply; any other message goes, unchanged, to the generator. */
  function ProcessMessage(message: string, generate: string -> Result<string>): (r: Result<string>)
    ensures Capitalize(message) in Moods ==>
              TableEntry(Capitalize(message)).Some? && r == Ok(ReplyText(TableEntry(Capitalize(message)).value))
    ensures Capitalize(message) !in Moods ==> r == generate(message)
  {
    MoodListIsTableKeys(Capitalize(message));
    var mood := Capitalize(message);
    if mood in Moods then Ok(MoodRecommendation(mood)) else generate(message)
  }

  /** The recognised list and the table's keys are the same eight moods, in
      the same order. */
  lemma MoodListIsTableKeys(m: string)
    ensures TableEntry(m).Some? <==> m in Moods
    ensures TableEntry(m).Some? ==> TableEntry(m).value < |Moods| && Moods[TableEntry(m).value] == m
  {
  }

  /** A mood outside the recognised list gets the fixed default text. */
  lemma UnknownMoodGetsDefault(mood: string)
    requires mood !in Moods
    ensures MoodRecommendation(mood) == DefaultReply
  {
    MoodListIsTableKeys(mood);
  }

  /** No stored reply is the "didn't recognize" default. */
  lemma ReplyIsNotDefault(k: nat)
    ensures ReplyText(k) != DefaultReply
  {
  }

  /** Hence a message that is routed to the table never receives it. */
  lemma NeverDefaultForKnownMood(message: string, generate: string -> Result<string>)
    requires Capitalize(message) in Moods
    ensures ProcessMessage(message, generate).Ok?
    ensures ProcessMessage(message, generate).value != DefaultReply
  {
    ReplyIsNotDefault(TableEntry(Capitalize(message)).value);
  }

  /** Capitalisation sees through letter case: messages that differ only in
      case are capitalised alike, hence routed alike. */
  lemma CapitalizeIgnoresCase(s: string, t: string)
    requires SameIgnoringCase(s, t)
    ensures Capitalize(s) == Capitalize(t)
  {
    if |s| > 0 {
      assert LowerChar(s[0]) == LowerChar(t[0]);
      assert Lower(s[1..]) == Lower(s)[1..];
      assert Lower(t[1..]) == Lower(t)[1..];
    }
  }

  /** A message that names a mood in any letter case gets the canned reply
      its case variants get, whatever the generator would have said. */
  lemma CaseInsensitiveRouting(s: string, t: string, g: string -> Result<string>, h: string -> Result<string>)
    requires SameIgnoringCase(s, t)
    requires Capitalize(s) in Moods
    ensures ProcessMessage(s, g) == ProcessMessage(t, h)
  {
    CapitalizeIgnoresCase(s, t);
  }

  /** "hAPPY" receives the reply "Happy" receives, without consulting the
      generator. */
  lemma MixedCaseHappy(g: string -> Result<string>, h: string -> Result<string>)
    ensures ProcessMessage("hAPPY", g) == ProcessMessage("Happy", h)
  {
    assert Capitalize("hAPPY") == "Happy";
    assert Capitalize("Happy") == "Happy";
  }

  /** Matching is exact after capitalisation: a leading blank defeats it. */
  lemma LeadingBlankGoesToGenerator(generate: string -> Result<string>)
    ensures ProcessMessage(" happy", generate) == generate(" happy")
  {
    assert Capitalize(" happy")[0] == ' ';
  }

  /** A message that capitalises to something outside the mood list goes
      to the generator unchanged. */
  lemma {:induction false} NotAMood(message: string, mood: string, generate: string -> Result<string>)
    requires Capitalize(message) == mood && mood !in Moods
    ensures ProcessMessage(message, generate) == generate(message)
  {
  }

  /** Of the video classifier's labels, Disgust, Fear and Surprise have no
      canned reply and go to the generator; the table spells those moods
      Disgusted, Fearful and Surprised. */
  lemma VideoLabelsWithoutReply(generate: string -> Result<string>)
    ensures ProcessMessage("Disgust", generate) == generate("Disgust")
    ensures ProcessMessage("Fear", generate) == generate("Fear")
    ensures ProcessMessage("Surprise", generate) == generate("Surprise")
  {
    NotAMood("Disgust", "Disgust", generate);
    NotAMood("Fear", "Fear", generate);
    NotAMood("Surprise", "Surprise", generate);
  }

  /** Of the audio classifier's labels, fear, disgust and surprise go to the
      generator: capitalised they are the video spellings, which are not moods. */
  lemma AudioLabelsWithoutReply(generate: string -> Result<string>)
    ensures ProcessMessage("fear", generate) == generate("fear")
    ensures ProcessMessage("disgust", generate) == generate("disgust")
    ensures ProcessMessage("surprise", generate) == generate("surprise")
  {
    NotAMood("fear", "Fear", generate);
    NotAMood("disgust", "Disgust", generate);
    NotAMood("surprise", "Surprise", generate);
  }
}
