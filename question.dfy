/** The daily question: the difficulty enumeration and the extraction of the question's
    fields from the fetched `question` object (`parse_daily_question`). */
module Question {
  import opened Wrappers

  /** The closed difficulty enumeration; each member's value is its own name. */
  datatype Difficulty = Easy | Medium | Hard {

    /** The string value of the member. */
    function Name(): string
    {
      match this
      case Easy => "Easy"
      case Medium => "Medium"
      case Hard => "Hard"
    }
  }

  /** `Difficulty(s)`: the member whose value is `s`, or None where the enumeration
      raises ValueError. */
  function ParseDifficulty(s: string): (r: Option<Difficulty>)
    ensures r.Some? <==> s == "Easy" || s == "Medium" || s == "Hard"
    ensures r.Some? ==> r.value.Name() == s
  {
    if s == Easy.Name() then Some(Easy)
    else if s == Medium.Name() then Some(Medium)
    else if s == Hard.Name() then Some(Hard)
    else None
  }

  /** Parsing inverts `Name`: a string parses to a member exactly when it is that member's value. */
  lemma ParseDifficultyInvertsName(s: string, d: Difficulty)
    ensures ParseDifficulty(s) == Some(d) <==> s == d.Name()
  {
  }

  /** One element of `topicTags` as received; `name` is None when the key is missing. */
  datatype RawTag = RawTag(name: Option<string>)

  /** The `question` object as received. A field is None when its key is missing or its
      value cannot be converted (for `acRate`: when `float` raises). */
  datatype RawQuestion = RawQuestion(
    title: Option<string>,
    titleSlug: Option<string>,
    difficulty: Option<string>,
    acRate: Option<real>,
    topicTags: Option<seq<RawTag>>)

  /** The fields `parse_daily_question` returns. */
  datatype DailyQuestion = DailyQuestion(
    title: string,
    titleSlug: string,
    difficulty: Difficulty,
    acRate: real,
    topics: seq<string>)

  /** Why extraction failed: the first step of `parse_daily_question` that raises. */
  datatype ParseError =
    | MissingQuestion
    | MissingTitle
    | MissingTitleSlug
    | MissingDifficulty
    | UnknownDifficulty(text: string)
    | MissingAcRate
    | MissingTopicTags
    | MissingTopicName

  /** `[topic["name"] for topic in topicTags]`: the names in order, or None when some
      tag has no name. */
  function TopicNames(tags: seq<RawTag>): (r: Option<seq<string>>)
    ensures r.Some? <==> forall i :: 0 <= i < |tags| ==> tags[i].name.Some?
    ensures r.Some? ==> |r.value| == |tags|
    ensures r.Some? ==> forall i :: 0 <= i < |tags| ==> r.value[i] == tags[i].name.value
  {
    if tags == [] then Some([])
    else
      match (tags[0].name, TopicNames(tags[1..]))
      case (Some(n), Some(rest)) => Some([n] + rest)
      case _ => None
  }

  /** The question object holds every field `parse_daily_question` reads, with a known
      difficulty and a name on every tag. */
  predicate WellFormed(q: Option<RawQuestion>)
  {
    && q.Some?
    && q.value.title.Some?
    && q.value.titleSlug.Some?
    && q.value.difficulty.Some?
    && q.value.difficulty.value in {"Easy", "Medium", "Hard"}
    && q.value.acRate.Some?
    && q.value.topicTags.Some?
    && forall i :: 0 <= i < |q.value.topicTags.value| ==> q.value.topicTags.value[i].name.Some?
  }

  /** `parse_daily_question`: the fields are read in the source's order, and the first one
      that is missing or malformed decides the error. */
  function ParseDailyQuestion(q: Option<RawQuestion>): (r: Result<DailyQuestion, ParseError>)
    ensures r.Success? <==> WellFormed(q)
    ensures r.Success? ==>
      && r.value.title == q.value.title.value
      && r.value.titleSlug == q.value.titleSlug.value
      && r.value.difficulty.Name() == q.value.difficulty.value
      && r.value.acRate == q.value.acRate.value
      && |r.value.topics| == |q.value.topicTags.value|
      && forall i :: 0 <= i < |r.value.topics| ==>
           r.value.topics[i] == q.value.topicTags.value[i].name.value
    ensures r == Failure(MissingQuestion) <==> q.None?
    ensures forall s :: r == Failure(UnknownDifficulty(s)) ==>
      q.Some? && q.value.difficulty == Some(s) && s !in {"Easy", "Medium", "Hard"}
  {
    match q
    case None => Failure(MissingQuestion)
    case Some(raw) =>
      if raw.title.None? then Failure(MissingTitle)
      else if raw.titleSlug.None? then Failure(MissingTitleSlug)
      else if raw.difficulty.None? then Failure(MissingDifficulty)
      else
        match ParseDifficulty(raw.difficulty.value)
        case None => Failure(UnknownDifficulty(raw.difficulty.value))
        case Some(difficulty) =>
          if raw.acRate.None? then Failure(MissingAcRate)
          else if raw.topicTags.None? then Failure(MissingTopicTags)
          else
            match TopicNames(raw.topicTags.value)
            case None => Failure(MissingTopicName)
            case Some(topics) =>
              Success(DailyQuestion(raw.title.value, raw.titleSlug.value, difficulty,
                                    raw.acRate.value, topics))
  }

  /** A difficulty outside the enumeration fails the parse, whatever the other fields hold,
      once the fields read before it are present. */
  lemma UnknownDifficultyFails(raw: RawQuestion)
    requires raw.title.Some? && raw.titleSlug.Some? && raw.difficulty.Some?
    requires raw.difficulty.value !in {"Easy", "Medium", "Hard"}
    ensures ParseDailyQuestion(Some(raw)) == Failure(UnknownDifficulty(raw.difficulty.value))
  {
  }
}
