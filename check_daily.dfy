/** The decision procedure of `main`: the chain of checks (usage, fetch, freshness, parse,
    solved), the message tier of an unsolved question and the exit status of each outcome. */
module CheckDaily {
  import opened Wrappers
  import opened Calendar
  import opened Question
  import opened Submissions

  /** The fetched data: the recent accepted submissions (newest first) and the active daily
      challenge. `questionDate` is None when `activeDailyCodingChallengeQuestion` or its
      `date` is missing or not a date; `question` is None when the `question` object is. */
  datatype Payload = Payload(
    submissions: seq<Submission>,
    questionDate: Option<Day>,
    question: Option<RawQuestion>)

  /** The motivational line printed for an unsolved question. */
  datatype Tier =
    | PieceOfCake     // "Should be a piece of cake!"
    | BraceYourself   // "Brace yourself, <username>!"
    | TimeToThink     // "Time to think about it!"

  /** The first-match-wins rule: Easy or a rate above 60 is cake; otherwise Hard or a rate
      below 40 calls for bracing; otherwise it is time to think. */
  function UnsolvedTier(difficulty: Difficulty, acRate: real): (t: Tier)
    ensures t == PieceOfCake <==> difficulty == Easy || acRate > 60.0
    ensures t == BraceYourself <==>
      (difficulty == Hard && acRate <= 60.0) || (difficulty == Medium && acRate < 40.0)
    ensures t == TimeToThink <==> difficulty == Medium && 40.0 <= acRate <= 60.0
  {
    assert difficulty.Easy? || difficulty.Medium? || difficulty.Hard?;
    if difficulty == Easy || acRate > 60.0 then PieceOfCake
    else if difficulty == Hard || acRate < 40.0 then BraceYourself
    else TimeToThink
  }

  /** The rate rule of the first branch outranks the difficulty of the second: a Hard
      question with a rate of 70 is cake, and an Easy one with a rate of 10 is too. */
  lemma TierPrecedence()
    ensures UnsolvedTier(Hard, 70.0) == PieceOfCake
    ensures UnsolvedTier(Easy, 10.0) == PieceOfCake
    ensures UnsolvedTier(Medium, 30.0) == BraceYourself
    ensures UnsolvedTier(Medium, 50.0) == TimeToThink
  {
  }

  /** How a run ends. */
  datatype Outcome =
    | UsageError                      // no (or an empty) username argument
    | FetchFailed                     // the query raised
    | DateUnreadable                  // the freshness check raised; main does not catch it
    | Expired                         // the daily question is not for today
    | ParseFailed(error: ParseError)  // parse_daily_question raised
    | Solved(question: DailyQuestion)
    | NotSolved(question: DailyQuestion, tier: Tier)
  {
    /** The process exit status: `sys.exit` with a message exits with 1, as does an uncaught
        exception; the solved path calls `sys.exit(0)` and the unsolved one `sys.exit(1)`. */
    function ExitStatus(): (status: int)
      ensures status == 0 <==> Solved?
      ensures status == 0 || status == 1
    {
      match this
      case UsageError => 1
      case FetchFailed => 1
      case DateUnreadable => 1
      case Expired => 1
      case ParseFailed(_) => 1
      case Solved(_) => 0
      case NotSolved(_, _) => 1
    }
  }

  /** Specification of one run of `main`. `username` is the first command-line argument if
      any, `fetched` the result of the query (None when it raised) and `now` the clock's UTC
      time in seconds, read after the fetch. */
  function Run(username: Option<string>, fetched: Option<Payload>, now: int): (o: Outcome)
    ensures o.ExitStatus() == 0 <==> o.Solved?
    ensures o.Solved? || o.NotSolved? ==>
      fetched.Some? && ParseDailyQuestion(fetched.value.question) == Success(o.question)
    ensures o.NotSolved? ==> o.tier == UnsolvedTier(o.question.difficulty, o.question.acRate)
  {
    if username.None? || username.value == "" then UsageError
    else if fetched.None? then FetchFailed
    else
      var data := fetched.value;
      if data.questionDate.None? then DateUnreadable
      else if !IsDailyQuestionForToday(data.questionDate.value, now) then Expired
      else
        match ParseDailyQuestion(data.question)
        case Failure(e) => ParseFailed(e)
        case Success(q) =>
          if SolvedToday(data.submissions, UtcDay(now), q.titleSlug) then Solved(q)
          else NotSolved(q, UnsolvedTier(q.difficulty, q.acRate))
  }

  /** `main` as straight-line code with early exits, using the imperative scan. */
  method Execute(username: Option<string>, fetched: Option<Payload>, now: int)
    returns (o: Outcome)
    ensures o == Run(username, fetched, now)
  {
    if username.None? || username.value == "" {
      return UsageError;
    }
    if fetched.None? {
      return FetchFailed;
    }
    var data := fetched.value;
    if data.questionDate.None? {
      return DateUnreadable;
    }
    if !IsDailyQuestionForToday(data.questionDate.value, now) {
      return Expired;
    }
    var parsed := ParseDailyQuestion(data.question);
    if parsed.Failure? {
      return ParseFailed(parsed.error);
    }
    var q := parsed.value;
    var solved := IsDailyQuestionSolved(data.submissions, now, q.titleSlug);
    if solved {
      return Solved(q);
    }
    o := NotSolved(q, UnsolvedTier(q.difficulty, q.acRate));
  }

  /** The run exits with status 0 exactly when a username is given, the fetch succeeds, the
      daily question is dated today and well formed, and some submission for it was accepted
      today before the first older one. */
  lemma ExitZeroIffSolved(username: Option<string>, fetched: Option<Payload>, now: int)
    ensures Run(username, fetched, now).ExitStatus() == 0 <==>
      && username.Some? && username.value != ""
      && fetched.Some?
      && fetched.value.questionDate == Some(UtcDay(now))
      && WellFormed(fetched.value.question)
      && (exists i :: 0 <= i < |fetched.value.submissions| &&
            fetched.value.submissions[i].titleSlug == fetched.value.question.value.titleSlug.value &&
            forall j :: 0 <= j <= i ==> UtcDay(fetched.value.submissions[j].timestamp) == UtcDay(now))
  {
  }

  /** A stale daily question aborts the run before any parsing or scanning: the outcome is
      Expired whatever the question object and the submissions hold. */
  lemma StaleAbortsBeforeParsing(username: string, p: Payload, now: int, d: Day)
    requires username != ""
    requires p.questionDate == Some(d) && d != UtcDay(now)
    ensures forall subs, q ::
      Run(Some(username), Some(Payload(subs, p.questionDate, q)), now) == Expired
  {
  }

  /** A difficulty outside the enumeration ends the run with a parse failure and a non-zero
      exit status, once the run gets that far. */
  lemma UnknownDifficultyExitsNonZero(username: string, p: Payload, now: int)
    requires username != ""
    requires p.questionDate == Some(UtcDay(now))
    requires p.question.Some?
    requires p.question.value.title.Some? && p.question.value.titleSlug.Some?
    requires p.question.value.difficulty.Some?
    requires p.question.value.difficulty.value !in {"Easy", "Medium", "Hard"}
    ensures Run(Some(username), Some(p), now) ==
      ParseFailed(UnknownDifficulty(p.question.value.difficulty.value))
    ensures Run(Some(username), Some(p), now).ExitStatus() != 0
  {
  }
}
