/** The solved-state scan over the recent accepted submissions (`is_daily_question_solved`). */
module Submissions {
  import opened Calendar

  /** One accepted submission: the problem's slug and the POSIX time it was accepted. */
  datatype Submission = Submission(titleSlug: string, timestamp: int)

  /** The number of leading submissions that were accepted on UTC day `today`: the length
      of the longest prefix of `subs` dated today. */
  function SameDayPrefixLength(subs: seq<Submission>, today: Day): (n: nat)
    ensures n <= |subs|
    ensures forall j :: 0 <= j < n ==> UtcDay(subs[j].timestamp) == today
    ensures n < |subs| ==> UtcDay(subs[n].timestamp) != today
  {
    if subs == [] || UtcDay(subs[0].timestamp) != today then 0
    else 1 + SameDayPrefixLength(subs[1..], today)
  }

  /** Some submission in the longest prefix dated `today` is for the problem `titleSlug`. */
  predicate SolvedToday(subs: seq<Submission>, today: Day, titleSlug: string)
  {
    exists j :: 0 <= j < SameDayPrefixLength(subs, today) && subs[j].titleSlug == titleSlug
  }

  /** `is_daily_question_solved`: scans the submissions (newest first), stops at the first one
      not accepted on the UTC day of `now`, skips those for another problem and sets the flag
      on a match without stopping. */
  method IsDailyQuestionSolved(subs: seq<Submission>, now: int, titleSlug: string)
    returns (solved: bool)
    ensures solved == SolvedToday(subs, UtcDay(now), titleSlug)
  {
    var today := UtcDay(now);
    solved := false;
    for i := 0 to |subs|
      invariant i <= SameDayPrefixLength(subs, today)
      invariant solved <==> exists j :: 0 <= j < i && subs[j].titleSlug == titleSlug
    {
      var submission := subs[i];
      if UtcDay(submission.timestamp) != today {
        break;
      }
      if submission.titleSlug != titleSlug {
        continue;
      }
      solved := true;
    }
  }

  /** Independent statement of the scan's result: solved exactly when some submission for the
      problem was accepted today and so was every submission before it in the list. */
  lemma SolvedTodayIff(subs: seq<Submission>, today: Day, titleSlug: string)
    ensures SolvedToday(subs, today, titleSlug) <==>
      exists i :: 0 <= i < |subs| && subs[i].titleSlug == titleSlug &&
        forall j :: 0 <= j <= i ==> UtcDay(subs[j].timestamp) == today
  {
  }

  /** An empty submission list is never solved. */
  lemma EmptyIsUnsolved(today: Day, titleSlug: string)
    ensures !SolvedToday([], today, titleSlug)
  {
  }

  /** If the newest submission is not from today the scan stops at once: not solved, even
      when an older submission is for the problem. */
  lemma OldNewestIsUnsolved(subs: seq<Submission>, today: Day, titleSlug: string)
    requires |subs| > 0 && UtcDay(subs[0].timestamp) != today
    ensures !SolvedToday(subs, today, titleSlug)
  {
  }

  /** The flag only ever goes from false to true: appending submissions (of any day, for any
      problem) never turns a solved list into an unsolved one. */
  lemma SolvedTodayMonotone(subs: seq<Submission>, more: seq<Submission>, today: Day,
                            titleSlug: string)
    requires SolvedToday(subs, today, titleSlug)
    ensures SolvedToday(subs + more, today, titleSlug)
  {
    SolvedTodayIff(subs, today, titleSlug);
    var i :| 0 <= i < |subs| && subs[i].titleSlug == titleSlug &&
             forall j :: 0 <= j <= i ==> UtcDay(subs[j].timestamp) == today;
    assert forall j :: 0 <= j <= i ==> (subs + more)[j] == subs[j];
    SolvedTodayIff(subs + more, today, titleSlug);
  }

  /** Submissions after the first one not dated today are never looked at. */
  lemma BoundaryHidesOlder(subs: seq<Submission>, older: seq<Submission>, today: Day,
                           titleSlug: string)
    requires SameDayPrefixLength(subs, today) < |subs|
    ensures SolvedToday(subs + older, today, titleSlug) == SolvedToday(subs, today, titleSlug)
  {
    var n := SameDayPrefixLength(subs, today);
    assert forall j :: 0 <= j <= n ==> (subs + older)[j] == subs[j];
    SameDayPrefixOfConcat(subs, older, today);
  }

  /** Helper: a day boundary inside `subs` fixes the prefix length of `subs + older`. */
  lemma {:induction false} SameDayPrefixOfConcat(subs: seq<Submission>, older: seq<Submission>,
                                                 today: Day)
    requires SameDayPrefixLength(subs, today) < |subs|
    ensures SameDayPrefixLength(subs + older, today) == SameDayPrefixLength(subs, today)
  {
    if UtcDay(subs[0].timestamp) != today {
    } else {
      assert (subs + older)[1..] == subs[1..] + older;
      SameDayPrefixOfConcat(subs[1..], older, today);
    }
  }

  /** The source fetches at most this many recent accepted submissions. */
  const SubmissionLimit: nat := 15

  /** Known gap of the scan: if the fetched window is entirely from today and holds no match,
      a match just beyond the window is missed, so a solved problem reads as unsolved. */
  lemma MatchBeyondLimitMissed(history: seq<Submission>, today: Day, titleSlug: string)
    requires |history| > SubmissionLimit
    requires forall j :: 0 <= j <= SubmissionLimit ==> UtcDay(history[j].timestamp) == today
    requires forall j :: 0 <= j < SubmissionLimit ==> history[j].titleSlug != titleSlug
    requires history[SubmissionLimit].titleSlug == titleSlug
    ensures SolvedToday(history, today, titleSlug)
    ensures !SolvedToday(history[..SubmissionLimit], today, titleSlug)
  {
  }
}
