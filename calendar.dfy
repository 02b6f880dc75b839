/** UTC calendar days and the freshness check of the daily question. */
module Calendar {

  /** Seconds in one UTC day (POSIX time counts no leap seconds). */
  const SecondsPerDay: int := 86400

  /** A calendar date, as the number of days since 1970-01-01 (negative before it). */
  type Day = int

  /** The UTC calendar day on which the POSIX timestamp `timestamp` (in seconds) falls:
      the day that `datetime.fromtimestamp(timestamp, tz=timezone.utc).date()` names. */
  function UtcDay(timestamp: int): (d: Day)
    ensures d * SecondsPerDay <= timestamp < (d + 1) * SecondsPerDay
  {
    timestamp / SecondsPerDay
  }

  /** A day is the UTC day of an instant exactly when the instant lies within that day:
      the day of a timestamp is unique. */
  lemma UtcDayUnique(timestamp: int, d: Day)
    ensures UtcDay(timestamp) == d <==> d * SecondsPerDay <= timestamp < (d + 1) * SecondsPerDay
  {
  }

  /** `is_daily_question_for_today`: the daily question's calendar date is the UTC date of
      the instant `now`, that is, `now` lies within that date. */
  function IsDailyQuestionForToday(questionDate: Day, now: int): (r: bool)
    ensures r <==> questionDate * SecondsPerDay <= now < (questionDate + 1) * SecondsPerDay
  {
    UtcDayUnique(now, questionDate);
    questionDate == UtcDay(now)
  }
}
