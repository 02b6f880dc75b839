# check_daily: a Dafny model of the daily-question check

`check_daily.py` asks the LeetCode GraphQL API for the active daily coding challenge and a
user's 15 most recent accepted submissions. It then decides whether the user has solved
today's question, and exits with status 0 if so and 1 otherwise. This project models that
decision procedure over already-fetched, already-converted data:

- `Calendar`: UTC calendar days as day numbers (`UtcDay(t) = t / 86400`, floor division) and
  the freshness check `is_daily_question_for_today`.
- `Question`: the closed `Difficulty` enumeration, its string parse, and `parse_daily_question`.
  The raw `question` object has optional fields, and the first missing or malformed field
  decides the error.
- `Submissions`: `is_daily_question_solved` as a method with a `for` loop (with `break` and
  `continue`). It is proved equal to the specification "some entry of the longest prefix
  dated today has the target slug", and lemmas give the scan's other properties.
- `CheckDaily`: the message tier of an unsolved question, the outcome of a run with its exit
  status, `Run` (the specification of `main`) and `Execute` (`main` written as statements with
  early exits, calling the imperative scan).

Inputs that the source gets from the outside world become parameters:

- the command-line username is an `Option<string>`;
- the query result is an `Option<Payload>`, None when the query raised;
- the clock reading `datetime.now(tz=timezone.utc)` is an integer count of POSIX seconds.

Two behaviours of the code are easy to miss:

- An empty username counts as missing (`not username`), so it is a usage error.
- A missing or unreadable question date makes `is_daily_question_for_today` raise, and `main`
  does not catch that. The process then ends with an uncaught exception (status 1). The model
  calls this outcome `DateUnreadable`; it is distinct from a parse failure.

## Model

| member | source | states |
|---|---|---|
| `Calendar.UtcDay` | check_daily.py:70-71 | the UTC day of a timestamp is the day whose 86400-second span contains it |
| `Calendar.UtcDayUnique` | check_daily.py:71 | a timestamp lies in exactly one UTC day |
| `Calendar.IsDailyQuestionForToday` | check_daily.py:59-63 | the question is fresh exactly when the current instant falls within the question's date |
| `Question.ParseDifficulty` | check_daily.py:22-25 | parsing succeeds exactly for "Easy", "Medium" and "Hard", and the member's value is the parsed string |
| `Question.ParseDifficultyInvertsName` | check_daily.py:22-25 | a string parses to a member exactly when it is that member's value |
| `Question.TopicNames` | check_daily.py:87 | the topics exist exactly when every tag has a name; then they have the tags' length and order, each the tag's name |
| `Question.ParseDailyQuestion` | check_daily.py:81-88 | succeeds exactly on a well-formed question object and returns its fields unchanged; a missing question and an unknown difficulty give their own errors |
| `Question.UnknownDifficultyFails` | check_daily.py:85 | an unknown difficulty fails the parse whatever the later fields hold |
| `Submissions.SameDayPrefixLength` | check_daily.py:69-72 | the length of the longest prefix of submissions all dated today; the next entry, if any, is not dated today |
| `Submissions.IsDailyQuestionSolved` | check_daily.py:66-78 | the loop's flag equals "some entry in the longest today-dated prefix has the target slug" |
| `Submissions.SolvedTodayIff` | check_daily.py:69-75 | solved exactly when some entry has the slug and it and every entry before it are dated today |
| `Submissions.EmptyIsUnsolved` | check_daily.py:68-78 | an empty list is not solved |
| `Submissions.OldNewestIsUnsolved` | check_daily.py:69-72 | if the newest entry is not from today the result is false, even with a later match |
| `Submissions.SolvedTodayMonotone` | check_daily.py:73-75 | once solved, appending entries never resets the flag |
| `Submissions.BoundaryHidesOlder` | check_daily.py:71-72 | entries after the first one not dated today do not affect the result |
| `Submissions.SameDayPrefixOfConcat` | check_daily.py:71-72 | a day boundary inside a list fixes the prefix length of any extension of it |
| `Submissions.MatchBeyondLimitMissed` | check_daily.py:77 | a match just past a fully today-dated 15-entry window is solved in the full history but not in the window (the documented false negative) |
| `CheckDaily.UnsolvedTier` | check_daily.py:118-123 | cake exactly for Easy or a rate above 60; brace exactly for Hard up to 60 or Medium below 40; think exactly for Medium between 40 and 60 |
| `CheckDaily.TierPrecedence` | check_daily.py:118-123 | Hard at 70 and Easy at 10 are cake; Medium at 30 braces; Medium at 50 thinks |
| `CheckDaily.Outcome.ExitStatus` | check_daily.py:91-128 | 0 on the solved path, 1 on every other outcome (usage, fetch failure, unreadable date, expired, parse failure, unsolved) |
| `CheckDaily.Run` | check_daily.py:91-128 | exit status 0 exactly on the solved outcome; solved and unsolved outcomes carry the parsed question; the unsolved tier follows the tier rule |
| `CheckDaily.Execute` | check_daily.py:91-128 | the sequenced checks with early exits, using the imperative scan, produce exactly the outcome `Run` specifies |
| `CheckDaily.ExitZeroIffSolved` | check_daily.py:112-115 | status 0 exactly when a username is given, the fetch succeeds, the question is dated today and well formed, and a today-dated match precedes every older entry |
| `CheckDaily.StaleAbortsBeforeParsing` | check_daily.py:102-104 | a stale question ends the run as expired whatever the question object and submissions hold |
| `CheckDaily.UnknownDifficultyExitsNonZero` | check_daily.py:106-109 | an unknown difficulty on a fresh question ends in a parse failure with a non-zero exit |

## Left out

- `query_graphql` (the GraphQL request through `gql`/`aiohttp`, with its URL and the limit of
  15): this is network I/O. Its result is the `fetched` parameter. The limit appears only as
  `SubmissionLimit` in `MatchBeyondLimitMissed`.
- Reading `sys.argv`, the printed lines (status sentence, greeting with the username, link,
  comma-joined topics, error texts) and the mechanics of `sys.exit`: these are I/O. Only the
  outcome, its tier and its exit status are kept.
- `datetime.now` and the internals of `datetime.fromisoformat` and `datetime.fromtimestamp`:
  library calls. Dates are day numbers, the clock is whole POSIX seconds, and a date that
  `fromisoformat` rejects is `None`. Timestamps beyond the range `datetime` accepts (which
  raise) are not modelled.
- Conversion of a submission's `timestamp` with `int(...)`: timestamps are already integers.
  A malformed timestamp, which would raise during the scan, is not modelled.
- A missing or null `recentAcSubmissionList`, and a submission without a `timestamp` key (or,
  when dated today, without a `titleSlug` key): the source raises an uncaught exception during
  the scan, after a successful parse, and exits with status 1. The submission list of the model
  is always present and its entries always carry both keys.
- Values of the wrong kind that the source accepts without raising: a null or non-string
  `title`, `titleSlug` or tag `name` is parsed by the source as is (for example
  `topicTags: [{"name": null}]` can still lead to exit status 0). The raw question of the model
  holds strings, and `None` stands only for a missing key, so these payloads cannot be stated.
  A non-string `difficulty` makes the enumeration raise, as a missing one does, and is
  covered by `MissingDifficulty`.
- `float(acRate)` and the `{acRate:.2f}` formatting of the description string: floating-point
  text conversion. The rate is a mathematical real, so NaN (for which every comparison is
  false) is not modelled.
- Fetching more history when the window is entirely from today (the FIXME at
  check_daily.py:77): the source does not do it either. The model keeps the current behaviour,
  and `MatchBeyondLimitMissed` exhibits the false negative that results.
