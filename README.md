# Water tracker bot — a Dafny model

A Discord bot lets its users log how many ounces of water they drank
relative to a daily target. The bot scores each logged amount, stores it in
a Supabase `records` table, and answers four chat commands: `help`,
`leaderboard`, `today` and `log <number>`. This project models the
deterministic core of `bot.py` and proves properties of it:

- **Scoring** (`scoring.dfy`, module `Scoring`). `get_points` maps a signed
  amount to one of nine scores through a chain of strict `<` comparisons.
  Python prints those scores either as ints (`1`) or as floats (`0.5`).
- **Daily total** (`records.dfy`, module `Records`). These are the rows of the
  `records` table. The store's filter on user key and date is modelled by what
  it means. The accumulator loop of `get_user_daily_points` is a method,
  proved equal to a recursive `Sum`. `add_record` is an append.
- **Leaderboard rendering** (`leaderboard.dfy`, module `Leaderboard`). The
  first ten entries of each board are numbered from 1. An empty board gets
  its fixed fallback text. The reply is the daily block followed directly by
  the all-time block. The rendered text is also read back line by line, as a
  chat client shows it.
- **Message handling** (`bot.dfy`, module `Bot`). `on_message` ignores the
  bot's own messages and strips and lower-cases the text. It tests for
  `help`, `leaderboard`, `today` and then any text containing `log`, in that
  order. A `log` message is split into exactly two tokens and its second token
  is parsed as a number. `Handle` gives the text sent to the channel and the
  records afterwards.
- **Python string operations** (`text.dfy`, module `Text`). It holds
  `str.strip`, `str.lower`, `str.split()`, the `in` test on strings,
  `"\n".join`, `split("\n")`, and the decimal rendering of a rank.
- `wrappers.dfy` holds the `Option` type.

The store's answers are inputs: today's rows, and the two boards that the
`daily_leaderboard` and `alltime_leaderboard` procedures return. Python's
`float()` on a token and `str()` of a number are the two functions in
`Bot.Conversions`.

Several behaviours follow from the code as written and are stated as lemmas:

- The `log` test is an unanchored substring test. So "logical" fails the
  two-token unpacking and nothing is recorded or sent. "blog 60" records
  60 oz.
- A deficit prints as `+-0.5`.
- The daily block ends without a line break when the daily board is not
  empty. The all-time heading is then glued to the last daily line. When
  the daily board is empty, the fallback text ends with a line break.

The code gives 1 point for exactly 60 oz, because `60 < 60` is false and
`60 < 90` holds. The model follows the code.

## Model

| member | source | states |
|---|---|---|
| Scoring.GetPoints | bot.py:85-94 | the score is one of the nine values -2, -1.5, -1, -0.5, 0, 0.5, 1, 1.5, 2, so it lies in [-2, 2] |
| Scoring.PointsCountCutoffs | bot.py:85-94 | the score is -2 plus one half for each of the eight cutoffs -120, -90, -60, -24, 24, 60, 90, 120 that the amount reaches |
| Scoring.GetPointsMonotone | bot.py:85-94 | a larger amount never scores less |
| Scoring.NeutralBand | bot.py:89-90 | an amount scores 0 if and only if it lies in [-24, 24) |
| Scoring.ScoreSign | bot.py:89-91 | the score is positive iff the amount is at least 24, and negative iff it is below -24 |
| Scoring.Boundaries | bot.py:86-94 | -24 scores 0, 24 scores 0.5, 119.999 scores 1.5, 120 scores 2, 60 scores 1, -60 scores -0.5, -120 scores -1.5, -120.001 scores -2 |
| Scoring.AntisymmetricOffCutoffs | bot.py:85-94 | negating the amount negates the score exactly when the amount is not one of the eight cutoffs |
| Scoring.PointsText | bot.py:86-94 | the printed score is a minus sign for a deficit, then the decimal digits of the whole part of its magnitude, then ".5" for a half point (whole scores are Python ints and print without a decimal point); so it has a '.' exactly when it is a half point and starts with '-' exactly when it is negative |
| Scoring.PointsTextInjective | bot.py:182 | no two scores print alike |
| Records.Select | bot.py:41-45 | the returned rows hold every record on file with that user key and that date exactly as many times as it is on file, and no other record |
| Records.DailyPoints | bot.py:47-50 | the accumulator loop returns the sum of the points of the rows, and 0 when there are none |
| Records.SumAppend | bot.py:47-50 | the sum over two lists of rows concatenated is the sum of their sums |
| Records.SumBounds | bot.py:47-50 | if every row holds between lo and hi points, n rows sum to between n*lo and n*hi |
| Records.SumOrderFree | bot.py:47-50 | the sum of the points (`Records.Sum`) does not depend on the order of the rows: rows that are a permutation of each other sum alike |
| Records.DailyTotalOrderFree | bot.py:38-50 | the daily total (`Records.DailyTotal`) depends only on which records are on file and how often, not on their order |
| Records.AppendRecordTotal | bot.py:64-67 | adding a record raises the total of its own user and day by its points, and leaves every other user's and day's total unchanged |
| Leaderboard.RankLineStart | bot.py:149 | a rank line (`Leaderboard.RankLine`) begins with the decimal digits of its rank, followed by '.' |
| Leaderboard.RankLineRanksDistinct | bot.py:149 | lines of distinct ranks never coincide, whatever entries they show |
| Leaderboard.Top | bot.py:149 | `board[:10]` is a prefix of the board with min(10, length) entries |
| Leaderboard.Ranked | bot.py:149 | one line per entry, in input order; line k reads "{first + k}. {user_id}: {total_points}" for entry k |
| Leaderboard.BlockLines | bot.py:148-150 | a non-empty block reads as its heading line and then one line per entry of the top ten: 1 + min(10, n) lines, line k + 1 reading "{k + 1}. {user_id}: {total_points}" for entry k |
| Leaderboard.OnlyTopTenShown | bot.py:149 | entries past the tenth never change a block |
| Leaderboard.DailyBlockIsLines | bot.py:148-152 | the daily block (`Leaderboard.DailyBlock`) is its lines joined by line breaks: heading and ranked lines, or heading, "No entries so far today..." and an empty last line; no line holds a break |
| Leaderboard.AllTimeBlockIsLines | bot.py:154-158 | the all-time block (`Leaderboard.AllTimeBlock`) is its lines joined by line breaks: heading and ranked lines, or heading and "No entries at all."; no line holds a break |
| Leaderboard.FallbackLines | bot.py:151-158 | an empty daily board reads as its heading, "No entries so far today..." and an empty line; an empty all-time board reads as its heading and "No entries at all." |
| Leaderboard.ReplyLines | bot.py:148-159 | the reply (`Leaderboard.LeaderboardReply`) reads as the daily lines followed by the all-time lines, with the last daily line and the all-time heading on one line |
| Leaderboard.EmptyDailyKeepsHeadingApart | bot.py:152 | after an empty daily board, the first three lines of the reply are the daily heading, the daily fallback line and the all-time heading |
| Leaderboard.DailyRunsIntoAllTime | bot.py:148-150 | after a non-empty daily board, the line of the last daily entry ends with the all-time heading |
| Leaderboard.SplitLinesConcat | bot.py:159 | joined lines followed directly by joined lines read back with the last line of the first and the first line of the second merged |
| Text.Strip | bot.py:113 | the stripped text neither starts nor ends with whitespace and is no longer than the input |
| Text.StripDecomposes | bot.py:113 | every text is its stripped form with only whitespace before and after it |
| Text.StripIgnoresPadding | bot.py:113 | extra whitespace around a text does not change its stripped form |
| Text.StripIdempotent | bot.py:113 | stripping twice is stripping once |
| Text.Lower | bot.py:113 | the lower-cased text has the same length, and each character is lowered on its own |
| Text.StripLower | bot.py:113 | stripping and lower-casing commute |
| Text.Words | bot.py:176 | every token of `split()` is non-empty and free of whitespace, and there are no tokens exactly when the text is all whitespace |
| Text.WordsOfJoin | bot.py:176 | splitting tokens joined by any non-empty run of whitespace (spaces, tabs, line breaks), with any whitespace after the last, gives the tokens back |
| Text.WordsOfPadded | bot.py:176 | `split()` finds exactly the tokens whatever whitespace precedes, separates and follows them |
| Text.ContainsIff | bot.py:174 | the `in` test holds iff the pattern occurs at some position, anchored nowhere |
| Text.ContainsInfix | bot.py:174 | any text placed around a pattern still contains it |
| Text.SplitJoinLines | bot.py:150 | splitting lines joined by line breaks gives them back when no line holds a break |
| Text.JoinSplitLines | bot.py:150 | joining the lines of a text with line breaks gives the text back |
| Text.NatToString | bot.py:149 | a rank prints as non-empty decimal digits without a leading zero that denote the rank |
| Text.NatToStringInjective | bot.py:149 | distinct ranks print differently |
| Bot.Normalize | bot.py:113 | the normalised text has no whitespace at either end, no upper-case letter, and is never longer than the message |
| Bot.NormalizeIdempotent | bot.py:113 | normalising twice is normalising once |
| Bot.Dispatch | bot.py:123-182 | on the normalised text: `!help`/`help` and only they give help, `!leaderboard`/`leaderboard` the leaderboard, `!today`/`today` the day's total; any other text containing "log" goes to the `log` parse; the rest is answered with the empty response |
| Bot.ParseLog | bot.py:176-179 | the `log` branch succeeds iff the text has exactly two tokens and the second parses as a number, which is then the amount; otherwise it fails |
| Bot.ClassifyOrder | bot.py:110-174 | for the branch `Bot.Classify` picks: the bot's own messages are ignored; otherwise, on the stripped and lower-cased text, the exact help, leaderboard and today texts are checked in that order, then the substring test for "log", and text passing none of them is answered with silence |
| Bot.NewRecord | bot.py:180-181 | the filed record carries the author's name, the amount, today's date and the amount's score |
| Bot.Handle | bot.py:108-194 | for each branch, what is sent and what is filed: nothing for the bot's own messages and for a failed `log`; the help text for `help`; the daily block then the all-time block for `leaderboard`; the author's total over the day's records for `today`; "Added {oz} oz → +{pts} points!" and exactly one appended record for a successful `log`; the empty text otherwise. Only a successful `log` changes the records |
| Bot.HelpTextLines | bot.py:127-134 | the help reply (`Bot.HelpText`) reads as five lines: the title, then one line each for `!log`, `!today`, `!leaderboard` and `!help` |
| Bot.TodayReplyShowsTotal | bot.py:171 | the `today` reply (`Bot.TodayReply`) gives the total away: two replies to one author are equal only if the totals print alike |
| Bot.LogReplyShowsScore | bot.py:182 | the `log` reply (`Bot.LogReply`) gives the amount and the score away: equal replies for amounts printed equally long show the same amount and the same score |
| Bot.LeaderboardSentLines | bot.py:137-159 | `leaderboard` files nothing, and the text it sends reads as the daily lines followed by the all-time lines |
| Bot.NormalizePadding | bot.py:113 | surrounding whitespace does not change the normalised text |
| Bot.NormalizeCase | bot.py:113 | texts that agree up to letter case normalise alike |
| Bot.ClassifyIgnoresPadding | bot.py:113 | surrounding whitespace never changes what the bot does with a message |
| Bot.ClassifyIgnoresCase | bot.py:113 | letter case never changes what the bot does with a message |
| Bot.HelpAnyCaseAndPadding | bot.py:127 | "  HELP  " and "!Help" both ask for help |
| Bot.LogicalFailsToLog | bot.py:174-176 | "logical" takes the `log` branch, fails the two-token unpacking, records nothing and sends nothing |
| Bot.BlogLogs | bot.py:174-179 | "blog 60" is a `log` of 60 oz |
| Bot.LogSixty | bot.py:176-182 | "log 60" files one record of 60 oz worth 1 point and replies "Added {60.0} oz → +1 points!" |
| Bot.DeficitReply | bot.py:182 | for a negative score, the reply shows "+" directly followed by "-" |
| Bot.HandleKeepsScores | bot.py:180-181 | if every record on file carries its amount's score, so does every record after handling any message |
| Bot.DailyTotalBounded | bot.py:47-50 | with every record scored, a day's total of n rows lies between -2n and 2n |
| Bot.LogAddsToToday | bot.py:180-181 | a successful `log` adds one record and adds its score to its author's total for the day |
| Bot.TwoLogsBothCount | bot.py:170-182 | after two successful `log` messages from one author on one day, both records are on file and `today` reports the earlier total plus both scores |
| Bot.UnrecognisedIsSilent | bot.py:123 | text that is no command and holds no "log" gets the empty response, and the records are unchanged |

## Left out

- Discord client setup, events and sending to the channel (bot.py:20-23, 104-106, 194, 197) are platform I/O. `Handle` returns the text that would be sent.
- Failures of the Supabase calls are not modelled. `get_user` (bot.py:115) runs before every command, and the other calls run inside their branches. A remote error raised by any of them propagates out of `on_message` uncaught, and nothing is sent. The model assumes every call succeeds.
- The Supabase calls (`add_user`, `get_user`, `get_user_records`, `get_daily_leaderboard`, `get_all_time_leaderboard`, `add_goal`) are network calls into a library that is not part of this model. Their results are inputs. `add_record` is an append to the record sequence.
- The server-side `daily_leaderboard` and `alltime_leaderboard` procedures, and with them the grouping and ordering of the boards, are not part of this model. The boards are taken as given.
- The registration check `user.count is None` (bot.py:115-117) depends on the shape of a library result that is not part of this model.
- `load_db` and `save_db` (bot.py:74-83) are unused file I/O.
- Environment loading (bot.py:9-14), `date.today()` and `print` are left out. Today's date is a parameter.
- Bot.Conversions: Python's `float()` and `str()` of a number are abstract functions. The IEEE-754 text conversions and the printed form of the amount in the `log` reply are not modelled.
- Bot.Conversions: a token that `float()` turns into `nan` or `inf` is not given a special case. Under Python's comparisons `nan` would score 2, and the model does not pin that down.
- Records.Sum: points are added as exact reals. Float rounding in the sum and the int-or-float printed form of the daily total are not modelled; the total is printed through the abstract `show`.
- Text.Strip, Text.Lower: only ASCII whitespace and ASCII letters are handled. Python's full Unicode `strip()` and `lower()` are not modelled.
- Bot.Handle: an exception in the `log` branch (wrong token count, or a second token `float()` rejects) is modelled as "nothing sent, nothing recorded". The logging of the error by the chat library is left out.
