/**
 * on_message: how the bot reads one chat message and what it does about it.
 * The text is stripped and lower-cased, then compared with the commands in
 * a fixed order: help, leaderboard, today, and last any text that merely
 * contains "log".  The store's answers (today's rows, the two boards) are
 * inputs; add_record is an append to the record sequence; Python's float()
 * and str() of a number are the two functions in `Conversions`.
 */
module Bot {
  import opened Wrappers
  import opened Text
  import opened Scoring
  import opened Records
  import opened Leaderboard

  /** An inbound message: whether the bot itself wrote it, the author's display name, the raw text. */
  datatype Message = Message(fromBot: bool, authorName: string, content: string)

  /** Python's float() on a token (None where it raises ValueError) and str() of a number. */
  datatype Conversions = Conversions(parseFloat: string -> Option<real>, show: real -> string)

  /** Why a `log` message raises before anything is recorded. */
  datatype LogFailure =
    | WrongTokenCount(count: nat)   // `cmd, oz = content.split()` unpacks a list that is not of length 2
    | NotANumber(token: string)     // float(oz) rejects the second token

  /** The branch of on_message a message takes. */
  datatype Command =
    | Ignored                       // written by the bot itself: return before anything else
    | Help
    | ShowLeaderboard
    | ShowToday
    | Log(oz: real)
    | LogError(failure: LogFailure)
    | Silent                        // no branch matched: the empty response is sent

  const HelpTitle: string := "**Water Tracker Commands:**"
  const HelpLog: string := "- `!log` \U{2192} send a number (e.g., 60)" + " to log water in oz"
  const HelpToday: string := "- `!today` \U{2192} view today's points"
  const HelpLeaderboard: string := "- `!leaderboard` \U{2192} view top points"
  const HelpHelp: string := "- `!help` \U{2192} show this message"

  /** The reply to `help`: five lines, no line break after the last. */
  const HelpText: string :=
    HelpTitle + "\n" + HelpLog + "\n" + HelpToday + "\n" + HelpLeaderboard + "\n" + HelpHelp

  /** message.content.strip().lower(): no whitespace at either end, no upper-case letter, never longer. */
  function Normalize(raw: string): (r: string)
    ensures Tight(r) && LowerCase(r) && |r| <= |raw|
  {
    Lower(Strip(raw))
  }

  /** No letter in s is upper-case. */
  predicate LowerCase(s: string) {
    forall i :: 0 <= i < |s| ==> !IsUpper(s[i])
  }

  predicate IsHelp(content: string) {
    content == "!help" || content == "help"
  }

  predicate IsLeaderboard(content: string) {
    content == "!leaderboard" || content == "leaderboard"
  }

  predicate IsToday(content: string) {
    content == "!today" || content == "today"
  }

  /** One of the six exact command texts. */
  predicate IsCommandWord(content: string) {
    IsHelp(content) || IsLeaderboard(content) || IsToday(content)
  }

  /** The `log` branch up to the scoring: exactly two tokens, the second a number. */
  function ParseLog(content: string, parseFloat: string -> Option<real>): (c: Command)
    ensures c.Log? || c.LogError?
    ensures c.Log? <==> |Words(content)| == 2 && parseFloat(Words(content)[1]).Some?
    ensures c.Log? ==> parseFloat(Words(content)[1]) == Some(c.oz)
  {
    var tokens := Words(content);
    if |tokens| != 2 then LogError(WrongTokenCount(|tokens|))
    else
      match parseFloat(tokens[1])
      case None => LogError(NotANumber(tokens[1]))
      case Some(oz) => Log(oz)
  }

  /**
   * The if/elif chain of on_message, on the normalised text: the first test
   * that holds decides, so each command word has its own branch, any other
   * text holding "log" goes to the `log` parse, and the rest is silence.
   */
  function Dispatch(content: string, parseFloat: string -> Option<real>): (c: Command)
    ensures c != Ignored
    ensures c == Help <==> IsHelp(content)
    ensures c == ShowLeaderboard <==> IsLeaderboard(content)
    ensures c == ShowToday <==> IsToday(content)
    ensures c.Log? || c.LogError? <==> !IsCommandWord(content) && Contains(content, "log")
    ensures c.Log? || c.LogError? ==> c == ParseLog(content, parseFloat)
    ensures c == Silent <==> !IsCommandWord(content) && !Contains(content, "log")
  {
    if IsHelp(content) then Help
    else if IsLeaderboard(content) then ShowLeaderboard
    else if IsToday(content) then ShowToday
    else if Contains(content, "log") then ParseLog(content, parseFloat)
    else Silent
  }

  /** on_message's branch for a message: the bot's own messages are ignored, the rest dispatched on their normalised text. */
  function Classify(msg: Message, parseFloat: string -> Option<real>): Command {
    if msg.fromBot then Ignored else Dispatch(Normalize(msg.content), parseFloat)
  }

  /**
   * The order of the tests: the bot's own messages first, then the exact
   * help, leaderboard and today texts, then the substring test for "log";
   * whatever passes none of them is answered with silence.
   */
  lemma ClassifyOrder(msg: Message, parseFloat: string -> Option<real>)
    ensures var c, n := Classify(msg, parseFloat), Normalize(msg.content);
            && (c == Ignored <==> msg.fromBot)
            && (c == Help <==> !msg.fromBot && IsHelp(n))
            && (c == ShowLeaderboard <==> !msg.fromBot && IsLeaderboard(n))
            && (c == ShowToday <==> !msg.fromBot && IsToday(n))
            && (c.Log? || c.LogError? <==> !msg.fromBot && !IsCommandWord(n) && Contains(n, "log"))
            && (c == Silent <==> !msg.fromBot && !IsCommandWord(n) && !Contains(n, "log"))
  {
  }

  /** Normalising twice is normalising once. */
  lemma NormalizeIdempotent(raw: string)
    ensures Normalize(Normalize(raw)) == Normalize(raw)
  {
    NormalizeNormalized(Normalize(raw));
  }

  /** f"Added {oz} oz → +{pts} points!" */
  function LogReply(oz: real, show: real -> string): string {
    "Added " + show(oz) + " oz \U{2192} +" + PointsText(GetPoints(oz)) + " points!"
  }

  /** f"💧 {name}, today you have {todays_points} points." */
  function TodayReply(name: string, total: real, show: real -> string): string {
    "\U{1F4A7} " + name + ", today you have " + show(total) + " points."
  }

  /** What the store holds and returns, as far as handling a message reads it. */
  datatype Store = Store(records: seq<Record>, daily: seq<Entry>, allTime: seq<Entry>)

  /** What handling a message does: the text sent to the channel (None: nothing sent) and the records afterwards. */
  datatype Outcome = Outcome(sent: Option<string>, records: seq<Record>)

  /** The record a `log` of oz ounces files, under the author's display name. */
  function NewRecord(msg: Message, oz: real, today: Date): (r: Record)
    ensures r.userId == msg.authorName && r.oz == oz && r.date == today
    ensures r.points == GetPoints(oz) && IsScore(r.points)
  {
    Record(msg.authorName, oz, GetPoints(oz), today)
  }

  /** on_message from classification to channel.send. */
  function Handle(msg: Message, store: Store, today: Date, conv: Conversions): (out: Outcome)
    ensures out.sent == None <==> msg.fromBot || Classify(msg, conv.parseFloat).LogError?
    ensures !Classify(msg, conv.parseFloat).Log? ==> out.records == store.records
    ensures match Classify(msg, conv.parseFloat)
            case Ignored => out.sent == None
            case Help => out.sent == Some(HelpText)
            case ShowLeaderboard => out.sent == Some(LeaderboardReply(store.daily, store.allTime, conv.show))
            case ShowToday =>
              out.sent == Some(TodayReply(msg.authorName, DailyTotal(store.records, msg.authorName, today), conv.show))
            case Log(oz) =>
              out.records == store.records + [NewRecord(msg, oz, today)] && out.sent == Some(LogReply(oz, conv.show))
            case LogError(_) => out.sent == None
            case Silent => out.sent == Some("")
  {
    match Classify(msg, conv.parseFloat)
    case Ignored => Outcome(None, store.records)
    case Help => Outcome(Some(HelpText), store.records)
    case ShowLeaderboard => Outcome(Some(LeaderboardReply(store.daily, store.allTime, conv.show)), store.records)
    case ShowToday =>
      var total := DailyTotal(store.records, msg.authorName, today);
      Outcome(Some(TodayReply(msg.authorName, total, conv.show)), store.records)
    case Log(oz) => Outcome(Some(LogReply(oz, conv.show)), store.records + [NewRecord(msg, oz, today)])
    case LogError(_) => Outcome(None, store.records)
    case Silent => Outcome(Some(""), store.records)
  }

  // ---------- What the replies read as ----------

  lemma HelpLinesNoBreak()
    ensures NoBreak(HelpTitle) && NoBreak(HelpLog) && NoBreak(HelpToday)
    ensures NoBreak(HelpLeaderboard) && NoBreak(HelpHelp)
  {
    HelpLogNoBreak();
  }

  lemma HelpLogNoBreak()
    ensures NoBreak(HelpLog)
  {
    var front, back := "- `!log` \U{2192} send a number (e.g., 60)", " to log water in oz";
    assert NoBreak(front) && NoBreak(back);
    NoBreakConcat(front, back);
  }

  /** The help reply shows a title line and then one line for each of the four commands, in that order. */
  lemma HelpTextLines()
    ensures SplitLines(HelpText) == [HelpTitle, HelpLog, HelpToday, HelpLeaderboard, HelpHelp]
  {
    HelpLinesNoBreak();
    FiveLines(HelpTitle, HelpLog, HelpToday, HelpLeaderboard, HelpHelp);
  }

  /** Five lines without breaks, joined by four line breaks, read back as those five lines. */
  lemma FiveLines(a: string, b: string, c: string, d: string, e: string)
    requires NoBreak(a) && NoBreak(b) && NoBreak(c) && NoBreak(d) && NoBreak(e)
    ensures SplitLines(a + "\n" + b + "\n" + c + "\n" + d + "\n" + e) == [a, b, c, d, e]
  {
    SplitLinesOfLine(a);
    SplitLinesAppendLine(a, b);
    SplitLinesAppendLine(a + "\n" + b, c);
    SplitLinesAppendLine(a + "\n" + b + "\n" + c, d);
    SplitLinesAppendLine(a + "\n" + b + "\n" + c + "\n" + d, e);
  }

  /** The `today` reply gives the total away: two replies to one author agree only if the totals print alike. */
  lemma TodayReplyShowsTotal(name: string, a: real, b: real, show: real -> string)
    requires TodayReply(name, a, show) == TodayReply(name, b, show)
    ensures show(a) == show(b)
  {
    var pre := "\U{1F4A7} " + name + ", today you have ";
    Middle(pre, show(a), " points.");
    Middle(pre, show(b), " points.");
  }

  /**
   * The `log` reply gives the score away: two replies that agree, for amounts
   * whose printed forms are equally long, show the same amount and the same
   * score.
   */
  lemma LogReplyShowsScore(a: real, b: real, show: real -> string)
    requires |show(a)| == |show(b)| && LogReply(a, show) == LogReply(b, show)
    ensures show(a) == show(b) && GetPoints(a) == GetPoints(b)
  {
    var ta, tb := PointsText(GetPoints(a)), PointsText(GetPoints(b));
    LogReplyParts(a, show);
    LogReplyParts(b, show);
    Middle("Added ", show(a), " oz \U{2192} +" + ta + " points!");
    Middle("Added ", show(b), " oz \U{2192} +" + tb + " points!");
    Middle("Added " + show(a) + " oz \U{2192} +", ta, " points!");
    Middle("Added " + show(b) + " oz \U{2192} +", tb, " points!");
    PointsTextInjective(GetPoints(a), GetPoints(b));
  }

  lemma LogReplyParts(oz: real, show: real -> string)
    ensures var t := PointsText(GetPoints(oz));
            && LogReply(oz, show) == "Added " + show(oz) + (" oz \U{2192} +" + t + " points!")
            && LogReply(oz, show) == ("Added " + show(oz) + " oz \U{2192} +") + t + " points!"
  {
  }

  /** `leaderboard` files nothing and sends text that reads as the daily lines followed by the all-time lines. */
  lemma LeaderboardSentLines(msg: Message, store: Store, today: Date, conv: Conversions)
    requires Classify(msg, conv.parseFloat) == ShowLeaderboard
    requires Printable(store.daily, conv.show) && Printable(store.allTime, conv.show)
    ensures var out := Handle(msg, store, today, conv);
            && out.records == store.records
            && out.sent.Some?
            && SplitLines(out.sent.value) == Merged(DailyLines(store.daily, conv.show), AllTimeLines(store.allTime, conv.show))
  {
    ReplyLines(store.daily, store.allTime, conv.show);
  }

  // ---------- Normalisation ----------

  /** Surrounding whitespace does not change the normalised text. */
  lemma NormalizePadding(pre: string, s: string, post: string)
    requires AllSpace(pre) && AllSpace(post)
    ensures Normalize(pre + s + post) == Normalize(s)
  {
    StripIgnoresPadding(pre, s, post);
  }

  /** Texts that agree up to the case of their letters normalise alike. */
  lemma NormalizeCase(s: string, t: string)
    requires Lower(s) == Lower(t)
    ensures Normalize(s) == Normalize(t)
  {
    StripLower(s);
    StripLower(t);
  }

  /** Whitespace around a message never changes what the bot does with it. */
  lemma ClassifyIgnoresPadding(msg: Message, pre: string, post: string, parseFloat: string -> Option<real>)
    requires AllSpace(pre) && AllSpace(post)
    ensures Classify(msg.(content := pre + msg.content + post), parseFloat) == Classify(msg, parseFloat)
  {
    NormalizePadding(pre, msg.content, post);
  }

  /** Commands are case-insensitive: only the lower-cased text matters. */
  lemma ClassifyIgnoresCase(msg: Message, other: string, parseFloat: string -> Option<real>)
    requires Lower(msg.content) == Lower(other)
    ensures Classify(msg.(content := other), parseFloat) == Classify(msg, parseFloat)
  {
    NormalizeCase(msg.content, other);
  }

  /** Text without upper-case letters is its own lower-case form. */
  lemma LowerOfLowerCase(s: string)
    requires LowerCase(s)
    ensures Lower(s) == s
  {
  }

  /** Lower-case text without surrounding whitespace is already normalised. */
  lemma NormalizeNormalized(s: string)
    requires Tight(s) && LowerCase(s)
    ensures Normalize(s) == s
  {
    StripPadding([], s, []);
    assert [] + s + [] == s;
    LowerOfLowerCase(s);
  }

  /** t is s with every letter lower-cased. */
  lemma LowerInto(s: string, t: string)
    requires |s| == |t|
    requires forall i :: 0 <= i < |s| ==> LowerChar(s[i]) == t[i]
    ensures Lower(s) == t
  {
  }

  /** A message the bot did not write is dispatched on its normalised text. */
  lemma ClassifyAs(msg: Message, n: string, parseFloat: string -> Option<real>)
    requires !msg.fromBot && Normalize(msg.content) == n
    ensures Classify(msg, parseFloat) == Dispatch(n, parseFloat)
  {
  }

  lemma NormalizeUpperHelp()
    ensures Normalize("HELP") == "help"
  {
    LowerInto("HELP", "help");
    LowerOfLowerCase("help");
    NormalizeCase("HELP", "help");
    NormalizeNormalized("help");
  }

  lemma NormalizePaddedHelp()
    ensures Normalize("  HELP  ") == "help"
  {
    assert "  HELP  " == "  " + "HELP" + "  ";
    NormalizePadding("  ", "HELP", "  ");
    NormalizeUpperHelp();
  }

  lemma NormalizeBangHelp()
    ensures Normalize("!Help") == "!help"
  {
    LowerInto("!Help", "!help");
    LowerOfLowerCase("!help");
    NormalizeCase("!Help", "!help");
    NormalizeNormalized("!help");
  }

  /** Case and surrounding whitespace do not matter: "  HELP  " and "!Help" both ask for help. */
  lemma HelpAnyCaseAndPadding(name: string, parseFloat: string -> Option<real>)
    ensures Classify(Message(false, name, "  HELP  "), parseFloat) == Help
    ensures Classify(Message(false, name, "!Help"), parseFloat) == Help
  {
    NormalizePaddedHelp();
    ClassifyAs(Message(false, name, "  HELP  "), "help", parseFloat);
    NormalizeBangHelp();
    ClassifyAs(Message(false, name, "!Help"), "!help", parseFloat);
  }

  // ---------- The unanchored `log` test ----------

  lemma LogicalText()
    ensures Normalize("logical") == "logical"
    ensures Words("logical") == ["logical"]
  {
    NormalizeNormalized("logical");
    WordsOfWord("logical");
  }

  lemma LogicalContainsLog()
    ensures Contains("logical", "log")
  {
    assert "logical" == [] + "log" + "ical";
    ContainsInfix([], "log", "ical");
  }

  lemma LogicalClassify(name: string, parseFloat: string -> Option<real>)
    ensures Classify(Message(false, name, "logical"), parseFloat) == LogError(WrongTokenCount(1))
  {
    LogicalText();
    LogicalContainsLog();
    ClassifyAs(Message(false, name, "logical"), "logical", parseFloat);
  }

  /**
   * "logical" contains "log", so it takes the `log` branch, and with one
   * token it fails the two-token unpacking: nothing is recorded or sent.
   */
  lemma LogicalFailsToLog(name: string, store: Store, today: Date, conv: Conversions)
    ensures Classify(Message(false, name, "logical"), conv.parseFloat) == LogError(WrongTokenCount(1))
    ensures Handle(Message(false, name, "logical"), store, today, conv) == Outcome(None, store.records)
  {
    LogicalClassify(name, conv.parseFloat);
  }

  /** Two words joined by one space split back into those two words. */
  lemma WordsOfPair(cmd: string, num: string)
    requires cmd != [] && NoSpace(cmd)
    requires num != [] && NoSpace(num)
    ensures Words(cmd + " " + num) == [cmd, num]
  {
    WordsOfWordSep(cmd, " ", num);
    WordsOfWord(num);
  }

  lemma LowerCasePair(cmd: string, num: string)
    requires LowerCase(cmd) && LowerCase(num)
    ensures LowerCase(cmd + " " + num)
  {
    var s := cmd + " " + num;
    assert forall i :: 0 <= i < |s| ==> s[i] == if i < |cmd| then cmd[i] else if i == |cmd| then ' ' else num[i - |cmd| - 1];
  }

  /** The normalised text and its two tokens, for a lower-case "word number" message. */
  lemma TwoTokenText(cmd: string, num: string)
    requires cmd != [] && NoSpace(cmd) && LowerCase(cmd)
    requires num != [] && NoSpace(num) && LowerCase(num)
    ensures Normalize(cmd + " " + num) == cmd + " " + num
    ensures Words(cmd + " " + num) == [cmd, num]
  {
    WordsOfPair(cmd, num);
    LowerCasePair(cmd, num);
    var s := cmd + " " + num;
    assert s[0] == cmd[0] && s[|s| - 1] == num[|num| - 1];
    NormalizeNormalized(s);
  }

  lemma BlogText()
    ensures Normalize("blog 60") == "blog 60"
    ensures Words("blog 60") == ["blog", "60"]
  {
    assert "blog 60" == "blog" + " " + "60";
    TwoTokenText("blog", "60");
  }

  lemma BlogContainsLog()
    ensures Contains("blog 60", "log")
  {
    assert "blog 60" == "b" + "log" + " 60";
    ContainsInfix("b", "log", " 60");
  }

  /**
   * Any word that contains "log" serves as the command word: "blog 60"
   * records 60 oz just as "log 60" does.
   */
  lemma BlogLogs(name: string, conv: Conversions)
    requires conv.parseFloat("60") == Some(60.0)
    ensures Classify(Message(false, name, "blog 60"), conv.parseFloat) == Log(60.0)
  {
    BlogText();
    BlogContainsLog();
    ClassifyAs(Message(false, name, "blog 60"), "blog 60", conv.parseFloat);
  }

  // ---------- Logging ----------

  lemma LogSixtyText()
    ensures Normalize("log 60") == "log 60"
    ensures Words("log 60") == ["log", "60"]
  {
    assert "log 60" == "log" + " " + "60";
    TwoTokenText("log", "60");
  }

  lemma LogSixtyContainsLog()
    ensures Contains("log 60", "log")
  {
    assert "log 60" == [] + "log" + " 60";
    ContainsInfix([], "log", " 60");
  }

  /** "log 60" is a `log` of 60 ounces. */
  lemma LogSixtyClassify(name: string, parseFloat: string -> Option<real>)
    requires parseFloat("60") == Some(60.0)
    ensures Classify(Message(false, name, "log 60"), parseFloat) == Log(60.0)
  {
    LogSixtyText();
    LogSixtyContainsLog();
    ClassifyAs(Message(false, name, "log 60"), "log 60", parseFloat);
  }

  /** 60 oz earns the int 1, printed without a decimal point. */
  lemma LogSixtyReply(show: real -> string)
    ensures GetPoints(60.0) == 1.0
    ensures LogReply(60.0, show) == "Added " + show(60.0) + " oz \U{2192} +1 points!"
  {
    assert PointsText(1.0) == "1";
    assert " oz \U{2192} +" + "1" + " points!" == " oz \U{2192} +1 points!";
  }

  /**
   * "log 60" files one record of 60 oz worth 1 point (60 is not below the
   * 60 cutoff) and replies with the int 1, printed without a decimal point.
   */
  lemma LogSixty(name: string, store: Store, today: Date, conv: Conversions)
    requires conv.parseFloat("60") == Some(60.0)
    ensures var out := Handle(Message(false, name, "log 60"), store, today, conv);
            && out.records == store.records + [Record(name, 60.0, 1.0, today)]
            && out.sent == Some("Added " + conv.show(60.0) + " oz \U{2192} +1 points!")
  {
    LogSixtyClassify(name, conv.parseFloat);
    LogSixtyReply(conv.show);
  }

  /** A deficit prints with the "+" of the template in front of its minus sign: "+-0.5". */
  lemma DeficitReply(oz: real, show: real -> string)
    requires oz < -24.0
    ensures var prefix := "Added " + show(oz) + " oz \U{2192} +";
            var r := LogReply(oz, show);
            |prefix| < |r| && r[..|prefix|] == prefix && r[|prefix|] == '-'
  {
    var prefix := "Added " + show(oz) + " oz \U{2192} +";
    var text := PointsText(GetPoints(oz));
    ScoreSign(oz);
    assert LogReply(oz, show) == prefix + (text + " points!");
    assert text[0] == '-';
  }

  /** Every record on file carries the score of its own amount. */
  predicate ScoredAtCreation(records: seq<Record>) {
    forall r :: r in records ==> r.points == GetPoints(r.oz)
  }

  /** Handling a message keeps every record's points equal to GetPoints of its ounces. */
  lemma HandleKeepsScores(msg: Message, store: Store, today: Date, conv: Conversions)
    requires ScoredAtCreation(store.records)
    ensures ScoredAtCreation(Handle(msg, store, today, conv).records)
  {
  }

  /** Scored rows hold between -2 and 2 points each, so n of them sum to between -2n and 2n. */
  lemma ScoredSumBounded(rows: seq<Record>)
    requires ScoredAtCreation(rows)
    ensures |rows| as real * -2.0 <= Sum(rows) <= |rows| as real * 2.0
  {
    forall k | 0 <= k < |rows|
      ensures -2.0 <= rows[k].points <= 2.0
    {
      assert rows[k] in rows;
    }
    SumBounds(rows, -2.0, 2.0);
  }

  /** With every record scored, a day's total is at most 2 points per logged amount either way. */
  lemma DailyTotalBounded(records: seq<Record>, user: string, day: Date)
    requires ScoredAtCreation(records)
    ensures var n := |Select(records, user, day)| as real;
            n * -2.0 <= DailyTotal(records, user, day) <= n * 2.0
  {
    var rows := Select(records, user, day);
    assert ScoredAtCreation(rows);
    ScoredSumBounded(rows);
  }

  /** A successful `log` adds one record, and its points to its author's total for the day. */
  lemma LogAddsToToday(msg: Message, store: Store, today: Date, conv: Conversions)
    requires Classify(msg, conv.parseFloat).Log?
    ensures var out := Handle(msg, store, today, conv);
            && |out.records| == |store.records| + 1
            && DailyTotal(out.records, msg.authorName, today)
               == DailyTotal(store.records, msg.authorName, today) + GetPoints(Classify(msg, conv.parseFloat).oz)
  {
    var oz := Classify(msg, conv.parseFloat).oz;
    AppendRecordTotal(store.records, NewRecord(msg, oz, today), msg.authorName, today);
  }

  lemma NormalizeToday()
    ensures Normalize("today") == "today"
  {
    NormalizeNormalized("today");
  }

  lemma TodayClassify(name: string, parseFloat: string -> Option<real>)
    ensures Classify(Message(false, name, "today"), parseFloat) == ShowToday
  {
    NormalizeToday();
    ClassifyAs(Message(false, name, "today"), "today", parseFloat);
  }

  /**
   * Two `log` messages from one author on one day are both kept, and the
   * author's `today` total afterwards counts both of them.
   */
  lemma TwoLogsBothCount(name: string, first: string, second: string, store: Store, today: Date, conv: Conversions)
    requires Classify(Message(false, name, first), conv.parseFloat).Log?
    requires Classify(Message(false, name, second), conv.parseFloat).Log?
    ensures var a := Classify(Message(false, name, first), conv.parseFloat).oz;
            var b := Classify(Message(false, name, second), conv.parseFloat).oz;
            var s1 := store.(records := Handle(Message(false, name, first), store, today, conv).records);
            var s2 := s1.(records := Handle(Message(false, name, second), s1, today, conv).records);
            && |s2.records| == |store.records| + 2
            && DailyTotal(s2.records, name, today) == DailyTotal(store.records, name, today) + GetPoints(a) + GetPoints(b)
            && Handle(Message(false, name, "today"), s2, today, conv).sent
               == Some(TodayReply(name, DailyTotal(store.records, name, today) + GetPoints(a) + GetPoints(b), conv.show))
  {
    var s1 := store.(records := Handle(Message(false, name, first), store, today, conv).records);
    var s2 := s1.(records := Handle(Message(false, name, second), s1, today, conv).records);
    LogAddsToToday(Message(false, name, first), store, today, conv);
    LogAddsToToday(Message(false, name, second), s1, today, conv);
    TodayClassify(name, conv.parseFloat);
  }

  // ---------- The other branches ----------

  /** Text that is no command and holds no "log" gets the empty response, and the store is untouched. */
  lemma UnrecognisedIsSilent(msg: Message, store: Store, today: Date, conv: Conversions)
    requires !msg.fromBot
    requires !IsCommandWord(Normalize(msg.content)) && !Contains(Normalize(msg.content), "log")
    ensures Handle(msg, store, today, conv) == Outcome(Some(""), store.records)
  {
    assert Classify(msg, conv.parseFloat) == Silent;
  }

}
