/**
 * The reply to the `leaderboard` command: the daily block followed by the
 * all-time block, each either a heading and up to ten ranked lines or a
 * fixed "no entries" text.  The two boards are what the store's
 * daily_leaderboard and alltime_leaderboard procedures return, already
 * ordered; the store's rendering of a total (str() of a number) is the
 * parameter `show`.
 */
module Leaderboard {
  import opened Text

  /** One row of a leaderboard as the store returns it: user_id and total_points. */
  datatype Entry = Entry(userId: string, totalPoints: real)

  /** How many entries a block lists at most. */
  const Shown: nat := 10

  const DailyHeader: string := "**\U{1F3C6} Daily Leaderboard:**"
  const DailyNone: string := "No entries so far today..."
  const AllTimeHeader: string := "**\U{1F3C6} All Time Leaderboard:**"
  const AllTimeNone: string := "No entries at all."

  /** The daily block for an empty board; unlike every other block it ends with a line break. */
  const DailyFallback: string := DailyHeader + "\n" + DailyNone + "\n"
  const AllTimeFallback: string := AllTimeHeader + "\n" + AllTimeNone

  /** f"{rank}. {user_id}: {total_points}" */
  function RankLine(rank: nat, e: Entry, show: real -> string): string {
    NatToString(rank) + ". " + e.userId + ": " + show(e.totalPoints)
  }

  /** A rank line begins with the rank's digits and then the '.' that ends them. */
  lemma RankLineStart(rank: nat, e: Entry, show: real -> string)
    ensures var digits, line := NatToString(rank), RankLine(rank, e, show);
            |digits| < |line| && line[..|digits|] == digits && line[|digits|] == '.'
  {
  }

  /** Lines of distinct ranks never coincide, whatever entries they show. */
  lemma RankLineRanksDistinct(m: nat, n: nat, e: Entry, f: Entry, show: real -> string)
    requires RankLine(m, e, show) == RankLine(n, f, show)
    ensures m == n
  {
    RankLineStart(m, e, show);
    RankLineStart(n, f, show);
    NatToStringInjective(m, n);
  }

  /** board[:10]: the first ten entries, or all of them when there are fewer. */
  function Top(board: seq<Entry>): (top: seq<Entry>)
    ensures |top| == if |board| < Shown then |board| else Shown
    ensures top == board[..|top|]
  {
    if |board| < Shown then board else board[..Shown]
  }

  /** The lines for enumerate(entries), ranks counted from `first`: entry k gets rank first + k, in input order. */
  function Ranked(entries: seq<Entry>, first: nat, show: real -> string): (lines: seq<string>)
    ensures |lines| == |entries|
    ensures forall k :: 0 <= k < |entries| ==> lines[k] == RankLine(first + k, entries[k], show)
  {
    if entries == [] then []
    else [RankLine(first, entries[0], show)] + Ranked(entries[1..], first + 1, show)
  }

  /** One block: the heading, a line break and the ranked lines of the top ten; the fallback for an empty board. */
  function Block(header: string, fallback: string, board: seq<Entry>, show: real -> string): string {
    if board != [] then header + "\n" + Join(Ranked(Top(board), 1, show), "\n") else fallback
  }

  function DailyBlock(board: seq<Entry>, show: real -> string): string {
    Block(DailyHeader, DailyFallback, board, show)
  }

  function AllTimeBlock(board: seq<Entry>, show: real -> string): string {
    Block(AllTimeHeader, AllTimeFallback, board, show)
  }

  /** res1 + res2: the daily block, then the all-time block, nothing between them. */
  function LeaderboardReply(daily: seq<Entry>, allTime: seq<Entry>, show: real -> string): string {
    DailyBlock(daily, show) + AllTimeBlock(allTime, show)
  }

  // ---------- What the rendered text reads as, line by line ----------

  /** No user key and no rendered total holds a line break. */
  predicate Printable(board: seq<Entry>, show: real -> string) {
    forall k :: 0 <= k < |board| ==> NoBreak(board[k].userId) && NoBreak(show(board[k].totalPoints))
  }

  lemma RankLineNoBreak(rank: nat, e: Entry, show: real -> string)
    requires NoBreak(e.userId) && NoBreak(show(e.totalPoints))
    ensures NoBreak(RankLine(rank, e, show))
  {
    var digits := NatToString(rank);
    assert forall i :: 0 <= i < |digits| ==> IsDigit(digits[i]);
  }

  lemma RankedNoBreak(board: seq<Entry>, show: real -> string)
    requires Printable(board, show)
    ensures forall k :: 0 <= k < |Top(board)| ==> NoBreak(Ranked(Top(board), 1, show)[k])
  {
    var top := Top(board);
    forall k | 0 <= k < |top|
      ensures NoBreak(Ranked(top, 1, show)[k])
    {
      RankLineNoBreak(1 + k, top[k], show);
    }
  }

  /**
   * A non-empty board renders as its heading line followed by one line per
   * entry of its first ten, line k + 1 reading "{k + 1}. {user_id}: {total}"
   * for entry k: min(10, |board|) entry lines, in input order.
   */
  lemma BlockLines(header: string, fallback: string, board: seq<Entry>, show: real -> string)
    requires board != [] && NoBreak(header) && Printable(board, show)
    ensures SplitLines(Block(header, fallback, board, show)) == [header] + Ranked(Top(board), 1, show)
    ensures |SplitLines(Block(header, fallback, board, show))| == 1 + (if |board| < Shown then |board| else Shown)
    ensures forall k :: 0 <= k < |Top(board)| ==>
              SplitLines(Block(header, fallback, board, show))[k + 1] == RankLine(k + 1, board[k], show)
  {
    var lines := [header] + Ranked(Top(board), 1, show);
    assert lines[1..] == Ranked(Top(board), 1, show);
    assert Block(header, fallback, board, show) == Join(lines, "\n");
    RankedNoBreak(board, show);
    SplitJoinLines(lines);
  }

  /** Entries past the tenth never reach the text. */
  lemma OnlyTopTenShown(header: string, fallback: string, board: seq<Entry>, more: seq<Entry>, show: real -> string)
    requires |board| >= Shown
    ensures Block(header, fallback, board + more, show) == Block(header, fallback, board, show)
  {
    assert Top(board + more) == Top(board);
  }

  /** The lines of a block as the reply carries them (the daily fallback ends in an empty line). */
  function DailyLines(board: seq<Entry>, show: real -> string): seq<string> {
    if board == [] then [DailyHeader, DailyNone, ""] else [DailyHeader] + Ranked(Top(board), 1, show)
  }

  function AllTimeLines(board: seq<Entry>, show: real -> string): seq<string> {
    if board == [] then [AllTimeHeader, AllTimeNone] else [AllTimeHeader] + Ranked(Top(board), 1, show)
  }

  /** Every line is free of line breaks. */
  predicate AllNoBreak(lines: seq<string>) {
    forall k :: 0 <= k < |lines| ==> NoBreak(lines[k])
  }

  /** A line in front of joined lines, when there are at least two of them. */
  lemma SplitLinesGlueMany(x: string, ys: seq<string>)
    requires NoBreak(x) && |ys| >= 2 && AllNoBreak(ys)
    ensures SplitLines(x + Join(ys, "\n")) == [x + ys[0]] + ys[1..]
  {
    var y := ys[0];
    var rest := Join(ys[1..], "\n");
    NoBreakConcat(x, y);
    JoinFirstRest(ys, "\n");
    assert x + Join(ys, "\n") == (x + y) + "\n" + rest;
    SplitLinesOfLineBreak(x + y, rest);
    SplitJoinLines(ys[1..]);
  }

  /** A line written directly in front of joined lines merges with the first of them. */
  lemma SplitLinesGlue(x: string, ys: seq<string>)
    requires NoBreak(x) && ys != [] && AllNoBreak(ys)
    ensures SplitLines(x + Join(ys, "\n")) == [x + ys[0]] + ys[1..]
  {
    if |ys| == 1 {
      NoBreakConcat(x, ys[0]);
      SplitLinesOfLine(x + ys[0]);
    } else {
      SplitLinesGlueMany(x, ys);
    }
  }

  /** The merged-lines picture for xs: the last line of xs and the first of ys become one. */
  function Merged(xs: seq<string>, ys: seq<string>): seq<string>
    requires xs != [] && ys != []
  {
    xs[..|xs| - 1] + [xs[|xs| - 1] + ys[0]] + ys[1..]
  }

  lemma MergedCons(xs: seq<string>, ys: seq<string>)
    requires |xs| >= 2 && ys != []
    ensures Merged(xs, ys) == [xs[0]] + Merged(xs[1..], ys)
  {
    var m := |xs| - 1;
    assert Merged(xs[1..], ys) == xs[1..m] + [xs[m] + ys[0]] + ys[1..] by {
      assert xs[1..][..m - 1] == xs[1..m] && xs[1..][m - 1] == xs[m];
    }
    assert xs[..m] == [xs[0]] + xs[1..m];
  }

  /** The first of at least two joined lines splits off, whatever text follows. */
  lemma SplitLinesFirst(xs: seq<string>, tail: string)
    requires |xs| >= 2 && NoBreak(xs[0])
    ensures SplitLines(Join(xs, "\n") + tail) == [xs[0]] + SplitLines(Join(xs[1..], "\n") + tail)
  {
    var rest := Join(xs[1..], "\n") + tail;
    JoinFirstRest(xs, "\n");
    assert Join(xs, "\n") + tail == xs[0] + "\n" + rest;
    SplitLinesOfLineBreak(xs[0], rest);
  }

  lemma MergedStep(xs: seq<string>, ys: seq<string>)
    requires |xs| >= 2 && ys != [] && NoBreak(xs[0])
    requires SplitLines(Join(xs[1..], "\n") + Join(ys, "\n")) == Merged(xs[1..], ys)
    ensures SplitLines(Join(xs, "\n") + Join(ys, "\n")) == Merged(xs, ys)
  {
    SplitLinesFirst(xs, Join(ys, "\n"));
    MergedCons(xs, ys);
  }

  /**
   * Text that ends in line xs[last], followed directly by text that starts
   * with line ys[0], has those two lines merged into one.
   */
  lemma {:induction false} SplitLinesConcat(xs: seq<string>, ys: seq<string>)
    requires xs != [] && ys != [] && AllNoBreak(xs) && AllNoBreak(ys)
    ensures SplitLines(Join(xs, "\n") + Join(ys, "\n")) == Merged(xs, ys)
    decreases |xs|
  {
    if |xs| == 1 {
      assert xs[..0] == [];
      SplitLinesGlue(xs[0], ys);
    } else {
      assert AllNoBreak(xs[1..]);
      SplitLinesConcat(xs[1..], ys);
      MergedStep(xs, ys);
    }
  }

  /** The fixed texts hold no line breaks. */
  lemma FixedTextsNoBreak()
    ensures NoBreak(DailyHeader) && NoBreak(DailyNone) && NoBreak(AllTimeHeader) && NoBreak(AllTimeNone)
  {
  }

  /** A non-empty board's block is its heading and ranked lines joined by line breaks. */
  lemma RankedBlockIsLines(header: string, fallback: string, board: seq<Entry>, show: real -> string)
    requires board != [] && NoBreak(header) && Printable(board, show)
    ensures var lines := [header] + Ranked(Top(board), 1, show);
            Block(header, fallback, board, show) == Join(lines, "\n") && AllNoBreak(lines)
  {
    var lines := [header] + Ranked(Top(board), 1, show);
    assert lines[1..] == Ranked(Top(board), 1, show);
    RankedNoBreak(board, show);
  }

  lemma DailyFallbackIsLines()
    ensures DailyFallback == Join([DailyHeader, DailyNone, ""], "\n")
    ensures AllNoBreak([DailyHeader, DailyNone, ""])
  {
    var lines := [DailyHeader, DailyNone, ""];
    assert lines[1..] == [DailyNone, ""] && lines[1..][1..] == [""];
    JoinFirstRest(lines, "\n");
    JoinFirstRest(lines[1..], "\n");
    FixedTextsNoBreak();
  }

  lemma AllTimeFallbackIsLines()
    ensures AllTimeFallback == Join([AllTimeHeader, AllTimeNone], "\n")
    ensures AllNoBreak([AllTimeHeader, AllTimeNone])
  {
    var lines := [AllTimeHeader, AllTimeNone];
    assert lines[1..] == [AllTimeNone];
    JoinFirstRest(lines, "\n");
    FixedTextsNoBreak();
  }

  /** An empty board shows its heading over the fixed "no entries" line; the daily one adds an empty last line. */
  lemma FallbackLines(show: real -> string)
    ensures SplitLines(DailyBlock([], show)) == [DailyHeader, DailyNone, ""]
    ensures SplitLines(AllTimeBlock([], show)) == [AllTimeHeader, AllTimeNone]
  {
    DailyFallbackIsLines();
    SplitJoinLines([DailyHeader, DailyNone, ""]);
    AllTimeFallbackIsLines();
    SplitJoinLines([AllTimeHeader, AllTimeNone]);
  }

  lemma DailyBlockIsLines(board: seq<Entry>, show: real -> string)
    requires Printable(board, show)
    ensures DailyBlock(board, show) == Join(DailyLines(board, show), "\n")
    ensures AllNoBreak(DailyLines(board, show))
  {
    if board == [] {
      DailyFallbackIsLines();
    } else {
      FixedTextsNoBreak();
      RankedBlockIsLines(DailyHeader, DailyFallback, board, show);
    }
  }

  lemma AllTimeBlockIsLines(board: seq<Entry>, show: real -> string)
    requires Printable(board, show)
    ensures AllTimeBlock(board, show) == Join(AllTimeLines(board, show), "\n")
    ensures AllNoBreak(AllTimeLines(board, show))
  {
    if board == [] {
      AllTimeFallbackIsLines();
    } else {
      FixedTextsNoBreak();
      RankedBlockIsLines(AllTimeHeader, AllTimeFallback, board, show);
    }
  }

  /**
   * The lines of the whole leaderboard reply: the daily lines and then the
   * all-time lines, the last daily line and the all-time heading sharing one
   * line.
   */
  lemma ReplyLines(daily: seq<Entry>, allTime: seq<Entry>, show: real -> string)
    requires Printable(daily, show) && Printable(allTime, show)
    ensures SplitLines(LeaderboardReply(daily, allTime, show)) == Merged(DailyLines(daily, show), AllTimeLines(allTime, show))
  {
    DailyBlockIsLines(daily, show);
    AllTimeBlockIsLines(allTime, show);
    SplitLinesConcat(DailyLines(daily, show), AllTimeLines(allTime, show));
  }

  /**
   * After an empty daily board the all-time heading starts a line of its
   * own, because the daily fallback ends in a line break.
   */
  lemma EmptyDailyKeepsHeadingApart(allTime: seq<Entry>, show: real -> string)
    requires Printable(allTime, show)
    ensures var lines := SplitLines(LeaderboardReply([], allTime, show));
            |lines| >= 3 && lines[..3] == [DailyHeader, DailyNone, AllTimeHeader]
  {
    ReplyLines([], allTime, show);
    assert "" + AllTimeHeader == AllTimeHeader;
  }

  /**
   * After a non-empty daily board the all-time heading is glued to the end
   * of the last daily entry's line: the daily block then ends without a
   * line break.
   */
  lemma DailyRunsIntoAllTime(daily: seq<Entry>, allTime: seq<Entry>, show: real -> string)
    requires daily != [] && Printable(daily, show) && Printable(allTime, show)
    ensures var n, lines := |Top(daily)|, SplitLines(LeaderboardReply(daily, allTime, show));
            n < |lines| && lines[n] == RankLine(n, daily[n - 1], show) + AllTimeHeader
  {
    ReplyLines(daily, allTime, show);
    var d := DailyLines(daily, show);
    var n := |Top(daily)|;
    assert |d| == n + 1 && d[n] == RankLine(n, daily[n - 1], show);
  }

}
