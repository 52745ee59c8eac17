/**
 * The string operations the bot applies to a message: Python's str.strip(),
 * str.lower(), str.split(), the `in` test on strings, "sep".join(...) and the
 * decimal rendering of a non-negative int in an f-string.  Case folding and
 * whitespace are those of ASCII.
 */
module Text {

  /** Python's str.isspace() on ASCII: space, \t \n \v \f \r and the separators 0x1C-0x1F. */
  predicate IsSpace(c: char) {
    c == ' ' || ('\t' <= c <= '\r') || ('\U{1C}' <= c <= '\U{1F}')
  }

  predicate AllSpace(s: string) {
    forall i :: 0 <= i < |s| ==> IsSpace(s[i])
  }

  predicate NoSpace(s: string) {
    forall i :: 0 <= i < |s| ==> !IsSpace(s[i])
  }

  /** Neither starts nor ends with whitespace. */
  predicate Tight(s: string) {
    s == [] || (!IsSpace(s[0]) && !IsSpace(s[|s| - 1]))
  }

  // ---------- str.strip() ----------

  /** Number of whitespace characters at the start of s. */
  function LeadLen(s: string): (n: nat)
    ensures n <= |s|
    ensures forall i :: 0 <= i < n ==> IsSpace(s[i])
    ensures n == |s| || !IsSpace(s[n])
  {
    if s == [] || !IsSpace(s[0]) then 0
    else
      var n := LeadLen(s[1..]);
      assert forall i :: 1 <= i < n + 1 ==> s[i] == s[1..][i - 1];
      1 + n
  }

  /** Length of s once its trailing whitespace is dropped. */
  function EndLen(s: string): (n: nat)
    ensures n <= |s|
    ensures forall i :: n <= i < |s| ==> IsSpace(s[i])
    ensures n == 0 || !IsSpace(s[n - 1])
  {
    if s == [] || !IsSpace(s[|s| - 1]) then |s|
    else
      var n := EndLen(s[..|s| - 1]);
      assert forall i :: n <= i < |s| - 1 ==> s[i] == s[..|s| - 1][i];
      n
  }

  /** Python's str.lstrip() with no argument. */
  function TrimStart(s: string): string {
    s[LeadLen(s)..]
  }

  /** Python's str.strip() with no argument. */
  function Strip(s: string): (r: string)
    ensures Tight(r) && |r| <= |s|
  {
    var t := TrimStart(s);
    t[..EndLen(t)]
  }

  /** The whitespace that Strip removes in front. */
  function Leading(s: string): string {
    s[..LeadLen(s)]
  }

  /** The whitespace that Strip removes at the end. */
  function Trailing(s: string): string {
    var t := TrimStart(s);
    t[EndLen(t)..]
  }

  /** Every string is its stripped form with whitespace around it. */
  lemma StripDecomposes(s: string)
    ensures AllSpace(Leading(s)) && AllSpace(Trailing(s))
    ensures s == Leading(s) + Strip(s) + Trailing(s)
  {
    var n := LeadLen(s);
    var t := s[n..];
    var m := EndLen(t);
    assert Leading(s) == s[..n] && Strip(s) == t[..m] && Trailing(s) == t[m..];
    SpacePrefix(s, n);
    SpaceSuffix(t, m);
    CutAt(s, n);
    CutAt(t, m);
    ConcatAssoc(s[..n], t[..m], t[m..]);
  }

  lemma SpacePrefix(s: string, n: nat)
    requires n <= |s| && forall i :: 0 <= i < n ==> IsSpace(s[i])
    ensures AllSpace(s[..n])
  {
    assert forall i :: 0 <= i < n ==> s[..n][i] == s[i];
  }

  lemma SpaceSuffix(s: string, m: nat)
    requires m <= |s| && forall i :: m <= i < |s| ==> IsSpace(s[i])
    ensures AllSpace(s[m..])
  {
    assert forall i :: 0 <= i < |s| - m ==> s[m..][i] == s[m + i];
  }

  lemma CutAt(s: string, n: nat)
    requires n <= |s|
    ensures s == s[..n] + s[n..]
  {
  }

  lemma LeadLenPadded(pre: string, s: string)
    requires AllSpace(pre)
    requires s == [] || !IsSpace(s[0])
    ensures LeadLen(pre + s) == |pre|
  {
    var x := pre + s;
    assert forall i :: 0 <= i < |pre| ==> x[i] == pre[i];
    assert |pre| < |x| ==> x[|pre|] == s[0];
  }

  lemma EndLenPadded(s: string, post: string)
    requires AllSpace(post)
    requires s == [] || !IsSpace(s[|s| - 1])
    ensures EndLen(s + post) == |s|
  {
    var x := s + post;
    assert forall i :: |s| <= i < |x| ==> x[i] == post[i - |s|];
    assert 0 < |s| ==> x[|s| - 1] == s[|s| - 1];
  }

  /**
   * Strip removes exactly the surrounding whitespace: a string without
   * surrounding whitespace, padded with whitespace on both sides, strips back
   * to itself.  With StripDecomposes this pins Strip down completely.
   */
  lemma StripPadding(pre: string, t: string, post: string)
    requires AllSpace(pre) && AllSpace(post) && Tight(t)
    ensures Strip(pre + t + post) == t
  {
    var x := pre + t + post;
    if t == [] {
      assert x == (pre + post) + [];
      LeadLenPadded(pre + post, []);
      assert TrimStart(x) == [];
    } else {
      assert x == pre + (t + post);
      LeadLenPadded(pre, t + post);
      assert TrimStart(x) == t + post;
      EndLenPadded(t, post);
      assert (t + post)[..|t|] == t;
    }
  }

  /** Stripping twice is stripping once. */
  lemma StripIdempotent(s: string)
    ensures Strip(Strip(s)) == Strip(s)
  {
    StripPadding([], Strip(s), []);
    assert [] + Strip(s) + [] == Strip(s);
  }

  lemma AllSpaceConcat(a: string, b: string)
    requires AllSpace(a) && AllSpace(b)
    ensures AllSpace(a + b)
  {
    assert forall i :: 0 <= i < |a + b| ==> (a + b)[i] == if i < |a| then a[i] else b[i - |a|];
  }

  /** Whitespace-only pieces around lead + core + trail all strip away when core is tight. */
  lemma StripRegroup(pre: string, lead: string, core: string, trail: string, post: string)
    requires AllSpace(pre + lead) && AllSpace(trail + post) && Tight(core)
    ensures Strip(pre + (lead + core + trail) + post) == core
  {
    assert pre + (lead + core + trail) + post == (pre + lead) + core + (trail + post);
    StripPadding(pre + lead, core, trail + post);
  }

  /** Extra whitespace around a string does not change its stripped form. */
  lemma StripIgnoresPadding(pre: string, s: string, post: string)
    requires AllSpace(pre) && AllSpace(post)
    ensures Strip(pre + s + post) == Strip(s)
  {
    StripDecomposes(s);
    AllSpaceConcat(pre, Leading(s));
    AllSpaceConcat(Trailing(s), post);
    StripRegroup(pre, Leading(s), Strip(s), Trailing(s), post);
  }

  // ---------- str.lower() ----------

  predicate IsUpper(c: char) {
    'A' <= c <= 'Z'
  }

  function LowerChar(c: char): (d: char)
    ensures !IsUpper(d)
    ensures IsSpace(d) == IsSpace(c)
  {
    if IsUpper(c) then (c as int + 32) as char else c
  }

  /** Python's str.lower() on ASCII letters: every letter A-Z becomes a-z, every other character stays. */
  function Lower(s: string): (r: string)
    ensures |r| == |s|
    ensures forall i :: 0 <= i < |s| ==> r[i] == LowerChar(s[i])
  {
    if s == [] then [] else [LowerChar(s[0])] + Lower(s[1..])
  }

  lemma LowerAppend(a: string, b: string)
    ensures Lower(a + b) == Lower(a) + Lower(b)
  {
    var l, r := Lower(a + b), Lower(a) + Lower(b);
    forall i | 0 <= i < |l|
      ensures l[i] == r[i]
    {
      if i < |a| {
        assert (a + b)[i] == a[i] && r[i] == Lower(a)[i];
      } else {
        assert (a + b)[i] == b[i - |a|] && r[i] == Lower(b)[i - |a|];
      }
    }
  }

  /** Lower-casing and stripping commute, since no letter is whitespace. */
  lemma StripLower(s: string)
    ensures Strip(Lower(s)) == Lower(Strip(s))
  {
    StripDecomposes(s);
    var pre, t, post := Leading(s), Strip(s), Trailing(s);
    LowerAppend(pre, t);
    LowerAppend(pre + t, post);
    assert Lower(s) == Lower(pre) + Lower(t) + Lower(post);
    StripPadding(Lower(pre), Lower(t), Lower(post));
  }

  // ---------- str.split() ----------

  /** Length of the run of non-whitespace characters at the start of s. */
  function WordLen(s: string): (n: nat)
    ensures n <= |s| && NoSpace(s[..n])
    ensures n == |s| || IsSpace(s[n])
  {
    if s == [] || IsSpace(s[0]) then 0
    else
      var n := WordLen(s[1..]);
      assert forall i :: 1 <= i < n + 1 ==> s[i] == s[1..][i - 1];
      1 + n
  }

  /** Python's str.split() with no argument: the maximal runs of non-whitespace characters, in order. */
  function Words(s: string): (ws: seq<string>)
    ensures forall k :: 0 <= k < |ws| ==> ws[k] != [] && NoSpace(ws[k])
    ensures ws == [] <==> AllSpace(s)
    decreases |s|
  {
    var t := TrimStart(s);
    TrimmedEmpty(s);
    if t == [] then []
    else
      FirstWord(s);
      var n := WordLen(t);
      var rest := Words(t[n..]);
      ConsWord(t[..n], rest);
      [t[..n]] + rest
  }

  lemma TrimmedEmpty(s: string)
    ensures TrimStart(s) == [] <==> AllSpace(s)
  {
    if TrimStart(s) != [] {
      assert !IsSpace(s[LeadLen(s)]);
    }
  }

  lemma FirstWord(s: string)
    requires TrimStart(s) != []
    ensures 0 < WordLen(TrimStart(s))
    ensures |TrimStart(s)[WordLen(TrimStart(s))..]| < |s|
  {
    assert !IsSpace(s[LeadLen(s)]);
  }

  lemma ConsWord(w: string, rest: seq<string>)
    requires w != [] && NoSpace(w)
    requires forall k :: 0 <= k < |rest| ==> rest[k] != [] && NoSpace(rest[k])
    ensures forall k :: 0 <= k < |[w] + rest| ==> ([w] + rest)[k] != [] && NoSpace(([w] + rest)[k])
  {
    var ws := [w] + rest;
    assert forall k :: 0 < k < |ws| ==> ws[k] == rest[k - 1];
  }

  /** Python's sep.join(parts). */
  function Join(parts: seq<string>, sep: string): (r: string)
    ensures parts == [] ==> r == []
  {
    if parts == [] then []
    else if |parts| == 1 then parts[0]
    else parts[0] + sep + Join(parts[1..], sep)
  }

  /** Joining at least two parts puts the first in front of the join of the rest. */
  lemma JoinFirstRest(parts: seq<string>, sep: string)
    requires |parts| >= 2
    ensures Join(parts, sep) == parts[0] + sep + Join(parts[1..], sep)
  {
  }

  lemma JoinCons(x: string, ys: seq<string>, sep: string)
    requires ys != []
    ensures Join([x] + ys, sep) == x + sep + Join(ys, sep)
  {
    assert ([x] + ys)[1..] == ys;
    JoinFirstRest([x] + ys, sep);
  }

  lemma {:induction false} WordLenOfWord(w: string, rest: string)
    requires NoSpace(w)
    requires rest == [] || IsSpace(rest[0])
    ensures WordLen(w + rest) == |w|
    decreases |w|
  {
    if w == [] {
      assert w + rest == rest;
    } else {
      assert (w + rest)[1..] == w[1..] + rest;
      WordLenOfWord(w[1..], rest);
    }
  }

  /** A single word splits to itself. */
  lemma WordsOfWord(w: string)
    requires w != [] && NoSpace(w)
    ensures Words(w) == [w]
  {
    assert TrimStart(w) == w by {
      assert [] + w == w;
      LeadLenPadded([], w);
    }
    assert WordLen(w) == |w| by {
      assert w + [] == w;
      WordLenOfWord(w, []);
    }
    assert w[..|w|] == w && w[|w|..] == [];
    assert Words([]) == [];
  }

  lemma {:induction false} LeadLenAfterSpaces(sp: string, s: string)
    requires AllSpace(sp)
    ensures LeadLen(sp + s) == |sp| + LeadLen(s)
    decreases |sp|
  {
    if sp != [] {
      assert (sp + s)[0] == sp[0] && (sp + s)[1..] == sp[1..] + s;
      LeadLenAfterSpaces(sp[1..], s);
    } else {
      assert sp + s == s;
    }
  }

  /** Leading whitespace of any kind and length does not change the words. */
  lemma WordsAfterSpaces(sp: string, s: string)
    requires AllSpace(sp)
    ensures Words(sp + s) == Words(s)
  {
    LeadLenAfterSpaces(sp, s);
    assert TrimStart(sp + s) == TrimStart(s);
  }

  /** The middle part of a concatenation is where its length says it is. */
  lemma Middle(p: string, x: string, q: string)
    ensures (p + x + q)[|p|..|p| + |x|] == x
    ensures |p + x + q| == |p| + |x| + |q|
  {
  }

  lemma ConcatAssoc(a: string, b: string, c: string)
    ensures a + b + c == a + (b + c)
  {
  }

  /** A word followed by a run of whitespace splits into that word and the words of the rest. */
  lemma WordsOfWordSep(w: string, sep: string, rest: string)
    requires w != [] && NoSpace(w)
    requires sep != [] && AllSpace(sep)
    ensures Words(w + sep + rest) == [w] + Words(rest)
  {
    var s := w + (sep + rest);
    assert w + sep + rest == s;
    assert TrimStart(s) == s by {
      assert [] + s == s;
      LeadLenPadded([], s);
    }
    assert WordLen(s) == |w| by {
      WordLenOfWord(w, sep + rest);
    }
    assert s[..|w|] == w;
    assert s[|w|..] == sep + rest;
    WordsAfterSpaces(sep, rest);
  }

  /** A word followed only by whitespace splits to itself. */
  lemma WordsOfWordTrailing(w: string, post: string)
    requires w != [] && NoSpace(w) && AllSpace(post)
    ensures Words(w + post) == [w]
  {
    if post == [] {
      assert w + post == w;
      WordsOfWord(w);
    } else {
      assert w + post + [] == w + post;
      WordsOfWordSep(w, post, []);
    }
  }

  /**
   * Splitting undoes joining with any non-empty run of whitespace, whatever
   * whitespace trails the last word.
   */
  lemma {:induction false} WordsOfJoin(ws: seq<string>, sep: string, post: string)
    requires forall k :: 0 <= k < |ws| ==> ws[k] != [] && NoSpace(ws[k])
    requires sep != [] && AllSpace(sep) && AllSpace(post)
    ensures Words(Join(ws, sep) + post) == ws
    decreases |ws|
  {
    if ws == [] {
      assert Join(ws, sep) + post == post;
    } else if |ws| == 1 {
      WordsOfWordTrailing(ws[0], post);
    } else {
      var rest := Join(ws[1..], sep) + post;
      JoinFirstRest(ws, sep);
      ConcatAssoc(ws[0] + sep, Join(ws[1..], sep), post);
      WordsOfWordSep(ws[0], sep, rest);
      WordsOfJoin(ws[1..], sep, post);
      assert ws == [ws[0]] + ws[1..];
    }
  }

  /**
   * str.split() finds exactly the words, however they are padded and
   * separated: any whitespace before, any non-empty whitespace between, any
   * whitespace after.
   */
  lemma WordsOfPadded(pre: string, ws: seq<string>, sep: string, post: string)
    requires forall k :: 0 <= k < |ws| ==> ws[k] != [] && NoSpace(ws[k])
    requires sep != [] && AllSpace(sep) && AllSpace(pre) && AllSpace(post)
    ensures Words(pre + Join(ws, sep) + post) == ws
  {
    var body := Join(ws, sep) + post;
    ConcatAssoc(pre, Join(ws, sep), post);
    WordsAfterSpaces(pre, body);
    WordsOfJoin(ws, sep, post);
  }

  // ---------- The `in` test on strings ----------

  /** Python's `t in s` for two strings: t occurs in s as a contiguous block. */
  predicate Contains(s: string, t: string)
    decreases |s|
  {
    |t| <= |s| && (s[..|t|] == t || Contains(s[1..], t))
  }

  ghost predicate OccursAt(s: string, t: string, i: int) {
    0 <= i && i + |t| <= |s| && s[i..i + |t|] == t
  }

  lemma {:induction false} ContainsFromOccurrence(s: string, t: string, i: int)
    requires OccursAt(s, t, i)
    ensures Contains(s, t)
    decreases i
  {
    if i > 0 {
      assert s[1..][i - 1..i - 1 + |t|] == s[i..i + |t|];
      ContainsFromOccurrence(s[1..], t, i - 1);
    }
  }

  lemma {:induction false} OccurrenceFromContains(s: string, t: string) returns (i: int)
    requires Contains(s, t)
    ensures OccursAt(s, t, i)
    decreases |s|
  {
    if s[..|t|] == t {
      i := 0;
    } else {
      var j := OccurrenceFromContains(s[1..], t);
      assert s[1..][j..j + |t|] == s[j + 1..j + 1 + |t|];
      i := j + 1;
    }
  }

  /** Contains is the substring test: t occurs somewhere in s, anchored nowhere. */
  lemma ContainsIff(s: string, t: string)
    ensures Contains(s, t) <==> exists i :: OccursAt(s, t, i)
  {
    if Contains(s, t) {
      var i := OccurrenceFromContains(s, t);
    }
    if exists i :: OccursAt(s, t, i) {
      var i :| OccursAt(s, t, i);
      ContainsFromOccurrence(s, t, i);
    }
  }

  /** Anything placed around t leaves t in the result. */
  lemma ContainsInfix(pre: string, t: string, post: string)
    ensures Contains(pre + t + post, t)
  {
    assert (pre + t + post)[|pre|..|pre| + |t|] == t;
    ContainsFromOccurrence(pre + t + post, t, |pre|);
  }

  // ---------- Line splitting, the inverse of "\n".join ----------

  /** Index of the first c in s, or |s| when there is none. */
  function IndexOf(s: string, c: char): (k: nat)
    ensures k <= |s| && (k < |s| ==> s[k] == c)
    ensures forall i :: 0 <= i < k ==> s[i] != c
  {
    if s == [] then 0
    else if s[0] == c then 0
    else
      var k := IndexOf(s[1..], c);
      assert forall i :: 1 <= i < k + 1 ==> s[i] == s[1..][i - 1];
      1 + k
  }

  /** The line is free of line breaks. */
  predicate NoBreak(s: string) {
    forall i :: 0 <= i < |s| ==> s[i] != '\n'
  }

  /** Python's s.split("\n"): the pieces between line breaks; never empty. */
  function SplitLines(s: string): (lines: seq<string>)
    ensures |lines| >= 1
    ensures forall k :: 0 <= k < |lines| ==> NoBreak(lines[k])
    decreases |s|
  {
    var k := IndexOf(s, '\n');
    if k == |s| then [s] else [s[..k]] + SplitLines(s[k + 1..])
  }

  /** Joining the lines of s with line breaks gives s back. */
  lemma {:induction false} JoinSplitLines(s: string)
    ensures Join(SplitLines(s), "\n") == s
    decreases |s|
  {
    var k := IndexOf(s, '\n');
    if k < |s| {
      var rest := s[k + 1..];
      SplitLinesAtBreak(s);
      JoinSplitLines(rest);
      JoinCons(s[..k], SplitLines(rest), "\n");
    }
  }

  /** The first line break cuts s into its first line and the rest. */
  lemma SplitLinesAtBreak(s: string)
    requires IndexOf(s, '\n') < |s|
    ensures var k := IndexOf(s, '\n');
            SplitLines(s) == [s[..k]] + SplitLines(s[k + 1..]) && s == s[..k] + "\n" + s[k + 1..]
  {
    CutAtBreak(s, IndexOf(s, '\n'));
  }

  lemma CutAtBreak(s: string, k: nat)
    requires k < |s| && s[k] == '\n'
    ensures s == s[..k] + "\n" + s[k + 1..]
  {
    assert s[k..] == [s[k]] + s[k + 1..];
    assert s == s[..k] + s[k..];
  }

  lemma SplitLinesOfLine(l: string)
    requires NoBreak(l)
    ensures SplitLines(l) == [l]
  {
    assert IndexOf(l, '\n') == |l|;
  }

  lemma SplitLinesOfLineBreak(l: string, rest: string)
    requires NoBreak(l)
    ensures SplitLines(l + "\n" + rest) == [l] + SplitLines(rest)
  {
    var s := l + "\n" + rest;
    assert s[|l|] == '\n';
    assert forall i :: 0 <= i < |l| ==> s[i] == l[i];
    assert IndexOf(s, '\n') == |l|;
    assert s[..|l|] == l;
    assert s[|l| + 1..] == rest;
  }

  /** Splitting lines joined with line breaks gives them back, when no line holds a line break. */
  lemma {:induction false} SplitJoinLines(lines: seq<string>)
    requires lines != []
    requires forall k :: 0 <= k < |lines| ==> NoBreak(lines[k])
    ensures SplitLines(Join(lines, "\n")) == lines
    decreases |lines|
  {
    if |lines| == 1 {
      SplitLinesOfLine(lines[0]);
    } else {
      var rest := Join(lines[1..], "\n");
      assert Join(lines, "\n") == lines[0] + "\n" + rest;
      SplitLinesOfLineBreak(lines[0], rest);
      SplitJoinLines(lines[1..]);
      assert lines == [lines[0]] + lines[1..];
    }
  }

  lemma NoBreakConcat(a: string, b: string)
    requires NoBreak(a) && NoBreak(b)
    ensures NoBreak(a + b)
  {
    assert forall i :: 0 <= i < |a + b| ==> (a + b)[i] == if i < |a| then a[i] else b[i - |a|];
  }

  /** Adding one more line at the end adds it to the lines read back. */
  lemma {:induction false} SplitLinesAppendLine(x: string, l: string)
    requires NoBreak(l)
    ensures SplitLines(x + "\n" + l) == SplitLines(x) + [l]
    decreases |x|
  {
    SplitLinesOfLine(l);
    if IndexOf(x, '\n') == |x| {
      SplitLinesOfLineBreak(x, l);
    } else {
      var k := IndexOf(x, '\n');
      var head, tail := x[..k], x[k + 1..];
      SplitLinesAtBreak(x);
      ConcatAssoc(head + "\n", tail, "\n" + l);
      ConcatAssoc(head + "\n" + tail, "\n", l);
      ConcatAssoc(tail, "\n", l);
      assert x + "\n" + l == head + "\n" + (tail + "\n" + l);
      SplitLinesOfLineBreak(head, tail + "\n" + l);
      SplitLinesAppendLine(tail, l);
    }
  }

  // ---------- Decimal rendering of a non-negative int ----------

  predicate IsDigit(c: char) {
    '0' <= c <= '9'
  }

  predicate AllDigits(s: string) {
    forall i :: 0 <= i < |s| ==> IsDigit(s[i])
  }

  /** The number a string of decimal digits denotes. */
  function DigitsValue(s: string): nat
    requires AllDigits(s)
  {
    if s == [] then 0
    else 10 * DigitsValue(s[..|s| - 1]) + (s[|s| - 1] as int - '0' as int)
  }

  /** What an f-string prints for a non-negative int: its decimal digits, no leading zero. */
  function NatToString(n: nat): (r: string)
    ensures r != [] && AllDigits(r)
    ensures r[0] != '0' || r == "0"
    ensures DigitsValue(r) == n
  {
    var d := ('0' as int + n % 10) as char;
    if n < 10 then [d]
    else
      var r := NatToString(n / 10) + [d];
      assert r[..|r| - 1] == NatToString(n / 10);
      r
  }

  /** Distinct numbers render as distinct text. */
  lemma NatToStringInjective(m: nat, n: nat)
    requires NatToString(m) == NatToString(n)
    ensures m == n
  {
  }

}
