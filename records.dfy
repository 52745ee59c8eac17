/**
 * The rows of the `records` table and the per-user daily total that
 * get_user_daily_points computes from them.  The store's query is modelled
 * by its meaning (a filter on user key and date); the summation is the
 * bot's own loop.
 */
module Records {

  /** A calendar day in ISO form, as date.today().isoformat() gives it. */
  type Date = string

  /** One logged amount: the user key it was filed under, the ounces, the points it earned, the day. */
  datatype Record = Record(userId: string, oz: real, points: real, date: Date)

  /** The sum of the points column over rows, added up front to back. */
  function Sum(rows: seq<Record>): real {
    if rows == [] then 0.0 else Sum(rows[..|rows| - 1]) + rows[|rows| - 1].points
  }

  /** Summing a concatenation sums the parts. */
  lemma {:induction false} SumAppend(a: seq<Record>, b: seq<Record>)
    ensures Sum(a + b) == Sum(a) + Sum(b)
    decreases |b|
  {
    if b != [] {
      var b' := b[..|b| - 1];
      assert (a + b)[..|a + b| - 1] == a + b';
      SumAppend(a, b');
    } else {
      assert a + b == a;
    }
  }

  /** When every row holds between lo and hi points, the sum lies between |rows|*lo and |rows|*hi. */
  lemma {:induction false} SumBounds(rows: seq<Record>, lo: real, hi: real)
    requires forall k :: 0 <= k < |rows| ==> lo <= rows[k].points <= hi
    ensures |rows| as real * lo <= Sum(rows) <= |rows| as real * hi
    decreases |rows|
  {
    if rows != [] {
      SumBounds(rows[..|rows| - 1], lo, hi);
    }
  }

  /** The rows the store returns for `.eq("user_id", user).eq("date", day)`, in stored order. */
  function Select(records: seq<Record>, user: string, day: Date): (rows: seq<Record>)
    ensures |rows| <= |records|
    ensures forall r :: r in rows <==> r in records && r.userId == user && r.date == day
    ensures forall r :: multiset(rows)[r] == if r.userId == user && r.date == day then multiset(records)[r] else 0
  {
    if records == [] then []
    else
      var last := records[|records| - 1];
      var init := records[..|records| - 1];
      assert records == init + [last];
      assert multiset(records) == multiset(init) + multiset{last};
      Select(init, user, day) + (if last.userId == user && last.date == day then [last] else [])
  }

  /** The sum does not depend on the order of the rows: rows that are a permutation of each other sum alike. */
  lemma {:induction false} SumOrderFree(a: seq<Record>, b: seq<Record>)
    requires multiset(a) == multiset(b)
    ensures Sum(a) == Sum(b)
    decreases |a|
  {
    if a == [] {
      assert |b| == |multiset(b)| == 0;
    } else {
      var last := a[|a| - 1];
      var init := a[..|a| - 1];
      assert a == init + [last];
      assert multiset(a) == multiset(init) + multiset{last};
      assert last in multiset(b);
      var i :| 0 <= i < |b| && b[i] == last;
      var rest := Without(b, i);
      WithoutMultiset(b, i);
      MultisetCancel(multiset(init), multiset(rest), last);
      WithoutSum(b, i);
      SumOrderFree(init, rest);
    }
  }

  /** rows with the row at index i taken out. */
  function Without(rows: seq<Record>, i: nat): seq<Record>
    requires i < |rows|
  {
    rows[..i] + rows[i + 1..]
  }

  /** Taking out the row at index i removes one copy of it. */
  lemma WithoutMultiset(rows: seq<Record>, i: nat)
    requires i < |rows|
    ensures multiset(rows) == multiset(Without(rows, i)) + multiset{rows[i]}
  {
    SplitAround(rows, i);
  }

  /** Taking out the row at index i removes its points from the sum. */
  lemma WithoutSum(rows: seq<Record>, i: nat)
    requires i < |rows|
    ensures Sum(rows) == Sum(Without(rows, i)) + rows[i].points
  {
    SplitAround(rows, i);
    SumAround(rows[..i], rows[i], rows[i + 1..]);
  }

  lemma SplitAround(rows: seq<Record>, i: nat)
    requires i < |rows|
    ensures rows == rows[..i] + [rows[i]] + rows[i + 1..]
  {
  }

  lemma MultisetCancel(p: multiset<Record>, q: multiset<Record>, x: Record)
    requires p + multiset{x} == q + multiset{x}
    ensures p == q
  {
    forall r
      ensures p[r] == q[r]
    {
      assert (p + multiset{x})[r] == (q + multiset{x})[r];
    }
  }

  lemma SumAround(pre: seq<Record>, x: Record, post: seq<Record>)
    ensures Sum(pre + [x] + post) == Sum(pre + post) + x.points
  {
    SumAppend(pre + [x], post);
    SumAppend(pre, post);
    assert (pre + [x])[..|pre|] == pre;
  }

  /** Today's total for a user, as the daily-points query and summation produce it. */
  function DailyTotal(records: seq<Record>, user: string, day: Date): real {
    Sum(Select(records, user, day))
  }

  /** Records that are the same rows in another order give every user the same total for every day. */
  lemma DailyTotalOrderFree(records: seq<Record>, other: seq<Record>, user: string, day: Date)
    requires multiset(records) == multiset(other)
    ensures DailyTotal(records, user, day) == DailyTotal(other, user, day)
  {
    var a, b := Select(records, user, day), Select(other, user, day);
    assert multiset(a) == multiset(b) by {
      forall r
        ensures multiset(a)[r] == multiset(b)[r]
      {
      }
    }
    SumOrderFree(a, b);
  }

  /**
   * get_user_daily_points' loop: add up the points of the returned rows,
   * starting from 0.  The result is their sum, and 0 when there are none.
   */
  method DailyPoints(rows: seq<Record>) returns (total: real)
    ensures total == Sum(rows)
    ensures rows == [] ==> total == 0.0
  {
    total := 0.0;
    for i := 0 to |rows|
      invariant total == Sum(rows[..i])
    {
      assert rows[..i + 1][..i] == rows[..i];
      total := total + rows[i].points;
    }
    assert rows[..|rows|] == rows;
  }

  /**
   * Appending a record (add_record never merges or deduplicates) adds its
   * points to the total of its own user and day and leaves every other
   * user's and day's total as it was.
   */
  lemma AppendRecordTotal(records: seq<Record>, r: Record, user: string, day: Date)
    ensures DailyTotal(records + [r], user, day)
            == DailyTotal(records, user, day) + (if r.userId == user && r.date == day then r.points else 0.0)
  {
    var all := records + [r];
    assert all[..|all| - 1] == records;
    var sel := Select(records, user, day);
    if r.userId == user && r.date == day {
      SumAppend(sel, [r]);
      assert Sum([r]) == r.points by {
        assert [r][..0] == [];
      }
    } else {
      assert sel + [] == sel;
    }
  }

}
