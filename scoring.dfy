/**
 * The points a logged amount earns (get_points in bot.py) and the text
 * Python prints for them.  An amount is a signed number of ounces relative to
 * the neutral daily target; only its order against eight fixed cutoffs
 * matters, so it is modelled as a real.
 */
module Scoring {
  import opened Text

  /** The cutoffs of the step table, ascending. */
  const Cutoffs: seq<real> := [-120.0, -90.0, -60.0, -24.0, 24.0, 60.0, 90.0, 120.0]

  /** The nine values get_points can return. */
  predicate IsScore(p: real) {
    p == -2.0 || p == -1.5 || p == -1.0 || p == -0.5 || p == 0.0
    || p == 0.5 || p == 1.0 || p == 1.5 || p == 2.0
  }

  /**
   * get_points: a chain of strict `<` tests against the ascending cutoffs;
   * the first that holds decides, and an amount of 120 or more scores 2.
   */
  function GetPoints(oz: real): (r: real)
    ensures IsScore(r)
    ensures -2.0 <= r <= 2.0
  {
    if oz < -120.0 then -2.0
    else if oz < -90.0 then -1.5
    else if oz < -60.0 then -1.0
    else if oz < -24.0 then -0.5
    else if oz < 24.0 then 0.0
    else if oz < 60.0 then 0.5
    else if oz < 90.0 then 1.0
    else if oz < 120.0 then 1.5
    else 2.0
  }

  /** How many of the cutoffs cs lie at or below oz. */
  function Reached(cs: seq<real>, oz: real): (n: nat)
    ensures n <= |cs|
  {
    if cs == [] then 0 else (if cs[0] <= oz then 1 else 0) + Reached(cs[1..], oz)
  }

  lemma {:induction false} ReachedMonotone(cs: seq<real>, x: real, y: real)
    requires x <= y
    ensures Reached(cs, x) <= Reached(cs, y)
    decreases |cs|
  {
    if cs != [] {
      ReachedMonotone(cs[1..], x, y);
    }
  }

  /**
   * The step table read as a staircase: the score starts at -2 and rises
   * by half a point at every cutoff the amount reaches.
   */
  lemma PointsCountCutoffs(oz: real)
    ensures GetPoints(oz) == -2.0 + 0.5 * Reached(Cutoffs, oz) as real
  {
    var c := Cutoffs;
    assert Reached(c[8..], oz) == 0;
    assert Reached(c[7..], oz) == (if 120.0 <= oz then 1 else 0) + Reached(c[8..], oz);
    assert Reached(c[6..], oz) == (if 90.0 <= oz then 1 else 0) + Reached(c[7..], oz);
    assert Reached(c[5..], oz) == (if 60.0 <= oz then 1 else 0) + Reached(c[6..], oz);
    assert Reached(c[4..], oz) == (if 24.0 <= oz then 1 else 0) + Reached(c[5..], oz);
    assert Reached(c[3..], oz) == (if -24.0 <= oz then 1 else 0) + Reached(c[4..], oz);
    assert Reached(c[2..], oz) == (if -60.0 <= oz then 1 else 0) + Reached(c[3..], oz);
    assert Reached(c[1..], oz) == (if -90.0 <= oz then 1 else 0) + Reached(c[2..], oz);
    assert Reached(c, oz) == (if -120.0 <= oz then 1 else 0) + Reached(c[1..], oz);
  }

  /** A larger amount never scores less. */
  lemma GetPointsMonotone(x: real, y: real)
    requires x <= y
    ensures GetPoints(x) <= GetPoints(y)
  {
    PointsCountCutoffs(x);
    PointsCountCutoffs(y);
    ReachedMonotone(Cutoffs, x, y);
  }

  /** The neutral band: exactly the amounts in [-24, 24) score nothing. */
  lemma NeutralBand(oz: real)
    ensures GetPoints(oz) == 0.0 <==> -24.0 <= oz < 24.0
  {
  }

  /** A positive score means at least 24 oz over; a negative one more than 24 oz under. */
  lemma ScoreSign(oz: real)
    ensures GetPoints(oz) > 0.0 <==> oz >= 24.0
    ensures GetPoints(oz) < 0.0 <==> oz < -24.0
  {
  }

  /** Each comparison is strict, so every cutoff belongs to the band above it. */
  lemma Boundaries()
    ensures GetPoints(-24.0) == 0.0 && GetPoints(24.0) == 0.5
    ensures GetPoints(119.999) == 1.5 && GetPoints(120.0) == 2.0
    ensures GetPoints(60.0) == 1.0 && GetPoints(-60.0) == -0.5
    ensures GetPoints(-120.0) == -1.5 && GetPoints(-120.001) == -2.0
  {
  }

  /**
   * The table is symmetric about zero everywhere except at the cutoffs
   * themselves, where the strict comparisons put +c and -c in bands that do
   * not mirror each other (60 scores 1 but -60 scores -0.5).
   */
  lemma AntisymmetricOffCutoffs(oz: real)
    ensures GetPoints(-oz) == -GetPoints(oz) <==> oz !in Cutoffs
  {
  }

  /**
   * What Python prints for get_points' result: the whole values are
   * returned as ints and print without a decimal point, the halves are
   * floats.  The text is a minus sign for a deficit, the decimal digits of
   * the whole part of the magnitude, and ".5" for a half point.
   */
  function PointsText(p: real): (s: string)
    requires IsScore(p)
    ensures '.' in s <==> p.Floor as real != p
    ensures s != [] && (s[0] == '-' <==> p < 0.0)
    ensures var m := if p < 0.0 then -p else p;
            s == (if p < 0.0 then "-" else "") + NatToString(m.Floor) + (if m.Floor as real != m then ".5" else "")
  {
    if p == -2.0 then "-2"
    else if p == -1.5 then "-1.5"
    else if p == -1.0 then "-1"
    else if p == -0.5 then "-0.5"
    else if p == 0.0 then "0"
    else if p == 0.5 then "0.5"
    else if p == 1.0 then "1"
    else if p == 1.5 then "1.5"
    else "2"
  }

  /** No two scores print alike. */
  lemma PointsTextInjective(p: real, q: real)
    requires IsScore(p) && IsScore(q)
    requires PointsText(p) == PointsText(q)
    ensures p == q
  {
  }

}
