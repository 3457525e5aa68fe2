/** The small pure helpers of the utilities file: pool statistics over a
    list of bouts, the ordinal suffix of a placing, and the display names of
    weapon codes, age categories and DE rounds. */
module Helpers {
  import opened Model

  // ---- Numbers as the statistics see them ----

  /** A JavaScript number in these sums: an integer, or NaN once an
      undefined score has been added in. */
  datatype Num = Finite(n: int) | NaN

  /** `sum + x` where `x` may be undefined: NaN absorbs, and so does an
      undefined operand. */
  function Plus(sum: Num, x: Option<int>): (r: Num)
    ensures r.NaN? <==> sum.NaN? || x.None?
    ensures r.Finite? ==> r.n - sum.n == x.value
  {
    if sum.Finite? && x.Some? then Finite(sum.n + x.value) else NaN
  }

  /** `a - b`, NaN when either side is. */
  function Minus(a: Num, b: Num): (r: Num)
    ensures r.NaN? <==> a.NaN? || b.NaN?
    ensures r.Finite? ==> r.n + b.n == a.n
  {
    if a.Finite? && b.Finite? then Finite(a.n - b.n) else NaN
  }

  datatype PoolStats = PoolStats(
    victories: nat, bouts: nat, winPercentage: real,
    touchesScored: Num, touchesReceived: Num, indicator: Num)

  /** The share of bouts won, in percent: `(victories / total) * 100`, and
      0 when there are no bouts (the guard getFencerStats writes out, and
      calculatePoolStats gets from its early return). */
  function WinPercentage(victories: nat, total: nat): (pct: real)
    ensures total == 0 ==> pct == 0.0
    ensures total > 0 ==> pct * (total as real) == 100.0 * (victories as real)
    ensures victories <= total ==> 0.0 <= pct <= 100.0
  {
    if total > 0 then (victories as real / total as real) * 100.0 else 0.0
  }

  /** `bouts.filter(bout => bout.victory)`. */
  function Victories(bs: seq<Bout>): (r: seq<Bout>)
    ensures |r| <= |bs|
    ensures forall b :: b in r <==> b in bs && b.data.victory
  {
    if |bs| == 0 then []
    else if bs[0].data.victory then [bs[0]] + Victories(bs[1..])
    else Victories(bs[1..])
  }

  /** `bouts.reduce((sum, bout) => sum + bout.scoreFor, 0)`, folding from
      the left: NaN exactly when some bout lacks the score. */
  function ReduceScoreFor(bs: seq<Bout>): (r: Num)
    ensures r.NaN? <==> exists b :: b in bs && b.data.scoreFor.None?
  {
    if |bs| == 0 then Finite(0)
    else
      var init, last := bs[..|bs| - 1], bs[|bs| - 1];
      assert bs == init + [last];
      assert forall b :: b in bs <==> b in init || b == last;
      Plus(ReduceScoreFor(init), last.data.scoreFor)
  }

  /** `bouts.reduce((sum, bout) => sum + bout.scoreAgainst, 0)`. */
  function ReduceScoreAgainst(bs: seq<Bout>): (r: Num)
    ensures r.NaN? <==> exists b :: b in bs && b.data.scoreAgainst.None?
  {
    if |bs| == 0 then Finite(0)
    else
      var init, last := bs[..|bs| - 1], bs[|bs| - 1];
      assert bs == init + [last];
      assert forall b :: b in bs <==> b in init || b == last;
      Plus(ReduceScoreAgainst(init), last.data.scoreAgainst)
  }

  /** calculatePoolStats: a missing or empty list gives zeros throughout;
      otherwise the counts, the win percentage and the touch sums of the
      list, a touch sum being NaN exactly when some bout lacks that score. */
  function CalculatePoolStats(bouts: Option<seq<Bout>>): (r: PoolStats)
    ensures bouts.None? || bouts.value == [] ==>
              r == PoolStats(0, 0, 0.0, Finite(0), Finite(0), Finite(0))
    ensures bouts.Some? && bouts.value != [] ==>
              && r.bouts == |bouts.value|
              && r.victories <= r.bouts
              && r.victories == |Victories(bouts.value)|
              && r.winPercentage == WinPercentage(r.victories, r.bouts)
    ensures bouts.Some? ==> (r.touchesScored.NaN? <==> exists b :: b in bouts.value && b.data.scoreFor.None?)
    ensures bouts.Some? ==> (r.touchesReceived.NaN? <==> exists b :: b in bouts.value && b.data.scoreAgainst.None?)
    ensures r.indicator.Finite? <==> r.touchesScored.Finite? && r.touchesReceived.Finite?
    ensures r.indicator.Finite? ==> r.indicator.n == r.touchesScored.n - r.touchesReceived.n
  {
    if bouts.None? || |bouts.value| == 0 then
      PoolStats(0, 0, 0.0, Finite(0), Finite(0), Finite(0))
    else
      var bs := bouts.value;
      var victories := |Victories(bs)|;
      var total := |bs|;
      var winPercentage := WinPercentage(victories, total);
      var scored := ReduceScoreFor(bs);
      var received := ReduceScoreAgainst(bs);
      PoolStats(victories, total, winPercentage, scored, received, Minus(scored, received))
  }

  // ---- Decimal rendering of whole numbers ----

  function Digit(d: nat): (c: char)
    requires d < 10
    ensures '0' <= c <= '9' && (c as int) - ('0' as int) == d
  {
    (('0' as int) + d) as char
  }

  predicate AllDigits(s: string) {
    forall i :: 0 <= i < |s| ==> '0' <= s[i] <= '9'
  }

  /** How a number prints when it is concatenated to a string, for the
      numbers JavaScript prints in plain digits (below 1e21). */
  function Decimal(n: nat): (s: string)
    ensures |s| >= 1 && AllDigits(s)
    ensures s[0] == '0' ==> n == 0
  {
    if n < 10 then [Digit(n)] else Decimal(n / 10) + [Digit(n % 10)]
  }

  /** The value of a string of decimal digits. */
  function DecimalValue(s: string): nat
    requires AllDigits(s)
  {
    if |s| == 0 then 0 else 10 * DecimalValue(s[..|s| - 1]) + ((s[|s| - 1] as int) - ('0' as int))
  }

  /** Reading the printed number back gives the number. */
  lemma {:induction false} DecimalRoundTrip(n: nat)
    ensures DecimalValue(Decimal(n)) == n
  {
    if n >= 10 {
      DecimalRoundTrip(n / 10);
      var s := Decimal(n);
      assert s[..|s| - 1] == Decimal(n / 10);
    }
  }

  /** Two numbers print the same only when they are equal. */
  lemma DecimalInjective(m: nat, n: nat)
    requires Decimal(m) == Decimal(n)
    ensures m == n
  {
    DecimalRoundTrip(m);
    DecimalRoundTrip(n);
  }

  // ---- Placings ----

  /** formatPlacing: '' for 0 (no placing); otherwise the number followed
      by its English ordinal suffix, 'th' throughout the teens. */
  function FormatPlacing(placing: nat): (r: string)
    ensures placing == 0 ==> r == ""
    ensures placing > 0 && placing % 100 in {11, 12, 13} ==> r == Decimal(placing) + "th"
    ensures placing > 0 && placing % 100 !in {11, 12, 13} ==>
              r == Decimal(placing) + (if placing % 10 == 1 then "st"
                                       else if placing % 10 == 2 then "nd"
                                       else if placing % 10 == 3 then "rd"
                                       else "th")
  {
    if placing == 0 then ""
    else
      var j := placing % 10;
      var k := placing % 100;
      if j == 1 && k != 11 then Decimal(placing) + "st"
      else if j == 2 && k != 12 then Decimal(placing) + "nd"
      else if j == 3 && k != 13 then Decimal(placing) + "rd"
      else Decimal(placing) + "th"
  }

  // ---- Display names ----

  const Weapons: map<string, string> := map["F" := "Foil", "E" := "Épée", "S" := "Saber"]

  /** getWeaponName: the full name of a known weapon code; any other code
      is shown as it is. */
  function WeaponName(code: string): (r: string)
    ensures code == "F" ==> r == "Foil"
    ensures code == "E" ==> r == "Épée"
    ensures code == "S" ==> r == "Saber"
    ensures code !in {"F", "E", "S"} ==> r == code
  {
    if code in Weapons then Weapons[code] else code
  }

  const AgeCategories: map<string, string> := map[
    "Y10" := "Y10 (Under 10)", "Y12" := "Y12 (Under 12)", "Y14" := "Y14 (Under 14)",
    "Cadet" := "Cadet (Under 17)", "Junior" := "Junior (Under 20)",
    "Senior" := "Senior (Open)", "Veteran" := "Veteran (40+)"]

  /** getAgeCategoryName: a known category gets its age band appended to
      its code; any other code is shown as it is. */
  function AgeCategoryName(code: string): (r: string)
    ensures code in {"Y10", "Y12", "Y14"} ==> r == code + " (Under " + code[1..] + ")"
    ensures code == "Cadet" ==> r == "Cadet (Under 17)"
    ensures code == "Junior" ==> r == "Junior (Under 20)"
    ensures code == "Senior" ==> r == "Senior (Open)"
    ensures code == "Veteran" ==> r == "Veteran (40+)"
    ensures code !in AgeCategories ==> r == code
    ensures |r| >= |code| && r[..|code|] == code
  {
    if code in AgeCategories then AgeCategories[code] else code
  }

  const DERounds: map<nat, string> := map[
    64 := "Table of 64", 32 := "Table of 32", 16 := "Table of 16",
    8 := "Quarterfinals", 4 := "Semifinals", 2 := "Finals", 1 := "Gold Medal Bout"]

  /** getDERoundName: the tables of 64, 32 and 16 keep their size in the
      name, the last four rounds have names of their own, and any other
      round is "Round of" its size. */
  function DERoundName(round: nat): (r: string)
    ensures round in {64, 32, 16} ==> r == "Table of " + Decimal(round)
    ensures round == 8 ==> r == "Quarterfinals"
    ensures round == 4 ==> r == "Semifinals"
    ensures round == 2 ==> r == "Finals"
    ensures round == 1 ==> r == "Gold Medal Bout"
    ensures round !in {64, 32, 16, 8, 4, 2, 1} ==> r == "Round of " + Decimal(round)
  {
    if round in DERounds then DERounds[round] else "Round of " + Decimal(round)
  }
}
