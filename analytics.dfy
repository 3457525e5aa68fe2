/** The two read-only analytics of the store: a fencer's overall
    statistics, and their performance trend tournament by tournament. Both
    are functions of a snapshot of the six collections, so neither can
    change the store. */
module Analytics {
  import opened Model
  import opened Collections
  import Helpers

  // ---- Counting and summing ----

  /** `s.filter(p).length`. */
  function Count<T(!new)>(s: seq<T>, p: T -> bool): (n: nat)
    ensures n <= |s|
    ensures n == |s| <==> forall x :: x in s ==> p(x)
    ensures n == 0 <==> forall x :: x in s ==> !p(x)
  {
    if |s| == 0 then 0 else (if p(s[0]) then 1 else 0) + Count(s[1..], p)
  }

  /** `s.reduce((sum, x) => sum + f(x), 0)`. */
  function Sum<T>(s: seq<T>, f: T -> int): (r: int)
    ensures (forall x :: x in s ==> 0 <= f(x)) ==> 0 <= r
    ensures (forall x :: x in s ==> f(x) == 0) ==> r == 0
  {
    if |s| == 0 then 0
    else
      assert forall x :: x in s[1..] ==> x in s;
      f(s[0]) + Sum(s[1..], f)
  }

  /** A difference of sums is the sum of differences. */
  lemma {:induction false} SumDifference<T>(s: seq<T>, f: T -> int, g: T -> int, h: T -> int)
    requires forall x :: h(x) == f(x) - g(x)
    ensures Sum(s, h) == Sum(s, f) - Sum(s, g)
  {
    if |s| > 0 { SumDifference(s[1..], f, g, h); }
  }

  function Won(b: Bout): bool { b.data.victory }
  function DEWon(d: DEBout): bool { d.data.victory }

  /** `bout.scoreFor || 0`: a missing score counts as 0. */
  function Scored(b: Bout): (n: int)
    ensures b.data.scoreFor.None? ==> n == 0
    ensures b.data.scoreFor.Some? ==> n == b.data.scoreFor.value
  {
    if b.data.scoreFor.Some? then b.data.scoreFor.value else 0
  }

  /** `bout.scoreAgainst || 0`. */
  function Received(b: Bout): (n: int)
    ensures b.data.scoreAgainst.None? ==> n == 0
    ensures b.data.scoreAgainst.Some? ==> n == b.data.scoreAgainst.value
  {
    if b.data.scoreAgainst.Some? then b.data.scoreAgainst.value else 0
  }
  function Margin(b: Bout): int { Scored(b) - Received(b) }

  // ---- Following the references ----

  /** The pool bouts of the entries `es`: bouts whose pool belongs to one
      of them. */
  function PoolBouts(db: Db, es: set<Id>): seq<Bout> {
    Keep(db.bouts, BoutPool, Keys(Keep(db.pools, PoolEntry, es), IdOf))
  }

  /** A bout is counted exactly when it is reachable: it is in the store
      and some pool of one of the entries carries its pool id. */
  lemma PoolBoutsReachable(db: Db, es: set<Id>, b: Bout)
    ensures b in PoolBouts(db, es) <==>
              b in db.bouts && exists p :: p in db.pools && p.data.entryId in es && p.id == b.data.poolId
  {
    var ps := Keep(db.pools, PoolEntry, es);
    if b in PoolBouts(db, es) {
      var p := KeyWitness(ps, IdOf, b.data.poolId);
      assert p in db.pools && p.data.entryId in es;
    }
    if b in db.bouts && exists p :: p in db.pools && p.data.entryId in es && p.id == b.data.poolId {
      var p :| p in db.pools && p.data.entryId in es && p.id == b.data.poolId;
      assert p in ps;
    }
  }

  /** `entry => entry.fencerId === fencerId`. */
  function OfFencer(fencerId: Id): Entry -> bool {
    (e: Entry) => e.data.fencerId == fencerId
  }

  /** The key filter on a fencer's id keeps as many entries as the
      predicate counts. */
  lemma {:induction false} KeepCount(es: seq<Entry>, fencerId: Id)
    ensures |Keep(es, EntryFencer, {fencerId})| == Count(es, OfFencer(fencerId))
  {
    if |es| > 0 { KeepCount(es[1..], fencerId); }
  }

  function FencerEntries(db: Db, fencerId: Id): seq<Entry> {
    Keep(db.entries, EntryFencer, {fencerId})
  }

  /** The DE bouts of all of a fencer's entries. */
  function FencerDEBouts(db: Db, fencerId: Id): seq<DEBout> {
    Keep(db.deBouts, DEBoutEntry, Keys(FencerEntries(db, fencerId), IdOf))
  }

  /** The pool bouts of all of a fencer's entries. */
  function FencerPoolBouts(db: Db, fencerId: Id): seq<Bout> {
    PoolBouts(db, Keys(FencerEntries(db, fencerId), IdOf))
  }

  // ---- getFencerStats ----

  datatype FencerStats = FencerStats(
    totalTournaments: nat, totalPoolBouts: nat, poolVictories: nat, poolWinPercentage: real,
    touchesScored: int, touchesReceived: int, indicator: int,
    totalDEBouts: nat, deVictories: nat, deWinPercentage: real)

  /** getFencerStats: fencer, then entries, then pools, then bouts and DE
      bouts, and the counts and sums over them. */
  function GetFencerStats(db: Db, fencerId: Id): (r: FencerStats)
    ensures r.poolVictories <= r.totalPoolBouts && r.deVictories <= r.totalDEBouts
    ensures 0.0 <= r.poolWinPercentage <= 100.0 && 0.0 <= r.deWinPercentage <= 100.0
    ensures r.poolWinPercentage == Helpers.WinPercentage(r.poolVictories, r.totalPoolBouts)
    ensures r.deWinPercentage == Helpers.WinPercentage(r.deVictories, r.totalDEBouts)
    ensures r.totalPoolBouts == |FencerPoolBouts(db, fencerId)|
    ensures r.poolVictories == Count(FencerPoolBouts(db, fencerId), Won)
    ensures r.touchesScored == Sum(FencerPoolBouts(db, fencerId), Scored)
    ensures r.touchesReceived == Sum(FencerPoolBouts(db, fencerId), Received)
    ensures r.indicator == r.touchesScored - r.touchesReceived
    ensures r.totalDEBouts == |FencerDEBouts(db, fencerId)|
    ensures r.deVictories == Count(FencerDEBouts(db, fencerId), DEWon)
    ensures r.indicator == Sum(FencerPoolBouts(db, fencerId), Margin)
    ensures r.totalTournaments == Count(db.entries, OfFencer(fencerId))
  {
    var fencerEntries := FencerEntries(db, fencerId);
    var fencerBouts := FencerPoolBouts(db, fencerId);
    var fencerDEBouts := FencerDEBouts(db, fencerId);
    var totalBouts := |fencerBouts|;
    var victories := Count(fencerBouts, Won);
    var touchesScored := Sum(fencerBouts, Scored);
    var touchesReceived := Sum(fencerBouts, Received);
    var totalDEBouts := |fencerDEBouts|;
    var deVictories := Count(fencerDEBouts, DEWon);
    SumDifference(fencerBouts, Scored, Received, Margin);
    KeepCount(db.entries, fencerId);
    FencerStats(|fencerEntries|, totalBouts, victories, Helpers.WinPercentage(victories, totalBouts),
                touchesScored, touchesReceived, touchesScored - touchesReceived,
                totalDEBouts, deVictories, Helpers.WinPercentage(deVictories, totalDEBouts))
  }

  /** The pool part of getFencerStats is what calculatePoolStats computes
      for the same bouts, as long as every bout has both scores. */
  lemma {:induction false} PoolStatsAgree(bs: seq<Bout>)
    requires bs != []
    requires forall b :: b in bs ==> b.data.scoreFor.Some? && b.data.scoreAgainst.Some?
    ensures Helpers.CalculatePoolStats(Some(bs)) ==
              Helpers.PoolStats(Count(bs, Won), |bs|, Helpers.WinPercentage(Count(bs, Won), |bs|),
                                Helpers.Finite(Sum(bs, Scored)), Helpers.Finite(Sum(bs, Received)),
                                Helpers.Finite(Sum(bs, Scored) - Sum(bs, Received)))
  {
    VictoriesCount(bs);
    ReduceSums(bs);
  }

  lemma {:induction false} VictoriesCount(bs: seq<Bout>)
    ensures |Helpers.Victories(bs)| == Count(bs, Won)
  {
    if |bs| > 0 { VictoriesCount(bs[1..]); }
  }

  lemma {:induction false} SumSnoc<T>(s: seq<T>, x: T, f: T -> int)
    ensures Sum(s + [x], f) == Sum(s, f) + f(x)
  {
    if |s| > 0 {
      assert (s + [x])[1..] == s[1..] + [x];
      SumSnoc(s[1..], x, f);
    }
  }

  lemma SnocSplit<T>(s: seq<T>)
    requires |s| > 0
    ensures s == s[..|s| - 1] + [s[|s| - 1]]
    ensures s[|s| - 1] in s && forall x :: x in s[..|s| - 1] ==> x in s
  {
  }

  /** The left fold with `+` equals the sum when no score is missing. */
  lemma ReduceSums(bs: seq<Bout>)
    requires forall b :: b in bs ==> b.data.scoreFor.Some? && b.data.scoreAgainst.Some?
    ensures Helpers.ReduceScoreFor(bs) == Helpers.Finite(Sum(bs, Scored))
    ensures Helpers.ReduceScoreAgainst(bs) == Helpers.Finite(Sum(bs, Received))
  {
    ReduceScoredSum(bs);
    ReduceReceivedSum(bs);
  }

  lemma {:induction false} ReduceScoredSum(bs: seq<Bout>)
    requires forall b :: b in bs ==> b.data.scoreFor.Some?
    ensures Helpers.ReduceScoreFor(bs) == Helpers.Finite(Sum(bs, Scored))
  {
    if |bs| > 0 {
      var init, last := bs[..|bs| - 1], bs[|bs| - 1];
      SnocSplit(bs);
      ReduceScoredSum(init);
      SumSnoc(init, last, Scored);
      assert Helpers.ReduceScoreFor(bs) == Helpers.Plus(Helpers.ReduceScoreFor(init), last.data.scoreFor);
    }
  }

  lemma {:induction false} ReduceReceivedSum(bs: seq<Bout>)
    requires forall b :: b in bs ==> b.data.scoreAgainst.Some?
    ensures Helpers.ReduceScoreAgainst(bs) == Helpers.Finite(Sum(bs, Received))
  {
    if |bs| > 0 {
      var init, last := bs[..|bs| - 1], bs[|bs| - 1];
      SnocSplit(bs);
      ReduceReceivedSum(init);
      SumSnoc(init, last, Received);
      assert Helpers.ReduceScoreAgainst(bs) == Helpers.Plus(Helpers.ReduceScoreAgainst(init), last.data.scoreAgainst);
    }
  }

  /** The fencer's pool statistics agree with calculatePoolStats on the
      same bouts when every bout has its scores. */
  lemma FencerStatsMatchPoolStats(db: Db, fencerId: Id)
    requires forall b :: b in FencerPoolBouts(db, fencerId) ==>
               b.data.scoreFor.Some? && b.data.scoreAgainst.Some?
    ensures var r := GetFencerStats(db, fencerId);
            var c := Helpers.CalculatePoolStats(Some(FencerPoolBouts(db, fencerId)));
            && c.bouts == r.totalPoolBouts && c.victories == r.poolVictories
            && c.winPercentage == r.poolWinPercentage
            && c.touchesScored == Helpers.Finite(r.touchesScored)
            && c.touchesReceived == Helpers.Finite(r.touchesReceived)
            && c.indicator == Helpers.Finite(r.indicator)
  {
    if FencerPoolBouts(db, fencerId) != [] { PoolStatsAgree(FencerPoolBouts(db, fencerId)); }
  }

  /** Alice's one entry has one pool with a 5-3 win and a 4-5 loss. */
  const AliceStore: Db := Db(
    [Rec("alice", "s", None, FencerData("Alice", 0, "F", "", "F", "", "U"))],
    [Rec("t", "s", None, TournamentData("Regional Open", "", 10, 10, "Regional"))],
    [Rec("e", "s", None, EntryData("alice", "t", "F", "Senior", 1, 1, ""))],
    [Rec("p", "s", None, PoolData("e", 1, 7))],
    [Rec("b1", "s", None, BoutData("p", "Bo", Some(5), Some(3), true)),
     Rec("b2", "s", None, BoutData("p", "Cy", Some(4), Some(5), false))],
    [])

  /** Her statistics: two pool bouts, one victory, 50 percent, 9 touches
      scored, 8 received, indicator 1, and no DE bouts. */
  lemma AliceStats()
    ensures GetFencerStats(AliceStore, "alice") == FencerStats(1, 2, 1, 50.0, 9, 8, 1, 0, 0, 0.0)
  {
    var db := AliceStore;
    assert FencerEntries(db, "alice") == db.entries;
    assert Keys(db.entries, IdOf) == {"e"};
    assert Keep(db.pools, PoolEntry, {"e"}) == db.pools;
    assert Keys(db.pools, IdOf) == {"p"};
    assert Keep(db.bouts, BoutPool, {"p"}) == db.bouts;
    assert FencerPoolBouts(db, "alice") == db.bouts;
  }

  // ---- getPerformanceTrend ----

  datatype TrendPoint = TrendPoint(
    tournamentId: Id, tournamentName: string, date: Date,
    winPercentage: real, indicator: int, finalPlacing: nat)

  /** One entry's point, or null when its tournament is gone; the figures
      come from that entry's own pool bouts. */
  function EntryPoint(db: Db, e: Entry): (r: Option<TrendPoint>)
    ensures r.None? <==> e.data.tournamentId !in Keys(db.tournaments, IdOf)
  {
    match Find(db.tournaments, IdOf, e.data.tournamentId)
    case None => None
    case Some(tournament) =>
      var entryBouts := PoolBouts(db, {e.id});
      var totalBouts := |entryBouts|;
      var victories := Count(entryBouts, Won);
      var touchesScored := Sum(entryBouts, Scored);
      var touchesReceived := Sum(entryBouts, Received);
      Some(TrendPoint(tournament.id, tournament.data.name, tournament.data.startDate,
                      Helpers.WinPercentage(victories, totalBouts), touchesScored - touchesReceived,
                      e.data.finalPlacing))
  }

  /** What a point says: the tournament's id, the name and start date of
      the first tournament with that id (what getTournament finds), the
      entry's placing, and the win percentage and indicator of the entry's
      own pool bouts. */
  lemma EntryPointFigures(db: Db, e: Entry)
    requires EntryPoint(db, e).Some?
    ensures var x := EntryPoint(db, e).value;
            && x.tournamentId == e.data.tournamentId
            && x.finalPlacing == e.data.finalPlacing
            && (var t := Find(db.tournaments, IdOf, e.data.tournamentId);
                t.Some? && x.tournamentName == t.value.data.name && x.date == t.value.data.startDate)
            && 0.0 <= x.winPercentage <= 100.0
            && x.winPercentage == Helpers.WinPercentage(Count(PoolBouts(db, {e.id}), Won), |PoolBouts(db, {e.id})|)
            && x.indicator == Sum(PoolBouts(db, {e.id}), Margin)
  {
    var entryBouts := PoolBouts(db, {e.id});
    SumDifference(entryBouts, Scored, Received, Margin);
  }

  /** A point's win percentage and indicator are what calculatePoolStats
      gives for the entry's pool bouts, when every bout has its scores. */
  lemma EntryPointMatchesPoolStats(db: Db, e: Entry)
    requires e.data.tournamentId in Keys(db.tournaments, IdOf)
    requires forall b :: b in PoolBouts(db, {e.id}) ==> b.data.scoreFor.Some? && b.data.scoreAgainst.Some?
    ensures var x := EntryPoint(db, e).value;
            var c := Helpers.CalculatePoolStats(Some(PoolBouts(db, {e.id})));
            && c.winPercentage == x.winPercentage
            && c.indicator == Helpers.Finite(x.indicator)
  {
    if PoolBouts(db, {e.id}) != [] { PoolStatsAgree(PoolBouts(db, {e.id})); }
  }

  /** `es.map(entry => point or null).filter(item => item !== null)`. */
  function Points(db: Db, es: seq<Entry>): (r: seq<TrendPoint>)
    ensures |r| <= |es|
  {
    if |es| == 0 then []
    else
      var rest := Points(db, es[1..]);
      match EntryPoint(db, es[0])
      case None => rest
      case Some(x) => [x] + rest
  }

  /** The entries whose tournament still exists. */
  function Located(db: Db, es: seq<Entry>): (r: seq<Entry>)
    ensures forall e :: e in r <==> e in es && e.data.tournamentId in Keys(db.tournaments, IdOf)
  {
    if |es| == 0 then []
    else if es[0].data.tournamentId in Keys(db.tournaments, IdOf) then [es[0]] + Located(db, es[1..])
    else Located(db, es[1..])
  }

  /** Exactly one point per entry whose tournament exists, in entry order. */
  lemma PointsOnePerEntry(db: Db, es: seq<Entry>)
    ensures |Points(db, es)| == |Located(db, es)|
    ensures forall k :: 0 <= k < |Points(db, es)| ==>
              EntryPoint(db, Located(db, es)[k]) == Some(Points(db, es)[k])
  {
    PointsLength(db, es);
    forall k | 0 <= k < |Points(db, es)|
      ensures EntryPoint(db, Located(db, es)[k]) == Some(Points(db, es)[k])
    {
      PointAt(db, es, k);
    }
  }

  lemma {:induction false} PointsLength(db: Db, es: seq<Entry>)
    ensures |Points(db, es)| == |Located(db, es)|
  {
    if |es| > 0 {
      PointsLength(db, es[1..]);
      assert EntryPoint(db, es[0]).None? <==> es[0].data.tournamentId !in Keys(db.tournaments, IdOf);
    }
  }

  /** The `k`-th point is the point of the `k`-th entry whose tournament
      exists. */
  lemma {:induction false} PointAt(db: Db, es: seq<Entry>, k: nat)
    requires k < |Points(db, es)|
    ensures |Points(db, es)| == |Located(db, es)|
    ensures EntryPoint(db, Located(db, es)[k]) == Some(Points(db, es)[k])
  {
    PointsLength(db, es);
    var here := EntryPoint(db, es[0]);
    assert here.None? <==> es[0].data.tournamentId !in Keys(db.tournaments, IdOf);
    if here.None? {
      PointAt(db, es[1..], k);
    } else if k > 0 {
      PointAt(db, es[1..], k - 1);
    }
  }

  predicate SortedByDate(s: seq<TrendPoint>) {
    forall i, j :: 0 <= i < j < |s| ==> s[i].date <= s[j].date
  }

  /** Puts `x` in front of the first point that is not earlier than it. */
  function InsertByDate(x: TrendPoint, s: seq<TrendPoint>): (r: seq<TrendPoint>)
    requires SortedByDate(s)
    ensures SortedByDate(r)
    ensures multiset(r) == multiset(s) + multiset{x}
    ensures forall y :: y in r ==> y in s || y == x
  {
    if |s| == 0 || x.date <= s[0].date then
      assert forall y :: y in [x] + s ==> y in s || y == x;
      [x] + s
    else
      var rest := InsertByDate(x, s[1..]);
      assert s == [s[0]] + s[1..];
      HeadNotLater(x, s, rest);
      SortedCons(s[0], rest);
      [s[0]] + rest
  }

  lemma HeadNotLater(x: TrendPoint, s: seq<TrendPoint>, rest: seq<TrendPoint>)
    requires SortedByDate(s) && |s| > 0 && s[0].date < x.date
    requires forall y :: y in rest ==> y in s[1..] || y == x
    ensures forall y :: y in rest ==> s[0].date <= y.date
  {
    forall y | y in rest ensures s[0].date <= y.date {
      if y != x {
        var i :| 0 <= i < |s[1..]| && s[1..][i] == y;
        assert s[i + 1] == y;
      }
    }
  }

  lemma SortedCons(x: TrendPoint, s: seq<TrendPoint>)
    requires SortedByDate(s)
    requires forall y :: y in s ==> x.date <= y.date
    ensures SortedByDate([x] + s)
  {
    var r := [x] + s;
    forall i, j | 0 <= i < j < |r| ensures r[i].date <= r[j].date {
      if i == 0 { assert r[j] in s; } else { assert r[i] == s[i - 1] && r[j] == s[j - 1]; }
    }
  }

  /** `.sort((a, b) => a.date - b.date)`: a sort by date. */
  function SortByDate(s: seq<TrendPoint>): (r: seq<TrendPoint>)
    ensures SortedByDate(r)
    ensures multiset(r) == multiset(s)
  {
    if |s| == 0 then []
    else
      assert s == [s[0]] + s[1..];
      InsertByDate(s[0], SortByDate(s[1..]))
  }

  /** getPerformanceTrend: the fencer's points, earliest tournament first. */
  function GetPerformanceTrend(db: Db, fencerId: Id): (r: seq<TrendPoint>)
    ensures SortedByDate(r)
    ensures multiset(r) == multiset(Points(db, FencerEntries(db, fencerId)))
  {
    SortByDate(Points(db, FencerEntries(db, fencerId)))
  }

  /** The trend holds one point for each of the fencer's entries whose
      tournament exists, and each point is the point of such an entry. */
  lemma TrendCoversEntries(db: Db, fencerId: Id)
    ensures |GetPerformanceTrend(db, fencerId)| == |Located(db, FencerEntries(db, fencerId))|
    ensures forall x :: x in GetPerformanceTrend(db, fencerId) ==>
              exists e :: e in Located(db, FencerEntries(db, fencerId)) && EntryPoint(db, e) == Some(x)
  {
    var es := FencerEntries(db, fencerId);
    var ps := Points(db, es);
    var r := GetPerformanceTrend(db, fencerId);
    PointsOnePerEntry(db, es);
    assert |r| == |multiset(r)| == |multiset(ps)| == |ps|;
    forall x | x in r
      ensures exists e :: e in Located(db, es) && EntryPoint(db, e) == Some(x)
    {
      assert x in multiset(ps);
      var k :| 0 <= k < |ps| && ps[k] == x;
      assert Located(db, es)[k] in Located(db, es);
    }
  }
}
