/** The last stage of `parseDriverStats`: per-driver averages and
    `headWins`, min-max normalisation of four measures, and the weighted
    composite score. */
module CompositeScore {
  import opened Maybe
  import opened Seqs
  import opened Tallies
  import opened RaceData
  import opened DriverStats
  import opened HeadToHead
  import ST = SeriesTable

  // ---------------------------------------------------------------------
  // Averages

  /** The positions as numbers, `null` read as 0 (`a + null` is `a`). */
  function PositionValues(ps: seq<Option<int>>): (r: seq<real>)
    ensures |r| == |ps| && forall k :: 0 <= k < |ps| ==> r[k] == ps[k].GetOr(0) as real
  {
    seq(|ps|, k requires 0 <= k < |ps| => ps[k].GetOr(0) as real)
  }

  /** `ps.length ? ps.reduce((a, b) => a + b, 0) / ps.length : null`. */
  function Average(ps: seq<Option<int>>): Option<real> {
    if |ps| > 0 then Some(RSum(PositionValues(ps)) / |ps| as real) else None
  }

  /** The average is `null` exactly for an empty list, and otherwise lies
      between the smallest and the largest position. */
  lemma AverageSpec(ps: seq<Option<int>>)
    ensures Average(ps).None? <==> ps == []
    ensures Average(ps).Some? ==>
      RMin(PositionValues(ps)) <= Average(ps).value <= RMax(PositionValues(ps))
  {
    if ps != [] {
      MeanAtLeastMin(PositionValues(ps));
      MeanAtMostMax(PositionValues(ps));
    }
  }

  // ---------------------------------------------------------------------
  // Per-driver figures

  /** One element of `allStats`. */
  datatype Stat = Stat(name: string, team: string, teamHistory: seq<string>, points: int,
                       avgFinish: Option<real>, avgQuali: Option<real>, headWins: int)

  function StatOf(name: string, r: Record, heads: Tally): Stat
    requires r.teams != []
  {
    Stat(name, PrimaryTeam(r.teams), r.teams, r.points, Average(r.finishes), Average(r.qualis), HeadWins(heads))
  }

  /** `Array.from(drivers.entries()).map(...)`: one figure set per driver,
      in Map order. */
  function AllStats(ds: Drivers, h: Heads): (r: seq<Stat>)
    requires ds.Valid()
    ensures |r| == |ds.names|
    ensures forall i :: 0 <= i < |r| ==> r[i].name == ds.names[i]
  {
    seq(|ds.names|, i requires 0 <= i < |ds.names| => StatOf(ds.names[i], ds.records[ds.names[i]], HeadsOf(h, ds.names[i])))
  }

  // ---------------------------------------------------------------------
  // Normalisation

  /** `arr.map(v => v ?? 0)`. */
  function OrZero(arr: seq<Option<real>>): (r: seq<real>)
    ensures |r| == |arr| && forall k :: 0 <= k < |arr| ==> r[k] == arr[k].GetOr(0.0)
  {
    seq(|arr|, k requires 0 <= k < |arr| => arr[k].GetOr(0.0))
  }

  /** `(v - min) / (max - min)`, or `1 -` that when inverted; 0.5 for a
      missing value or when all values are equal. */
  function Scale(v: Option<real>, lo: real, hi: real, inverse: bool): real {
    if v.None? || hi == lo then 0.5
    else
      var ratio := (v.value - lo) / (hi - lo);
      if inverse then 1.0 - ratio else ratio
  }

  /** `normalize(arr, inverse)`. */
  function Normalize(arr: seq<Option<real>>, inverse: bool): (r: seq<real>)
    ensures |r| == |arr|
  {
    if arr == [] then []
    else
      var lo, hi := RMin(OrZero(arr)), RMax(OrZero(arr));
      seq(|arr|, i requires 0 <= i < |arr| => Scale(arr[i], lo, hi, inverse))
  }

  /** Every normalised value lies in [0, 1]. */
  lemma NormalizeInUnit(arr: seq<Option<real>>, inverse: bool, i: nat)
    requires i < |arr|
    ensures 0.0 <= Normalize(arr, inverse)[i] <= 1.0
  {
    var vals := OrZero(arr);
    var lo, hi := RMin(vals), RMax(vals);
    if arr[i].Some? && hi != lo {
      assert vals[i] == arr[i].value;
      UnitRatio(arr[i].value, lo, hi);
    }
  }

  lemma UnitRatio(v: real, lo: real, hi: real)
    requires lo <= v <= hi && lo < hi
    ensures 0.0 <= (v - lo) / (hi - lo) <= 1.0
  {
    assert (v - lo) / (hi - lo) * (hi - lo) == v - lo;
  }

  /** A missing value, or a list whose values (missing read as 0) are all
      equal, gives 0.5. */
  lemma NormalizeFallback(arr: seq<Option<real>>, inverse: bool, i: nat)
    requires i < |arr|
    requires arr[i].None? || forall j :: 0 <= j < |arr| ==> arr[j].GetOr(0.0) == arr[i].GetOr(0.0)
    ensures Normalize(arr, inverse)[i] == 0.5
  {
    var vals := OrZero(arr);
    if arr[i].Some? {
      assert RMin(vals) in vals && RMax(vals) in vals;
    }
  }

  /** When the values differ, the largest value maps to 1 and the smallest
      to 0, the other way round when inverted. */
  lemma NormalizeExtremes(arr: seq<Option<real>>, inverse: bool, i: nat, j: nat)
    requires i < |arr| && j < |arr| && arr[i].Some? && arr[j].Some?
    requires forall k :: 0 <= k < |arr| ==> arr[j].GetOr(0.0) <= arr[k].GetOr(0.0) <= arr[i].GetOr(0.0)
    requires arr[j].value < arr[i].value
    ensures Normalize(arr, inverse)[i] == if inverse then 0.0 else 1.0
    ensures Normalize(arr, inverse)[j] == if inverse then 1.0 else 0.0
  {
    var vals := OrZero(arr);
    MinMaxAt(vals, i, j);
    var lo, hi := arr[j].value, arr[i].value;
    RatioEnds(lo, hi);
  }

  /** The ratio is 0 at the minimum and 1 at the maximum. */
  lemma RatioEnds(lo: real, hi: real)
    requires lo < hi
    ensures (lo - lo) / (hi - lo) == 0.0 && (hi - lo) / (hi - lo) == 1.0
  {
  }

  lemma MinMaxAt(vals: seq<real>, i: nat, j: nat)
    requires i < |vals| && j < |vals|
    requires forall k :: 0 <= k < |vals| ==> vals[j] <= vals[k] <= vals[i]
    ensures RMin(vals) == vals[j] && RMax(vals) == vals[i]
  {
    var a :| 0 <= a < |vals| && vals[a] == RMin(vals);
    var b :| 0 <= b < |vals| && vals[b] == RMax(vals);
  }

  /** Normalising keeps the order of present values, and inverting
      reverses it. */
  lemma NormalizeMonotone(arr: seq<Option<real>>, inverse: bool, i: nat, j: nat)
    requires i < |arr| && j < |arr| && arr[i].Some? && arr[j].Some? && arr[i].value <= arr[j].value
    ensures if inverse then Normalize(arr, inverse)[j] <= Normalize(arr, inverse)[i]
            else Normalize(arr, inverse)[i] <= Normalize(arr, inverse)[j]
  {
    var vals := OrZero(arr);
    var lo, hi := RMin(vals), RMax(vals);
    if hi != lo {
      assert lo <= vals[i] && vals[j] <= hi;
      RatioMonotone(arr[i].value, arr[j].value, lo, hi);
    }
  }

  lemma RatioMonotone(a: real, b: real, lo: real, hi: real)
    requires a <= b && lo < hi
    ensures (a - lo) / (hi - lo) <= (b - lo) / (hi - lo)
  {
    assert (b - lo) / (hi - lo) - (a - lo) / (hi - lo) == (b - a) / (hi - lo);
  }

  /** Inverting flips every value that is not the 0.5 fallback. */
  lemma NormalizeInverse(arr: seq<Option<real>>, i: nat)
    requires i < |arr|
    ensures Normalize(arr, true)[i] == 0.5 || Normalize(arr, true)[i] == 1.0 - Normalize(arr, false)[i]
    ensures Normalize(arr, true)[i] == 0.5 <==> Normalize(arr, false)[i] == 0.5
  {
  }

  // ---------------------------------------------------------------------
  // Composite

  /** The weights 0.4, 0.2, 0.25 and 0.15. */
  function Composite(normPoints: real, normQuali: real, normFinish: real, normHead: real): real {
    normPoints * 0.4 + normQuali * 0.2 + normFinish * 0.25 + normHead * 0.15
  }

  /** The weights add up to 1, so four values in [0, 1] give a composite
      in [0, 1]; equal inputs give that value back. */
  lemma CompositeInUnit(p: real, q: real, f: real, h: real)
    requires 0.0 <= p <= 1.0 && 0.0 <= q <= 1.0 && 0.0 <= f <= 1.0 && 0.0 <= h <= 1.0
    ensures 0.0 <= Composite(p, q, f, h) <= 1.0
    ensures Composite(p, p, p, p) == p
  {
  }

  /** One element of the returned list. */
  datatype Scored = Scored(stat: Stat, normPoints: real, normQuali: real, normFinish: real,
                           normHead: real, composite: real)

  function PointsColumn(stats: seq<Stat>): (r: seq<Option<real>>)
    ensures |r| == |stats| && forall i :: 0 <= i < |stats| ==> r[i] == Some(stats[i].points as real)
  {
    seq(|stats|, i requires 0 <= i < |stats| => Some(stats[i].points as real))
  }

  function QualiColumn(stats: seq<Stat>): (r: seq<Option<real>>)
    ensures |r| == |stats| && forall i :: 0 <= i < |stats| ==> r[i] == stats[i].avgQuali
  {
    seq(|stats|, i requires 0 <= i < |stats| => stats[i].avgQuali)
  }

  function FinishColumn(stats: seq<Stat>): (r: seq<Option<real>>)
    ensures |r| == |stats| && forall i :: 0 <= i < |stats| ==> r[i] == stats[i].avgFinish
  {
    seq(|stats|, i requires 0 <= i < |stats| => stats[i].avgFinish)
  }

  function HeadColumn(stats: seq<Stat>): (r: seq<Option<real>>)
    ensures |r| == |stats| && forall i :: 0 <= i < |stats| ==> r[i] == Some(stats[i].headWins as real)
  {
    seq(|stats|, i requires 0 <= i < |stats| => Some(stats[i].headWins as real))
  }

  /** `allStats.map((d, i) => ({ ...d, norm..., composite }))`. */
  function Score(stats: seq<Stat>): (r: seq<Scored>)
    ensures |r| == |stats|
  {
    var np := Normalize(PointsColumn(stats), false);
    var nq := Normalize(QualiColumn(stats), true);
    var nf := Normalize(FinishColumn(stats), true);
    var nh := Normalize(HeadColumn(stats), false);
    seq(|stats|, i requires 0 <= i < |stats| =>
      Scored(stats[i], np[i], nq[i], nf[i], nh[i], Composite(np[i], nq[i], nf[i], nh[i])))
  }

  /** Every score keeps its driver's figures, and every normalised value
      and the composite lie in [0, 1]. */
  lemma ScoreInUnit(stats: seq<Stat>, i: nat)
    requires i < |stats|
    ensures Score(stats)[i].stat == stats[i]
    ensures 0.0 <= Score(stats)[i].normPoints <= 1.0 && 0.0 <= Score(stats)[i].normQuali <= 1.0
    ensures 0.0 <= Score(stats)[i].normFinish <= 1.0 && 0.0 <= Score(stats)[i].normHead <= 1.0
    ensures 0.0 <= Score(stats)[i].composite <= 1.0
  {
    NormalizeInUnit(PointsColumn(stats), false, i);
    NormalizeInUnit(QualiColumn(stats), true, i);
    NormalizeInUnit(FinishColumn(stats), true, i);
    NormalizeInUnit(HeadColumn(stats), false, i);
    var s := Score(stats)[i];
    CompositeInUnit(s.normPoints, s.normQuali, s.normFinish, s.normHead);
  }

  /** The driver with the most points gets `normPoints` 1 when points
      differ. */
  lemma MostPointsScoresOne(stats: seq<Stat>, i: nat, j: nat)
    requires i < |stats| && j < |stats|
    requires forall k :: 0 <= k < |stats| ==> stats[j].points <= stats[k].points <= stats[i].points
    requires stats[j].points < stats[i].points
    ensures Score(stats)[i].normPoints == 1.0 && Score(stats)[j].normPoints == 0.0
  {
    var col := PointsColumn(stats);
    NormalizeExtremes(col, false, i, j);
  }

  // ---------------------------------------------------------------------
  // The whole computation

  /** Every round has race and qualifying results (`race_results.forEach`
      and `qualifying_results.forEach` are called unguarded). */
  predicate Readable(races: seq<Race>) {
    forall i :: 0 <= i < |races| ==> races[i].raceResults.Some? && races[i].qualifyingResults.Some?
  }

  /** The value `parseDriverStats` returns for `f1Data.races`. */
  function DriverStatsOf(races: seq<Race>): seq<Scored> {
    var ds := Aggregate(races);
    AggregateSpec(races, "");
    Score(AllStats(ds, SeasonHeads(races, TeamDrivers(ds))))
  }

  /** One scored record per driver of the season, in order of first
      appearance. */
  lemma DriverStatsNames(races: seq<Race>)
    ensures |DriverStatsOf(races)| == |AddAll([], SeasonDrivers(races))|
    ensures forall i :: 0 <= i < |DriverStatsOf(races)| ==> DriverStatsOf(races)[i].stat.name == AddAll([], SeasonDrivers(races))[i]
  {
    var ds := Aggregate(races);
    AggregateSpec(races, "");
    var stats := AllStats(ds, SeasonHeads(races, TeamDrivers(ds)));
    forall i | 0 <= i < |stats| ensures DriverStatsOf(races)[i].stat == stats[i] {
      ScoreInUnit(stats, i);
    }
  }

  /** The figures of the `i`-th record: those of the `i`-th driver of the
      Map. */
  lemma DriverStatsAt(races: seq<Race>, i: nat)
    requires i < |DriverStatsOf(races)|
    ensures Aggregate(races).Valid() && i < |Aggregate(races).names|
    ensures DriverStatsOf(races)[i].stat ==
      AllStats(Aggregate(races), SeasonHeads(races, TeamDrivers(Aggregate(races))))[i]
    ensures 0.0 <= DriverStatsOf(races)[i].composite <= 1.0
  {
    var ds := Aggregate(races);
    AggregateSpec(races, "");
    ScoreInUnit(AllStats(ds, SeasonHeads(races, TeamDrivers(ds))), i);
  }

  /** A driver's `points` add up their race and sprint points over all
      rounds. */
  lemma DriverStatsPoints(races: seq<Race>, i: nat)
    requires i < |DriverStatsOf(races)|
    ensures DriverStatsOf(races)[i].stat.points == Sum(PointsPerRound(races, DriverStatsOf(races)[i].stat.name))
  {
    DriverStatsAt(races, i);
    var name := Aggregate(races).names[i];
    AggregateSpec(races, name);
    SeasonPoints(races, name);
  }

  /** `avgFinish` is `null` exactly when no round's race results list the
      driver, and `avgQuali` exactly when no qualifying results do. */
  lemma DriverStatsAverages(races: seq<Race>, i: nat)
    requires i < |DriverStatsOf(races)|
    ensures DriverStatsOf(races)[i].stat.avgFinish.None? <==>
      forall k :: 0 <= k < |races| ==> !RacedIn(races[k], DriverStatsOf(races)[i].stat.name)
    ensures DriverStatsOf(races)[i].stat.avgQuali.None? <==>
      forall k :: 0 <= k < |races| ==> !QualifiedIn(races[k], DriverStatsOf(races)[i].stat.name)
  {
    DriverStatsAt(races, i);
    var name := Aggregate(races).names[i];
    AggregateSpec(races, name);
    SeasonFinishes(races, name);
    SeasonQualis(races, name);
    AverageSpec(SeasonRecord(races, name).finishes);
    AverageSpec(SeasonRecord(races, name).qualis);
  }

  /** `headWins` is the number of rounds the driver finished ahead of the
      other driver of their team's pair, and 0 without one. */
  lemma DriverStatsHeads(races: seq<Race>, i: nat)
    requires i < |DriverStatsOf(races)|
    ensures Aggregate(races).Valid()
    ensures DriverStatsOf(races)[i].stat.headWins ==
      match Partner(TeamDrivers(Aggregate(races)), TeamDrivers(Aggregate(races)).keys, DriverStatsOf(races)[i].stat.name)
      case None => 0
      case Some(y) => Wins(races, DriverStatsOf(races)[i].stat.name, y)
  {
    DriverStatsAt(races, i);
    var ds := Aggregate(races);
    TeamDriversSpec(ds, "");
    HeadWinsSpec(races, TeamDrivers(ds), ds.names[i]);
  }

  /** `parseDriverStats(f1Data)`, with `f1Data.races || []`. */
  method ParseDriverStats(f1Races: Option<seq<Race>>) returns (out: seq<Scored>)
    requires Readable(f1Races.GetOr([]))
    ensures out == DriverStatsOf(f1Races.GetOr([]))
  {
    var rounds := f1Races.GetOr([]);
    var ds := AggregateRounds(rounds);
    var td := GroupByTeam(ds);
    var heads := ComputeHeads(rounds, td);
    var allStats := AllStats(ds, heads);
    out := Score(allStats);
  }
}
