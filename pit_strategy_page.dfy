/** The pit strategy page, given one session's decoded pit records and
    drivers: the summary statistics, the per-driver grouping, the chart of
    average stop durations and the timeline of stops. */
module PitStrategyPage {
  import opened Maybe
  import opened Seqs
  import opened StableSort
  import opened Text
  import opened OpenF1

  /** One pit record: `driver_number`, `lap_number`, `pit_duration`
      (either may be missing). */
  datatype Pit = Pit(driverNumber: nat, lap: Option<int>, duration: Option<real>)

  /** `pit.pit_duration && pit.pit_duration > 0`. */
  predicate IsValid(p: Pit) {
    p.duration.Some? && p.duration.value > 0.0
  }

  function ValidPit(): Pit -> bool {
    (p: Pit) => IsValid(p)
  }

  function Duration(p: Pit): real {
    p.duration.GetOr(0.0)
  }

  function Durations(ps: seq<Pit>): (r: seq<real>)
    ensures |r| == |ps| && forall i :: 0 <= i < |ps| ==> r[i] == Duration(ps[i])
  {
    seq(|ps|, i requires 0 <= i < |ps| => Duration(ps[i]))
  }

  function Numbers(ps: seq<Pit>): (r: seq<nat>)
    ensures |r| == |ps| && forall i :: 0 <= i < |ps| ==> r[i] == ps[i].driverNumber
  {
    seq(|ps|, i requires 0 <= i < |ps| => ps[i].driverNumber)
  }

  // ---------------------------------------------------------------------
  // Fastest and slowest

  /** Where `reduce((f, pit) => pit.pit_duration < f.pit_duration ? pit : f)`
      ends: the first stop of least duration. */
  function FastestIndex(ps: seq<Pit>): (i: nat)
    requires ps != []
    ensures i < |ps|
    ensures forall j :: 0 <= j < |ps| ==> Duration(ps[i]) <= Duration(ps[j])
    ensures forall j :: 0 <= j < i ==> Duration(ps[j]) > Duration(ps[i])
  {
    if |ps| == 1 then 0
    else
      var i := FastestIndex(ps[..|ps| - 1]);
      assert forall j :: 0 <= j < |ps| - 1 ==> ps[..|ps| - 1][j] == ps[j];
      if Duration(ps[|ps| - 1]) < Duration(ps[i]) then |ps| - 1 else i
  }

  /** Where the `>` reduce ends: the first stop of greatest duration. */
  function SlowestIndex(ps: seq<Pit>): (i: nat)
    requires ps != []
    ensures i < |ps|
    ensures forall j :: 0 <= j < |ps| ==> Duration(ps[j]) <= Duration(ps[i])
    ensures forall j :: 0 <= j < i ==> Duration(ps[j]) < Duration(ps[i])
  {
    if |ps| == 1 then 0
    else
      var i := SlowestIndex(ps[..|ps| - 1]);
      assert forall j :: 0 <= j < |ps| - 1 ==> ps[..|ps| - 1][j] == ps[j];
      if Duration(ps[|ps| - 1]) > Duration(ps[i]) then |ps| - 1 else i
  }

  // ---------------------------------------------------------------------
  // Grouping

  /** `pitsByDriver[num] || []`. */
  function GroupOf(g: map<nat, seq<Pit>>, k: nat): seq<Pit> {
    if k in g then g[k] else []
  }

  /** `pitsByDriver` after the given pits were pushed under their driver. */
  function Group(pits: seq<Pit>): map<nat, seq<Pit>> {
    if pits == [] then map[]
    else
      var g := Group(pits[..|pits| - 1]);
      var p := pits[|pits| - 1];
      g[p.driverNumber := GroupOf(g, p.driverNumber) + [p]]
  }

  function OfDriver(k: nat): Pit -> bool {
    (p: Pit) => p.driverNumber == k
  }

  /** Every pit, valid or not, is filed under its driver, in input order,
      and only drivers with pits have a group. */
  lemma GroupSpec(pits: seq<Pit>, k: nat)
    ensures k in Group(pits) <==> k in Numbers(pits)
    ensures GroupOf(Group(pits), k) == Filter(pits, OfDriver(k))
  {
    GroupKeys(pits, k);
    GroupRows(pits, k);
  }

  lemma {:induction false} GroupKeys(pits: seq<Pit>, k: nat)
    ensures k in Group(pits) <==> k in Numbers(pits)
  {
    if pits != [] {
      var init := pits[..|pits| - 1];
      GroupKeys(init, k);
      assert Numbers(pits) == Numbers(init) + [pits[|pits| - 1].driverNumber];
    }
  }

  lemma {:induction false} GroupRows(pits: seq<Pit>, k: nat)
    ensures GroupOf(Group(pits), k) == Filter(pits, OfDriver(k))
  {
    if pits != [] {
      GroupRows(pits[..|pits| - 1], k);
    }
  }

  /** Sum of the group sizes of the listed drivers. */
  function GroupSizes(g: map<nat, seq<Pit>>, ks: seq<nat>): int {
    if ks == [] then 0 else GroupSizes(g, ks[..|ks| - 1]) + |GroupOf(g, ks[|ks| - 1])|
  }

  /** The groups hold every pit once: over the drivers, their sizes add
      up to the number of pits. */
  lemma {:induction false} GroupSizesTotal(pits: seq<Pit>)
    ensures GroupSizes(Group(pits), Distinct(Numbers(pits))) == |pits|
  {
    if pits != [] {
      var init, p := pits[..|pits| - 1], pits[|pits| - 1];
      var ks := Distinct(Numbers(init));
      GroupSizesTotal(init);
      assert Numbers(pits)[..|init|] == Numbers(init);
      DistinctContents(Numbers(init));
      GroupSizesBump(Group(init), Group(pits), ks, p.driverNumber);
      if p.driverNumber !in ks {
        GroupSpec(init, p.driverNumber);
        assert GroupOf(Group(init), p.driverNumber) == [];
        assert (ks + [p.driverNumber])[..|ks|] == ks;
      }
    }
  }

  lemma {:induction false} GroupSizesBump(g: map<nat, seq<Pit>>, g': map<nat, seq<Pit>>, ks: seq<nat>, k: nat)
    requires NoDup(ks)
    requires forall j :: j != k ==> GroupOf(g', j) == GroupOf(g, j)
    requires |GroupOf(g', k)| == |GroupOf(g, k)| + 1
    ensures GroupSizes(g', ks) == GroupSizes(g, ks) + (if k in ks then 1 else 0)
  {
    if ks != [] {
      var init := ks[..|ks| - 1];
      GroupSizesBump(g, g', init, k);
      assert ks == init + [ks[|ks| - 1]];
    }
  }

  // ---------------------------------------------------------------------
  // calculatePitStats

  datatype PitStats = PitStats(totalPitStops: nat, averagePitTime: real, fastest: Option<Pit>,
                               slowest: Option<Pit>, pitsByDriver: map<nat, seq<Pit>>)

  /** `calculatePitStats`: the count of records; over the valid ones the
      mean duration and the first fastest and slowest stop (0 and `null`
      when there are none); and every record grouped by driver. */
  method CalculatePitStats(pits: seq<Pit>) returns (stats: PitStats)
    ensures stats.totalPitStops == |pits|
    ensures stats.pitsByDriver == Group(pits)
    ensures var v := Filter(pits, ValidPit());
      && (v == [] ==> stats.averagePitTime == 0.0 && stats.fastest.None? && stats.slowest.None?)
      && (v != [] ==>
            && stats.averagePitTime == RSum(Durations(v)) / |v| as real
            && stats.fastest == Some(v[FastestIndex(v)])
            && stats.slowest == Some(v[SlowestIndex(v)]))
  {
    stats := PitStats(|pits|, 0.0, None, None, map[]);
    if |pits| == 0 {
      return;
    }
    var valid := Filter(pits, ValidPit());
    if |valid| > 0 {
      stats := stats.(averagePitTime := RSum(Durations(valid)) / |valid| as real,
                      fastest := Some(valid[FastestIndex(valid)]),
                      slowest := Some(valid[SlowestIndex(valid)]));
    }
    var groups := GroupPits(pits);
    stats := stats.(pitsByDriver := groups);
  }

  /** `pitsByDriver`: every record pushed under its driver number, whose
      array is created when missing. */
  method GroupPits(pits: seq<Pit>) returns (groups: map<nat, seq<Pit>>)
    ensures groups == Group(pits)
  {
    groups := map[];
    for j := 0 to |pits|
      invariant groups == Group(pits[..j])
    {
      assert pits[..j + 1][..j] == pits[..j];
      var num := pits[j].driverNumber;
      if num !in groups {
        groups := groups[num := []];
      }
      groups := groups[num := groups[num] + [pits[j]]];
    }
    assert pits[..|pits|] == pits;
  }

  /** With valid stops, the average is positive and lies between the
      fastest and the slowest duration, which are the least and the
      greatest of all valid durations. */
  lemma AverageBetween(pits: seq<Pit>)
    requires Filter(pits, ValidPit()) != []
    ensures var v := Filter(pits, ValidPit());
      var avg := RSum(Durations(v)) / |v| as real;
      && Duration(v[FastestIndex(v)]) == RMin(Durations(v))
      && Duration(v[SlowestIndex(v)]) == RMax(Durations(v))
      && 0.0 < Duration(v[FastestIndex(v)]) <= avg <= Duration(v[SlowestIndex(v)])
  {
    var v := Filter(pits, ValidPit());
    MeanAtLeastMin(Durations(v));
    MeanAtMostMax(Durations(v));
    Extremes(v);
    assert ValidPit()(v[FastestIndex(v)]);
  }

  /** The first fastest and first slowest stops carry the least and the
      greatest duration. */
  lemma Extremes(v: seq<Pit>)
    requires v != []
    ensures Duration(v[FastestIndex(v)]) == RMin(Durations(v))
    ensures Duration(v[SlowestIndex(v)]) == RMax(Durations(v))
  {
    var ds := Durations(v);
    var i :| 0 <= i < |ds| && ds[i] == RMin(ds);
    var k :| 0 <= k < |ds| && ds[k] == RMax(ds);
  }

  // ---------------------------------------------------------------------
  // Durations chart

  /** A driver's average over their valid stops, `undefined` (None) when
      they have none. */
  function AverageOf(g: map<nat, seq<Pit>>, k: nat): Option<real> {
    var v := Filter(GroupOf(g, k), ValidPit());
    if v == [] then None else Some(RSum(Durations(v)) / |v| as real)
  }

  function HasAverage(g: map<nat, seq<Pit>>): nat -> bool {
    (k: nat) => AverageOf(g, k).Some?
  }

  function ByAverage(g: map<nat, seq<Pit>>): (nat, nat) -> bool {
    ByKeyAsc<nat>((k: nat) => AverageOf(g, k).GetOr(0.0))
  }

  /** `sortedDrivers`: the drivers with an average, ascending by it, at
      most ten. */
  function ChartDrivers(pits: seq<Pit>): seq<nat> {
    var g := Group(pits);
    Take(Sort(Filter(ObjectKeys(Distinct(Numbers(pits))), HasAverage(g)), ByAverage(g)), 10)
  }

  /** The chart shows at most ten drivers, each once and each with a valid
      stop, in ascending order of average, and no driver left out has a
      lower average than one shown. */
  lemma ChartDriversSpec(pits: seq<Pit>)
    ensures |ChartDrivers(pits)| <= 10
    ensures forall k :: k in ChartDrivers(pits) ==> k in Numbers(pits) && AverageOf(Group(pits), k).Some?
    ensures forall i, j :: 0 <= i < j < |ChartDrivers(pits)| ==>
      AverageOf(Group(pits), ChartDrivers(pits)[i]).value <= AverageOf(Group(pits), ChartDrivers(pits)[j]).value
    ensures forall k, y ::
      (k in Numbers(pits) && AverageOf(Group(pits), k).Some? && k !in ChartDrivers(pits) && y in ChartDrivers(pits)) ==>
        AverageOf(Group(pits), k).value >= AverageOf(Group(pits), y).value
  {
    ChartDriversMembers(pits);
    ChartDriversSorted(pits);
    ChartDriversTop(pits);
  }

  lemma ChartDriversMembers(pits: seq<Pit>)
    ensures forall k :: k in ChartDrivers(pits) ==> k in Numbers(pits) && AverageOf(Group(pits), k).Some?
  {
    var g := Group(pits);
    var withAvg := Filter(ObjectKeys(Distinct(Numbers(pits))), HasAverage(g));
    KeysCover(pits);
    KeyOrders<nat>((k: nat) => AverageOf(g, k).GetOr(0.0));
    TopOfSort(withAvg, ByAverage(g), 10);
    forall k | k in ChartDrivers(pits) ensures k in Numbers(pits) && AverageOf(g, k).Some? {
      assert k in withAvg;
      assert HasAverage(g)(k);
    }
  }

  lemma ChartDriversSorted(pits: seq<Pit>)
    ensures forall k :: k in ChartDrivers(pits) ==> AverageOf(Group(pits), k).Some?
    ensures forall i, j :: 0 <= i < j < |ChartDrivers(pits)| ==>
      AverageOf(Group(pits), ChartDrivers(pits)[i]).value <= AverageOf(Group(pits), ChartDrivers(pits)[j]).value
  {
    var g := Group(pits);
    var before := ByAverage(g);
    var r := ChartDrivers(pits);
    ChartDriversMembers(pits);
    KeyOrders<nat>((k: nat) => AverageOf(g, k).GetOr(0.0));
    TopOfSort(Filter(ObjectKeys(Distinct(Numbers(pits))), HasAverage(g)), before, 10);
    forall i, j | 0 <= i < j < |r|
      ensures AverageOf(g, r[i]).value <= AverageOf(g, r[j]).value
    {
      assert r[i] in r && r[j] in r;
      assert !before(r[j], r[i]);
    }
  }

  lemma ChartDriversTop(pits: seq<Pit>)
    ensures forall k :: k in ChartDrivers(pits) ==> AverageOf(Group(pits), k).Some?
    ensures forall k, y ::
      (k in Numbers(pits) && AverageOf(Group(pits), k).Some? && k !in ChartDrivers(pits) && y in ChartDrivers(pits)) ==>
        AverageOf(Group(pits), k).value >= AverageOf(Group(pits), y).value
  {
    var g := Group(pits);
    var withAvg := Filter(ObjectKeys(Distinct(Numbers(pits))), HasAverage(g));
    var before := ByAverage(g);
    var r := ChartDrivers(pits);
    ChartDriversMembers(pits);
    KeysCover(pits);
    KeyOrders<nat>((k: nat) => AverageOf(g, k).GetOr(0.0));
    TopOfSort(withAvg, before, 10);
    forall k, y | k in Numbers(pits) && AverageOf(g, k).Some? && k !in r && y in r
      ensures AverageOf(g, k).value >= AverageOf(g, y).value
    {
      assert HasAverage(g)(k);
      assert k in withAvg;
      assert !before(k, y);
    }
  }

  /** The keys listed are exactly the drivers that have pits. */
  lemma KeysCover(pits: seq<Pit>)
    ensures forall k :: k in ObjectKeys(Distinct(Numbers(pits))) <==> k in Numbers(pits)
  {
    DistinctContents(Numbers(pits));
    ObjectKeysSpec(Distinct(Numbers(pits)));
  }

  /** `driverColors`. */
  const DriverColors: map<string, string> := map[
    "HAM" := "#DC143C", "LEC" := "#DC143C",
    "VER" := "#0600EF", "TSU" := "#0600EF",
    "NOR" := "#FF8700", "PIA" := "#FF8700",
    "RUS" := "#00D2BE", "ANT" := "#00D2BE",
    "ALO" := "#006F62", "STR" := "#006F62",
    "GAS" := "#0090FF", "COL" := "#0090FF",
    "ALB" := "#005AFF", "SAI" := "#005AFF",
    "OCO" := "#B6BABD", "BEA" := "#B6BABD",
    "HAD" := "#2B4562", "LAW" := "#2B4562",
    "HUL" := "#00F500", "BOR" := "#00F500"]

  /** `hsl(${index * 40}, 70%, 50%)`. */
  function Hsl(hue: nat): string {
    "hsl(" + NatToString(hue) + ", 70%, 50%)"
  }

  /** A bar's colour: the colour of the driver's acronym, otherwise a hue
      from the bar's index. */
  function BarColor(drivers: seq<Driver>, num: nat, index: nat): string {
    var d := FindNumber(drivers, num);
    if d.Some? && d.value.acronym in DriverColors then DriverColors[d.value.acronym] else Hsl(index * 40)
  }

  datatype DurationChart = DurationChart(labels: seq<string>, data: seq<real>, colors: seq<string>)

  /** `createPitDurationChart`: one bar per chart driver, labelled by name,
      with the driver's average duration. */
  function PitDurationChart(pits: seq<Pit>, drivers: seq<Driver>): (c: DurationChart)
    ensures |c.labels| == |c.data| == |c.colors| == |ChartDrivers(pits)|
    ensures forall i :: 0 <= i < |c.data| ==>
      c.labels[i] == DriverName(drivers, ChartDrivers(pits)[i]) &&
      c.data[i] == AverageOf(Group(pits), ChartDrivers(pits)[i]).GetOr(0.0)
  {
    Bars(ChartDrivers(pits), Group(pits), drivers)
  }

  /** The bars for the driver numbers `ks`, in that order. */
  function Bars(ks: seq<nat>, g: map<nat, seq<Pit>>, drivers: seq<Driver>): (c: DurationChart)
    ensures |c.labels| == |c.data| == |c.colors| == |ks|
    ensures forall i :: 0 <= i < |ks| ==>
      c.labels[i] == DriverName(drivers, ks[i]) && c.data[i] == AverageOf(g, ks[i]).GetOr(0.0)
  {
    DurationChart(
      seq(|ks|, i requires 0 <= i < |ks| => DriverName(drivers, ks[i])),
      seq(|ks|, i requires 0 <= i < |ks| => AverageOf(g, ks[i]).GetOr(0.0)),
      seq(|ks|, i requires 0 <= i < |ks| => BarColor(drivers, ks[i], i)))
  }

  // ---------------------------------------------------------------------
  // formatTime and the timeline

  /** `formatTime`: `'--:--'` for a missing or zero value, otherwise the
      seconds to three decimals and an `s`. */
  function FormatTime(seconds: Option<real>): string {
    if seconds.None? || seconds.value == 0.0 then "--:--" else ToFixed3(seconds.value) + "s"
  }

  /** The placeholder appears exactly for a missing or zero value; any
      other value prints as digits that read back as the value rounded to
      thousandths. */
  lemma FormatTimeSpec(seconds: Option<real>)
    ensures FormatTime(seconds) == "--:--" <==> seconds.None? || seconds.value == 0.0
    ensures seconds.Some? && seconds.value != 0.0 ==>
      var r := FormatTime(seconds);
      var x := seconds.value;
      r[|r| - 1] == 's' &&
      ParseFloat(r[..|r| - 1]) == Some(Rounded3(x))
  {
    if seconds.Some? && seconds.value != 0.0 {
      Suffixed(ToFixed3(seconds.value));
      ToFixed3Rounded(seconds.value);
    }
  }

  /** A text with an `s` appended ends in `s`, gives the text back without
      it, and so is never the placeholder. */
  lemma Suffixed(t: string)
    ensures var r := t + "s"; r != "--:--" && r[|r| - 1] == 's' && r[..|r| - 1] == t
  {
    var r := t + "s";
    assert r[|r| - 1] == 's' != "--:--"[4];
  }

  /** `pit.lap_number && pit.pit_duration`: both present and non-zero
      (a negative duration passes). */
  predicate OnTimeline(p: Pit) {
    p.lap.Some? && p.lap.value != 0 && p.duration.Some? && p.duration.value != 0.0
  }

  function TimelinePit(): Pit -> bool {
    (p: Pit) => OnTimeline(p)
  }

  function LapOf(p: Pit): int {
    p.lap.GetOr(0)
  }

  function ByLap(): (Pit, Pit) -> bool {
    ByKeyAsc((p: Pit) => LapOf(p) as real)
  }

  /** The timeline's pits: filtered, by ascending lap, the first 20. */
  function Timeline(pits: seq<Pit>): seq<Pit> {
    Take(Sort(Filter(pits, TimelinePit()), ByLap()), 20)
  }

  /** The timeline shows at most 20 stops, each with a lap and a
      duration, by ascending lap, and no eligible stop left out has an
      earlier lap than one shown. */
  lemma TimelineSpec(pits: seq<Pit>)
    ensures |Timeline(pits)| == if |Filter(pits, TimelinePit())| < 20 then |Filter(pits, TimelinePit())| else 20
    ensures forall p :: p in Timeline(pits) ==> p in pits && OnTimeline(p)
    ensures forall i, j :: 0 <= i < j < |Timeline(pits)| ==> LapOf(Timeline(pits)[i]) <= LapOf(Timeline(pits)[j])
    ensures forall p, q :: p in pits && OnTimeline(p) && p !in Timeline(pits) && q in Timeline(pits) ==> LapOf(q) <= LapOf(p)
  {
    var f := Filter(pits, TimelinePit());
    var before := ByLap();
    var t := Timeline(pits);
    KeyOrders((p: Pit) => LapOf(p) as real);
    TopOfSort(f, before, 20);
    forall i, j | 0 <= i < j < |t| ensures LapOf(t[i]) <= LapOf(t[j]) {
      assert !before(t[j], t[i]);
    }
    forall p, q | p in pits && OnTimeline(p) && p !in t && q in t ensures LapOf(q) <= LapOf(p) {
      assert TimelinePit()(p);
      assert p in f;
      assert !before(p, q);
    }
  }

  /** One timeline row: lap, driver, marker colour, duration. */
  datatype TimelineItem = TimelineItem(lap: int, name: string, color: string, time: string)

  function TimelineItems(pits: seq<Pit>, drivers: seq<Driver>): (r: seq<TimelineItem>)
    ensures |r| == |Timeline(pits)|
  {
    var t := Timeline(pits);
    seq(|t|, i requires 0 <= i < |t| =>
      var name := DriverName(drivers, t[i].driverNumber);
      TimelineItem(LapOf(t[i]), name, if name in DriverColors then DriverColors[name] else "#6366f1",
        FormatTime(t[i].duration)))
  }

  /** Every timeline row shows a real lap and a duration, never the
      `'--:--'` placeholder: the filter let only pits with both through. */
  lemma TimelineItemsSpec(pits: seq<Pit>, drivers: seq<Driver>, i: nat)
    requires i < |TimelineItems(pits, drivers)|
    ensures Timeline(pits)[i] in pits && Timeline(pits)[i].lap.Some?
    ensures TimelineItems(pits, drivers)[i].lap == Timeline(pits)[i].lap.value != 0
    ensures TimelineItems(pits, drivers)[i].time != "--:--"
    ensures TimelineItems(pits, drivers)[i].name == DriverName(drivers, Timeline(pits)[i].driverNumber)
  {
    var p := Timeline(pits)[i];
    TimelineSpec(pits);
    assert p in Timeline(pits);
    FormatTimeSpec(p.duration);
  }
}
