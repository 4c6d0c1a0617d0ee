/** The sector analysis page, given one session's decoded laps and
    drivers: the best sector times, the per-driver best-sector chart, the
    capped driver selection, the time format and the driver list. */
module SectorAnalysisPage {
  import opened Maybe
  import opened Seqs
  import opened StableSort
  import opened Text
  import opened OpenF1

  /** One lap record: `driver_number` and the three
      `duration_sector_N` values, each possibly missing. */
  datatype Lap = Lap(driverNumber: nat, s1: Option<real>, s2: Option<real>, s3: Option<real>)

  datatype Sector = S1 | S2 | S3

  function SectorOf(lap: Lap, s: Sector): Option<real> {
    match s
    case S1 => lap.s1
    case S2 => lap.s2
    case S3 => lap.s3
  }

  /** A duration is truthy when present and not 0. */
  predicate Present(x: Option<real>) {
    x.Some? && x.value != 0.0
  }

  function Numbers(laps: seq<Lap>): (r: seq<nat>)
    ensures |r| == |laps| && forall i :: 0 <= i < |laps| ==> r[i] == laps[i].driverNumber
  {
    seq(|laps|, i requires 0 <= i < |laps| => laps[i].driverNumber)
  }

  /** The durations of one sector, in lap order, over the laps where that
      sector is present. */
  function SectorTimes(laps: seq<Lap>, s: Sector): (r: seq<real>)
    ensures |r| <= |laps|
  {
    if laps == [] then []
    else
      var init := SectorTimes(laps[..|laps| - 1], s);
      var x := SectorOf(laps[|laps| - 1], s);
      if Present(x) then init + [x.value] else init
  }

  /** A value is listed iff some lap has it as that sector's duration. */
  lemma {:induction false} SectorTimesSpec(laps: seq<Lap>, s: Sector)
    ensures forall t :: t in SectorTimes(laps, s) <==> exists i :: 0 <= i < |laps| && Present(SectorOf(laps[i], s)) && SectorOf(laps[i], s).value == t
  {
    if laps != [] {
      var init := laps[..|laps| - 1];
      SectorTimesSpec(init, s);
      assert forall i :: 0 <= i < |init| ==> init[i] == laps[i];
      forall t | exists i :: 0 <= i < |laps| && Present(SectorOf(laps[i], s)) && SectorOf(laps[i], s).value == t
        ensures t in SectorTimes(laps, s)
      {
        var i :| 0 <= i < |laps| && Present(SectorOf(laps[i], s)) && SectorOf(laps[i], s).value == t;
        if i < |init| {
          assert Present(SectorOf(init[i], s)) && SectorOf(init[i], s).value == t;
        }
      }
    }
  }

  // ---------------------------------------------------------------------
  // calculateBestSectorTimes

  predicate HasAllSectors(lap: Lap) {
    Present(lap.s1) && Present(lap.s2) && Present(lap.s3)
  }

  function AllSectors(): Lap -> bool {
    (lap: Lap) => HasAllSectors(lap)
  }

  datatype Bests = Bests(s1: real, s2: real, s3: real)

  function BestOfSector(b: Bests, s: Sector): real {
    match s
    case S1 => b.s1
    case S2 => b.s2
    case S3 => b.s3
  }

  /** `calculateBestSectorTimes`: over the laps with all three sectors,
      the least duration of each; all 0 when there is no such lap. */
  function BestSectorTimes(laps: seq<Lap>): Bests {
    var full := Filter(laps, AllSectors());
    if full == [] then Bests(0.0, 0.0, 0.0)
    else
      FullSectorTimes(full, S1);
      FullSectorTimes(full, S2);
      FullSectorTimes(full, S3);
      Bests(RMin(SectorTimes(full, S1)), RMin(SectorTimes(full, S2)), RMin(SectorTimes(full, S3)))
  }

  /** On laps with all sectors, each sector lists one time per lap. */
  lemma {:induction false} FullSectorTimes(laps: seq<Lap>, s: Sector)
    requires forall i :: 0 <= i < |laps| ==> HasAllSectors(laps[i])
    ensures |SectorTimes(laps, s)| == |laps|
    ensures forall i :: 0 <= i < |laps| ==> SectorOf(laps[i], s) == Some(SectorTimes(laps, s)[i])
  {
    if laps != [] {
      FullSectorTimes(laps[..|laps| - 1], s);
    }
  }

  /** The best of a sector is the duration of that sector on some lap with
      all three sectors, and no such lap is faster there; a lap missing
      any sector is ignored for all three. */
  lemma BestSectorTimesSpec(laps: seq<Lap>, s: Sector)
    ensures Filter(laps, AllSectors()) == [] ==> BestSectorTimes(laps) == Bests(0.0, 0.0, 0.0)
    ensures Filter(laps, AllSectors()) != [] ==>
      && (exists i :: 0 <= i < |laps| && HasAllSectors(laps[i]) && SectorOf(laps[i], s).value == BestOfSector(BestSectorTimes(laps), s))
      && (forall i :: 0 <= i < |laps| && HasAllSectors(laps[i]) ==> BestOfSector(BestSectorTimes(laps), s) <= SectorOf(laps[i], s).value)
  {
    var full := Filter(laps, AllSectors());
    if full != [] {
      FullSectorTimes(full, s);
      var ts := SectorTimes(full, s);
      var b := BestOfSector(BestSectorTimes(laps), s);
      assert b == RMin(ts);
      var k :| 0 <= k < |ts| && ts[k] == b;
      assert full[k] in laps && AllSectors()(full[k]);
      var i :| 0 <= i < |laps| && laps[i] == full[k];
      forall j | 0 <= j < |laps| && HasAllSectors(laps[j]) ensures b <= SectorOf(laps[j], s).value {
        assert AllSectors()(laps[j]);
        assert laps[j] in full;
        var m :| 0 <= m < |full| && full[m] == laps[j];
        assert SectorOf(laps[j], s) == Some(ts[m]);
      }
    }
  }

  // ---------------------------------------------------------------------
  // useSectorChartData

  /** `{ s1: [], s2: [], s3: [] }` of one driver. */
  datatype SectorLists = SectorLists(s1: seq<real>, s2: seq<real>, s3: seq<real>)

  const NoLists: SectorLists := SectorLists([], [], [])

  function ListOf(l: SectorLists, s: Sector): seq<real> {
    match s
    case S1 => l.s1
    case S2 => l.s2
    case S3 => l.s3
  }

  /** The three independent pushes of one lap. */
  function PushLap(l: SectorLists, lap: Lap): SectorLists {
    SectorLists(
      if Present(lap.s1) then l.s1 + [lap.s1.value] else l.s1,
      if Present(lap.s2) then l.s2 + [lap.s2.value] else l.s2,
      if Present(lap.s3) then l.s3 + [lap.s3.value] else l.s3)
  }

  /** `driverSectorData[d] || { s1: [], s2: [], s3: [] }`. */
  function ListsOf(m: map<nat, SectorLists>, d: nat): SectorLists {
    if d in m then m[d] else NoLists
  }

  /** `driverSectorData` after the given laps. */
  function SectorData(laps: seq<Lap>): map<nat, SectorLists> {
    if laps == [] then map[]
    else
      var m := SectorData(laps[..|laps| - 1]);
      var lap := laps[|laps| - 1];
      m[lap.driverNumber := PushLap(ListsOf(m, lap.driverNumber), lap)]
  }

  function OfDriver(d: nat): Lap -> bool {
    (lap: Lap) => lap.driverNumber == d
  }

  /** Every driver with a lap, and no other, has lists. */
  lemma {:induction false} SectorDataKeys(laps: seq<Lap>, d: nat)
    ensures d in SectorData(laps) <==> d in Numbers(laps)
  {
    if laps != [] {
      var init := laps[..|laps| - 1];
      SectorDataKeys(init, d);
      assert Numbers(laps) == Numbers(init) + [laps[|laps| - 1].driverNumber];
    }
  }

  /** One more lap of the driver adds its present durations. */
  lemma PushLapSpec(l: SectorLists, lap: Lap, s: Sector)
    ensures ListOf(PushLap(l, lap), s) ==
      if Present(SectorOf(lap, s)) then ListOf(l, s) + [SectorOf(lap, s).value] else ListOf(l, s)
  {
  }

  lemma SectorTimesSnoc(laps: seq<Lap>, lap: Lap, s: Sector)
    ensures SectorTimes(laps + [lap], s) ==
      if Present(SectorOf(lap, s)) then SectorTimes(laps, s) + [SectorOf(lap, s).value] else SectorTimes(laps, s)
  {
    assert (laps + [lap])[..|laps|] == laps;
  }

  /** Each list holds, in lap order, that sector's durations over the
      driver's laps where that sector is present, whatever the other two
      sectors are. */
  lemma {:induction false} SectorDataSpec(laps: seq<Lap>, d: nat, s: Sector)
    ensures ListOf(ListsOf(SectorData(laps), d), s) == SectorTimes(Filter(laps, OfDriver(d)), s)
  {
    if laps != [] {
      var init, lap := laps[..|laps| - 1], laps[|laps| - 1];
      SectorDataSpec(init, d, s);
      var own := Filter(init, OfDriver(d));
      var m := SectorData(init);
      if lap.driverNumber == d {
        assert ListsOf(SectorData(laps), d) == PushLap(ListsOf(m, d), lap);
        PushLapSpec(ListsOf(m, d), lap, s);
        assert Filter(laps, OfDriver(d)) == own + [lap];
        SectorTimesSnoc(own, lap, s);
      } else {
        assert ListsOf(SectorData(laps), d) == ListsOf(m, d);
        assert Filter(laps, OfDriver(d)) == own;
      }
    }
  }

  /** The `sessionData.laps.forEach` that fills `driverSectorData`. */
  method BuildSectorData(laps: seq<Lap>) returns (m: map<nat, SectorLists>)
    ensures m == SectorData(laps)
  {
    m := map[];
    for j := 0 to |laps|
      invariant m == SectorData(laps[..j])
    {
      assert laps[..j + 1][..j] == laps[..j];
      var lap := laps[j];
      if lap.driverNumber !in m {
        m := m[lap.driverNumber := NoLists];
      }
      m := m[lap.driverNumber := PushLap(m[lap.driverNumber], lap)];
    }
    assert laps[..|laps|] == laps;
  }

  /** `times.length ? Math.min(...times) : 0`. */
  function BestOf(times: seq<real>): (r: real)
    ensures times == [] ==> r == 0.0
    ensures times != [] ==> r in times && forall k :: 0 <= k < |times| ==> r <= times[k]
  {
    if times == [] then 0.0 else RMin(times)
  }

  /** `driversToShow`: the selection when it is not empty, otherwise the
      first eight driver keys (ascending driver numbers). */
  function DriversToShow(laps: seq<Lap>, selected: seq<nat>): seq<nat> {
    if selected != [] then selected else Take(ObjectKeys(Distinct(Numbers(laps))), 8)
  }

  /** The first n keys of the drivers in `ns`: members of `ns`,
      ascending, and lower than every driver left out. */
  lemma LowestKeys(ns: seq<nat>, n: nat)
    ensures |Take(ObjectKeys(Distinct(ns)), n)| <= n
    ensures forall k :: k in Take(ObjectKeys(Distinct(ns)), n) ==> k in ns
    ensures forall i, j :: 0 <= i < j < |Take(ObjectKeys(Distinct(ns)), n)| ==>
      Take(ObjectKeys(Distinct(ns)), n)[i] < Take(ObjectKeys(Distinct(ns)), n)[j]
    ensures forall k, y :: k in ns && k !in Take(ObjectKeys(Distinct(ns)), n) && y in Take(ObjectKeys(Distinct(ns)), n) ==> y < k
  {
    var d := Distinct(ns);
    var keys := ObjectKeys(d);
    var r := Take(keys, n);
    DistinctContents(ns);
    ObjectKeysSpec(d);
    assert r == keys[..|r|];
    forall k | k in r ensures k in ns {
      assert k in keys && k in d;
      var a :| 0 <= a < |d| && d[a] == k;
    }
    forall k, y | k in ns && k !in r && y in r ensures y < k {
      var i :| 0 <= i < |ns| && ns[i] == k;
      assert k in d && k in keys;
      var a :| 0 <= a < |keys| && keys[a] == k;
      var b :| 0 <= b < |r| && r[b] == y;
      assert a >= |r|;
    }
  }

  /** Without a selection, the chart shows the eight lowest numbers among
      the drivers with laps, ascending. */
  lemma DriversToShowSpec(laps: seq<Lap>, selected: seq<nat>)
    ensures selected != [] ==> DriversToShow(laps, selected) == selected
    ensures selected == [] ==>
      var r := DriversToShow(laps, selected);
      && |r| <= 8
      && (forall k :: k in r ==> k in Numbers(laps))
      && (forall i, j :: 0 <= i < j < |r| ==> r[i] < r[j])
      && (forall k, y :: k in Numbers(laps) && k !in r && y in r ==> y < k)
  {
    LowestKeys(Numbers(laps), 8);
  }

  /** The chart: a label per driver shown and, per sector, the best time. */
  datatype SectorChart = SectorChart(labels: seq<string>, best1: seq<real>, best2: seq<real>, best3: seq<real>)

  function BestColumn(m: map<nat, SectorLists>, shown: seq<nat>, s: Sector): (r: seq<real>)
    ensures |r| == |shown| && forall i :: 0 <= i < |shown| ==> r[i] == BestOf(ListOf(ListsOf(m, shown[i]), s))
  {
    seq(|shown|, i requires 0 <= i < |shown| => BestOf(ListOf(ListsOf(m, shown[i]), s)))
  }

  /** `useSectorChartData`: `null` without laps or drivers. */
  function SectorChartData(laps: Option<seq<Lap>>, drivers: Option<seq<Driver>>, selected: seq<nat>): (r: Option<SectorChart>)
    ensures r.Some? <==> laps.Some? && drivers.Some?
  {
    if laps.None? || drivers.None? then None
    else
      var m := SectorData(laps.value);
      var shown := DriversToShow(laps.value, selected);
      Some(SectorChart(seq(|shown|, i requires 0 <= i < |shown| => DriverName(drivers.value, shown[i])),
        BestColumn(m, shown, S1), BestColumn(m, shown, S2), BestColumn(m, shown, S3)))
  }

  /** Each bar is the driver's least duration of that sector over all
      their laps where it is present (0 for none, as for a selected driver
      without laps). */
  lemma SectorChartSpec(laps: seq<Lap>, drivers: seq<Driver>, selected: seq<nat>, i: nat, s: Sector)
    requires i < |DriversToShow(laps, selected)|
    ensures var c := SectorChartData(Some(laps), Some(drivers), selected).value;
      var d := DriversToShow(laps, selected)[i];
      && |c.labels| == |c.best1| == |c.best2| == |c.best3| == |DriversToShow(laps, selected)|
      && c.labels[i] == DriverName(drivers, d)
      && (match s
          case S1 => c.best1[i]
          case S2 => c.best2[i]
          case S3 => c.best3[i]) == BestOf(SectorTimes(Filter(laps, OfDriver(d)), s))
  {
    SectorDataSpec(laps, DriversToShow(laps, selected)[i], s);
  }

  // ---------------------------------------------------------------------
  // toggleDriver

  /** The selection `Set`, in insertion order. */
  function Remove(sel: seq<nat>, d: nat): (r: seq<nat>)
    ensures forall k :: k in r <==> k in sel && k != d
    ensures |r| <= |sel|
    ensures d !in sel ==> r == sel
    ensures NoDup(sel) && d in sel ==> |r| == |sel| - 1
  {
    if sel == [] then []
    else if sel[0] == d then Remove(sel[1..], d)
    else
      assert sel[0] !in sel[1..] || !NoDup(sel);
      [sel[0]] + Remove(sel[1..], d)
  }

  /** `toggleDriver`: a selected driver is removed; another is added only
      while fewer than six are selected. */
  function Toggle(sel: seq<nat>, d: nat): seq<nat> {
    if d in sel then Remove(sel, d)
    else if |sel| < 6 then sel + [d]
    else sel
  }

  /** The driver is selected afterwards iff it was not and there was room;
      every other driver keeps its state; the selection stays free of
      repeats and never grows past six. */
  lemma ToggleSpec(sel: seq<nat>, d: nat)
    requires NoDup(sel)
    ensures d in Toggle(sel, d) <==> d !in sel && |sel| < 6
    ensures forall k :: k != d ==> (k in Toggle(sel, d) <==> k in sel)
    ensures NoDup(Toggle(sel, d))
    ensures |sel| <= 6 ==> |Toggle(sel, d)| <= 6
    ensures d !in sel && |sel| >= 6 ==> Toggle(sel, d) == sel
  {
    if d in sel {
      RemoveNoDup(sel, d);
    }
  }

  lemma {:induction false} RemoveNoDup(sel: seq<nat>, d: nat)
    requires NoDup(sel)
    ensures NoDup(Remove(sel, d))
  {
    if sel != [] {
      RemoveNoDup(sel[1..], d);
      if sel[0] != d {
        assert sel[0] !in sel[1..];
      }
    }
  }

  /** Toggling an unselected driver twice, with room, gives back the
      selection. */
  lemma {:induction false} ToggleTwice(sel: seq<nat>, d: nat)
    requires d !in sel && |sel| < 6
    ensures Toggle(Toggle(sel, d), d) == sel
  {
    RemoveLast(sel, d);
  }

  lemma {:induction false} RemoveLast(sel: seq<nat>, d: nat)
    requires d !in sel
    ensures Remove(sel + [d], d) == sel
  {
    if sel == [] {
      assert Remove([d], d) == Remove([], d);
    } else {
      RemoveLast(sel[1..], d);
      assert (sel + [d])[1..] == sel[1..] + [d];
    }
  }

  // ---------------------------------------------------------------------
  // formatTime

  /** JavaScript `x % 60`: the remainder takes the sign of `x`. */
  function Rem60(x: real): (r: real)
    ensures x >= 0.0 ==> 0.0 <= r < 60.0
    ensures x >= 0.0 ==> r == x - 60.0 * (x / 60.0).Floor as real
  {
    if x >= 0.0 then x - 60.0 * (x / 60.0).Floor as real
    else -((-x) - 60.0 * ((-x) / 60.0).Floor as real)
  }

  /** `formatTime`: `'--:--'` for a missing or zero value, otherwise the
      clock form of the value. */
  function FormatTime(seconds: Option<real>): string {
    if seconds.None? || seconds.value == 0.0 then "--:--" else Clock(seconds.value)
  }

  /** `m:ss.sss` (seconds padded to six characters) from a minute up;
      `ss.sss` and an `s` below a minute and for negative values. */
  function Clock(x: real): (r: string)
    ensures r != [] && (IsDigit(r[0]) || r[|r| - 1] == 's')
  {
    var mins := (x / 60.0).Floor;
    var secs := ToFixed3(Rem60(x));
    if mins > 0 then
      var n := NatToString(mins);
      var r := n + ":" + PadStart(secs, 6, '0');
      assert r[0] == n[0];
      r
    else secs + "s"
  }

  /** The placeholder appears exactly for a missing or zero value. */
  lemma FormatTimePlaceholder(seconds: Option<real>)
    ensures FormatTime(seconds) == "--:--" <==> seconds.None? || seconds.value == 0.0
  {
    var p := "--:--";
    assert p[0] == '-' && p[|p| - 1] == '-';
  }

  /** Below a minute, the text is the value to three decimals and an `s`. */
  lemma ClockShort(x: real)
    requires 0.0 < x < 60.0
    ensures FormatTime(Some(x)) == ToFixed3(x) + "s"
  {
    assert (x / 60.0).Floor == 0;
  }

  /** From a minute up, the text is the whole minutes, a colon, and the
      remaining seconds (below 60, as `Rem60` ensures), which read back as
      that remainder rounded to thousandths. */
  lemma ClockLong(x: real)
    requires x >= 60.0
    ensures (x / 60.0).Floor >= 1
    ensures FormatTime(Some(x)) == NatToString((x / 60.0).Floor) + ":" + PadStart(ToFixed3(Rem60(x)), 6, '0')
    ensures ParseFloat(PadStart(ToFixed3(Rem60(x)), 6, '0')) == Some(Thousandths(Rem60(x)) as real / 1000.0)
  {
    PaddedReadsBack(Rem60(x));
  }

  /** As written, the minutes are split off before the seconds are
      rounded: a remainder within half a thousandth below 60 prints as
      `60.000` after the colon. */
  lemma ClockSixtySeconds(x: real)
    requires x >= 60.0 && Rem60(x) >= 59.9995
    ensures ParseFloat(PadStart(ToFixed3(Rem60(x)), 6, '0')) == Some(60.0)
  {
    ClockLong(x);
    assert Thousandths(Rem60(x)) == 60000;
  }

  /** 119.9996 seconds: one whole minute and 59.9996 seconds, printed as
      `1:60.000`. */
  lemma ClockSixtyExample()
    ensures (119.9996 / 60.0).Floor == 1
    ensures Rem60(119.9996) == 59.9996
    ensures ParseFloat(PadStart(ToFixed3(Rem60(119.9996)), 6, '0')) == Some(60.0)
  {
    ClockSixtySeconds(119.9996);
  }

  /** The clock form rounding to thousandths first, then splitting off the
      minutes; negative values, which a duration never is, print as
      before. */
  function IntendedClock(x: real): string {
    if x < 0.0 then Clock(x)
    else
      var t := Thousandths(x);
      if t / 60000 > 0 then NatToString(t / 60000) + ":" + PadStart(FixedDigits(t % 60000), 6, '0')
      else FixedDigits(t) + "s"
  }

  function IntendedFormatTime(seconds: Option<real>): string {
    if seconds.None? || seconds.value == 0.0 then "--:--" else IntendedClock(seconds.value)
  }

  /** From a minute up (after rounding), the intended form prints whole
      minutes and seconds below 60, and together they read back as the
      value rounded to thousandths; below a minute it is what the page
      prints. */
  lemma IntendedClockSpec(x: real)
    requires x >= 0.0
    ensures Thousandths(x) < 60000 ==> IntendedFormatTime(Some(x)) == (if x == 0.0 then "--:--" else ToFixed3(x) + "s")
    ensures Thousandths(x) >= 60000 ==>
      var mins := Thousandths(x) / 60000;
      exists secs: real ::
        && 0.0 <= secs < 60.0
        && IntendedFormatTime(Some(x)) == NatToString(mins) + ":" + PadStart(ToFixed3(secs), 6, '0')
        && ParseFloat(PadStart(ToFixed3(secs), 6, '0')) == Some(secs)
        && mins as real * 60.0 + secs == Thousandths(x) as real / 1000.0
  {
    var t := Thousandths(x);
    if t >= 60000 {
      var mins, rest := t / 60000, t % 60000;
      var secs := rest as real / 1000.0;
      assert Thousandths(secs) == rest;
      assert ToFixed3(secs) == FixedDigits(rest);
      PaddedReadsBack(secs);
      assert t == 60000 * mins + rest;
      assert t as real == 60000.0 * mins as real + rest as real;
    }
  }

  /** The two agree whenever the rounding does not carry the seconds to
      60: the intended form differs only on the values the finding
      shows. */
  lemma IntendedAgrees(x: real)
    requires x >= 60.0 && Rem60(x) < 59.9995
    ensures IntendedFormatTime(Some(x)) == FormatTime(Some(x))
  {
    var m := (x / 60.0).Floor;
    var r := Rem60(x);
    assert 60.0 * m as real + r == x;
    ThousandthsShift(m, r);
    var f := Thousandths(r);
    assert f < 60000;
    MinuteSplit(m, f);
    var t := Thousandths(x);
    assert t == 60000 * m + f;
    assert m >= 1 && t / 60000 == m && t % 60000 == f;
    assert IntendedClock(x) == NatToString(m) + ":" + PadStart(FixedDigits(f), 6, '0');
    assert ToFixed3(r) == FixedDigits(f);
    assert Clock(x) == NatToString(m) + ":" + PadStart(ToFixed3(r), 6, '0');
  }

  lemma MinuteSplit(m: nat, f: nat)
    requires f < 60000
    ensures (60000 * m + f) / 60000 == m && (60000 * m + f) % 60000 == f
  {
  }

  /** Whole minutes added to a non-negative value add whole thousandths. */
  lemma ThousandthsShift(m: nat, r: real)
    requires r >= 0.0
    ensures Thousandths(60.0 * m as real + r) == 60000 * m + Thousandths(r)
  {
    var f := Thousandths(r);
    var t := Thousandths(60.0 * m as real + r);
    assert f as real - 0.5 <= r * 1000.0 < f as real + 0.5;
    assert (60.0 * m as real + r) * 1000.0 == 60000.0 * m as real + r * 1000.0;
    assert t as real - 0.5 <= 60000.0 * m as real + r * 1000.0 < t as real + 0.5;
  }

  // ---------------------------------------------------------------------
  // uniqueDrivers and the stat cards

  /** `drivers.find(...)?.name_acronym || ''`. */
  function AcronymOf(drivers: seq<Driver>, num: nat): string {
    var d := FindNumber(drivers, num);
    if d.Some? then d.value.acronym else ""
  }

  function ByAcronym(drivers: seq<Driver>): (nat, nat) -> bool {
    ByStringKey<nat>((n: nat) => AcronymOf(drivers, n))
  }

  /** `uniqueDrivers`: the lap drivers once each, ordered by acronym; none
      without a driver list. */
  function UniqueDrivers(laps: Option<seq<Lap>>, drivers: Option<seq<Driver>>): seq<nat> {
    if drivers.None? then []
    else Sort(Distinct(Numbers(laps.GetOr([]))), ByAcronym(drivers.value))
  }

  /** Every driver with a lap is listed once, by acronym; drivers with the
      same acronym keep the order of their first lap. */
  lemma UniqueDriversSpec(laps: seq<Lap>, drivers: seq<Driver>)
    ensures NoDup(UniqueDrivers(Some(laps), Some(drivers)))
    ensures forall k :: k in UniqueDrivers(Some(laps), Some(drivers)) <==> k in Numbers(laps)
    ensures forall i, j :: 0 <= i < j < |UniqueDrivers(Some(laps), Some(drivers))| ==>
      !LexLess(AcronymOf(drivers, UniqueDrivers(Some(laps), Some(drivers))[j]),
               AcronymOf(drivers, UniqueDrivers(Some(laps), Some(drivers))[i]))
  {
    var d := Distinct(Numbers(laps));
    var before := ByAcronym(drivers);
    var r := UniqueDrivers(Some(laps), Some(drivers));
    DistinctContents(Numbers(laps));
    StringKeyOrder<nat>((n: nat) => AcronymOf(drivers, n));
    SortPermutes(d, before);
    SortSorted(d, before);
    SortNoDup(d, before);
    forall k ensures k in r <==> k in d {
      assert k in r <==> k in multiset(r);
    }
    forall i, j | 0 <= i < j < |r|
      ensures !LexLess(AcronymOf(drivers, r[j]), AcronymOf(drivers, r[i]))
    {
      assert !before(r[j], r[i]);
    }
  }

  /** One stat card: title, formatted value and accent colour. */
  datatype StatCard = StatCard(title: string, value: string, color: string)

  /** `statsData`: three cards when the best first sector is positive,
      none otherwise. */
  function StatCards(b: Bests): (r: seq<StatCard>)
    ensures |r| == 3 <==> b.s1 > 0.0
    ensures r == [] <==> b.s1 <= 0.0
    ensures b.s1 > 0.0 ==> r[0].title == "Sector 1" && r[0].color == "red" && r[0].value == FormatTime(Some(b.s1))
    ensures b.s1 > 0.0 ==> r[1].title == "Sector 2" && r[1].color == "yellow" && r[1].value == FormatTime(Some(b.s2))
    ensures b.s1 > 0.0 ==> r[2].title == "Sector 3" && r[2].color == "green" && r[2].value == FormatTime(Some(b.s3))
  {
    if b.s1 > 0.0 then
      [StatCard("Sector 1", FormatTime(Some(b.s1)), "red"),
       StatCard("Sector 2", FormatTime(Some(b.s2)), "yellow"),
       StatCard("Sector 3", FormatTime(Some(b.s3)), "green")]
    else []
  }
}
