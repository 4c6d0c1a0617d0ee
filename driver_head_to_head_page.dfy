/** The driver head-to-head page: two drivers' qualifying and race results
    side by side, round by round, with grid, time, position and points
    differences and the colour that marks the better of the two. */
module DriverHeadToHeadPage {
  import opened Maybe
  import opened Seqs
  import opened Text
  import opened RaceData

  // ---------------------------------------------------------------------
  // Per-round rows

  /** One round of `getDriverResultsByRound`. */
  datatype RaceRow = RaceRow(circuit: string, position: Option<int>, points: int)

  /** One round of `getQualifyingResultsByRound`. */
  datatype QualiRow = QualiRow(circuit: string, grid: Option<int>, time: Option<string>)

  /** The first entry of a driver in a list, as an index. */
  lemma {:induction false} FindDriverFirst(es: seq<Entry>, driver: string)
    requires FindDriver(es, driver).Some?
    ensures exists k :: 0 <= k < |es| && es[k] == FindDriver(es, driver).value &&
                        forall j :: 0 <= j < k ==> es[j].driver != driver
  {
    if es[0].driver != driver {
      FindDriverFirst(es[1..], driver);
      var k :| 0 <= k < |es[1..]| && es[1..][k] == FindDriver(es, driver).value &&
        forall j :: 0 <= j < k ==> es[1..][j].driver != driver;
      assert es[k + 1] == es[1..][k];
      assert forall j :: 1 <= j < k + 1 ==> es[j] == es[1..][j - 1];
    }
  }

  function RaceRowOf(race: Race, driver: string): RaceRow
    requires race.raceResults.Some? && race.circuit.Some?
  {
    var e := FindDriver(race.raceResults.value, driver);
    RaceRow(FirstToken(race.circuit.value),
            if e.Some? then e.value.position else None,
            if e.Some? then e.value.points else 0)
  }

  /** `getDriverResultsByRound`: every race must carry a circuit and race
      results, since both are read without a guard. */
  function DriverResultsByRound(races: seq<Race>, driver: string): (r: seq<RaceRow>)
    requires AllHaveRaceResults(races) && AllHaveCircuit(races)
    ensures |r| == |races|
  {
    seq(|races|, i requires 0 <= i < |races| => RaceRowOf(races[i], driver))
  }

  /** One row per race: the first word of the circuit, and the position and
      points of the driver's first entry in that race, or no position and
      0 points when the driver is not listed. */
  lemma DriverResultsSpec(races: seq<Race>, driver: string, i: nat)
    requires AllHaveRaceResults(races) && AllHaveCircuit(races) && i < |races|
    ensures DriverResultsByRound(races, driver)[i].circuit == FirstToken(races[i].circuit.value)
    ensures var es := races[i].raceResults.value;
      var row := DriverResultsByRound(races, driver)[i];
      (driver !in DriversOf(es) ==> row.position == None && row.points == 0) &&
      (driver in DriversOf(es) ==>
        exists k :: 0 <= k < |es| && es[k].driver == driver &&
          row.position == es[k].position && row.points == es[k].points &&
          forall j :: 0 <= j < k ==> es[j].driver != driver)
  {
    var es := races[i].raceResults.value;
    ListedIffFound(es, driver);
    if driver in DriversOf(es) {
      FindDriverFirst(es, driver);
    }
  }

  function QualiRowOf(race: Race, driver: string): QualiRow
    requires race.circuit.Some?
  {
    var e := FindDriver(EntriesOf(race.qualifyingResults), driver);
    QualiRow(FirstToken(race.circuit.value),
             if e.Some? then e.value.position else None,
             if e.Some? then e.value.time else None)
  }

  /** `getQualifyingResultsByRound`: qualifying results may be missing
      (`qualifying_results?.find`). */
  function QualifyingResultsByRound(races: seq<Race>, driver: string): (r: seq<QualiRow>)
    requires AllHaveCircuit(races)
    ensures |r| == |races|
  {
    seq(|races|, i requires 0 <= i < |races| => QualiRowOf(races[i], driver))
  }

  /** A round without qualifying results, or without the driver in them,
      has neither grid nor time; otherwise both come from the driver's
      first qualifying entry. */
  lemma QualifyingResultsSpec(races: seq<Race>, driver: string, i: nat)
    requires AllHaveCircuit(races) && i < |races|
    ensures QualifyingResultsByRound(races, driver)[i].circuit == FirstToken(races[i].circuit.value)
    ensures var es := EntriesOf(races[i].qualifyingResults);
      var row := QualifyingResultsByRound(races, driver)[i];
      (driver !in DriversOf(es) ==> row.grid == None && row.time == None) &&
      (driver in DriversOf(es) ==>
        exists k :: 0 <= k < |es| && es[k].driver == driver &&
          row.grid == es[k].position && row.time == es[k].time &&
          forall j :: 0 <= j < k ==> es[j].driver != driver)
  {
    var es := EntriesOf(races[i].qualifyingResults);
    ListedIffFound(es, driver);
    if driver in DriversOf(es) {
      FindDriverFirst(es, driver);
    }
  }

  // ---------------------------------------------------------------------
  // Lap time differences

  /** `!t || t === "No Time"`: null, empty or the "No Time" marker. */
  predicate Missing(t: Option<string>) {
    t.None? || t.value == "" || t.value == "No Time"
  }

  function AddOpt(a: Option<real>, b: Option<real>): (r: Option<real>)
    ensures r.Some? <==> a.Some? && b.Some?
  {
    if a.Some? && b.Some? then Some(a.value + b.value) else None
  }

  /** `parseTime` as written: "h:m:s" is read part by part; any other
      string has every character but digits and dots removed and is read
      as one number. `None` stands for `NaN`. */
  function ParseTime(t: string): Option<real> {
    var parts := Split(t, ':');
    if |parts| == 3 then
      AddOpt(AddOpt(match ParseFloat(parts[0]) case None => None case Some(h) => Some(h * 60.0),
                    ParseFloat(parts[1])),
             ParseFloat(parts[2]))
    else ParseFloat(KeepDecimalChars(t))
  }

  /** The signed text of a difference: `toFixed(3)` with a `+` when that
      text is read as a positive number. */
  function Signed(x: real): string {
    (if x >= 0.0 && Thousandths(x) > 0 then "+" else "") + ToFixed3(x)
  }

  /** The difference of two parsed times, as the page prints it. */
  function DeltaText(t1: Option<real>, t2: Option<real>): string {
    if t1.Some? && t2.Some? then Signed(t1.value - t2.value) + "s" else "NaNs"
  }

  /** Two numbers print as their signed difference in seconds; a `NaN`
      prints as "NaNs". */
  lemma DeltaTextSpec(t1: Option<real>, t2: Option<real>)
    ensures t1.Some? && t2.Some? ==> DeltaText(t1, t2) == Signed(t1.value - t2.value) + "s"
    ensures t1.None? || t2.None? ==> DeltaText(t1, t2) == "NaNs"
  {
  }

  /** `formatTimeDelta(time1, time2)`. */
  function FormatTimeDelta(time1: Option<string>, time2: Option<string>): string {
    if Missing(time1) || Missing(time2) then "--"
    else DeltaText(ParseTime(time1.value), ParseTime(time2.value))
  }

  /** The placeholder appears exactly when one of the times is missing:
      every other outcome ends in `s`. */
  lemma FormatTimeDeltaMissing(time1: Option<string>, time2: Option<string>)
    ensures FormatTimeDelta(time1, time2) == "--" <==> Missing(time1) || Missing(time2)
  {
    if !(Missing(time1) || Missing(time2)) {
      var r := FormatTimeDelta(time1, time2);
      assert r[|r| - 1] == 's';
    }
  }

  /** The `+` is printed exactly when the printed number reads back as
      positive, which is what `delta > 0` compares. */
  lemma SignedPlus(x: real)
    ensures Signed(x)[0] == '+' <==> ParseFloat(ToFixed3(x)).Some? && ParseFloat(ToFixed3(x)).value > 0.0
  {
    ToFixed3ReadsBack(x);
    assert ToFixed3(x)[0] != '+' by {
      if x < 0.0 {
        assert ToFixed3(x)[0] == '-';
      } else {
        assert ToFixed3(x) == FixedDigits(Thousandths(x));
      }
    }
  }

  /** The text of a difference has a sign and the digits of its rounded
      magnitude: `+` for a positive, `-` for a negative, none when it
      rounds to zero from above. */
  lemma SignedShape(x: real)
    ensures x > 0.0 && Thousandths(x) > 0 ==> Signed(x) == "+" + FixedDigits(Thousandths(x))
    ensures x < 0.0 ==> Signed(x) == "-" + FixedDigits(Thousandths(x))
    ensures x >= 0.0 && Thousandths(x) == 0 ==> Signed(x) == FixedDigits(0)
  {
  }

  lemma ThousandthsNeg(x: real)
    ensures Thousandths(-x) == Thousandths(x)
  {
    assert Abs(-x) == Abs(x);
  }

  /** Comparing the drivers the other way round flips the sign and keeps
      the digits. */
  lemma SignedSwap(x: real)
    requires Thousandths(x) > 0
    ensures x > 0.0 ==> Signed(x) == "+" + FixedDigits(Thousandths(x)) && Signed(-x) == "-" + FixedDigits(Thousandths(x))
    ensures x < 0.0 ==> Signed(x) == "-" + FixedDigits(Thousandths(x)) && Signed(-x) == "+" + FixedDigits(Thousandths(x))
  {
    ThousandthsNeg(x);
  }

  // ---------------------------------------------------------------------
  // The minute boundary

  predicate AllDigits(s: string) {
    forall k :: 0 <= k < |s| ==> IsDigit(s[k])
  }

  /** A lap time "m:w.f", as qualifying times are written. */
  function Clock(m: string, w: string, f: string): string {
    m + ":" + w + "." + f
  }

  lemma {:induction false} SplitNone(s: string, c: char)
    requires c !in s
    ensures Split(s, c) == [s]
  {
    if s != [] {
      SplitNone(s[1..], c);
      assert [s[0]] + s[1..] == s;
    }
  }

  lemma {:induction false} SplitAt(a: string, b: string, c: char)
    requires c !in a
    ensures Split(a + [c] + b, c) == [a] + Split(b, c)
  {
    var s := a + [c] + b;
    if a == [] {
      assert s == [c] + b && s[1..] == b;
    } else {
      SplitAt(a[1..], b, c);
      assert s[1..] == a[1..] + [c] + b;
      assert [a[0]] + a[1..] == a;
    }
  }

  /** A lap time splits into its minutes and the rest. */
  lemma ClockParts(m: string, w: string, f: string)
    requires AllDigits(m) && AllDigits(w) && AllDigits(f)
    ensures Split(Clock(m, w, f), ':') == [m, w + "." + f]
  {
    assert forall k :: 0 <= k < |m| ==> m[k] != ':';
    var rest := w + "." + f;
    assert forall k :: 0 <= k < |rest| ==> rest[k] != ':' by {
      forall k | 0 <= k < |rest| ensures rest[k] != ':' {
        if k < |w| { assert rest[k] == w[k]; }
        else if k > |w| { assert rest[k] == f[k - |w| - 1]; }
      }
    }
    assert Clock(m, w, f) == m + [':'] + rest;
    SplitAt(m, rest, ':');
    SplitNone(rest, ':');
  }

  lemma {:induction false} KeepConcat(a: string, b: string)
    ensures KeepDecimalChars(a + b) == KeepDecimalChars(a) + KeepDecimalChars(b)
  {
    if a != [] {
      KeepConcat(a[1..], b);
      assert (a + b)[0] == a[0];
      assert (a + b)[1..] == a[1..] + b;
    } else {
      assert a + b == b;
    }
  }

  lemma {:induction false} KeepDigits(s: string)
    requires AllDigits(s)
    ensures KeepDecimalChars(s) == s
  {
    if s != [] {
      KeepDigits(s[1..]);
      assert [s[0]] + s[1..] == s;
    }
  }

  /** Removing everything but digits and dots from a lap time glues the
      minutes to the seconds. */
  lemma ClockKept(m: string, w: string, f: string)
    requires AllDigits(m) && AllDigits(w) && AllDigits(f)
    ensures KeepDecimalChars(Clock(m, w, f)) == m + w + "." + f
  {
    var colon, dot := [':'], ['.'];
    var sec := w + dot + f;
    assert Clock(m, w, f) == (m + colon) + sec;
    assert KeepDecimalChars(colon) == [] && KeepDecimalChars(dot) == dot;
    KeepConcat(m + colon, sec);
    KeepConcat(m, colon);
    KeepConcat(w + dot, f);
    KeepConcat(w, dot);
    KeepDigits(m);
    KeepDigits(w);
    assert KeepDecimalChars(m + colon) == m;
    assert KeepDecimalChars(w + dot) == w + dot;
    KeepDigits(f);
  }

  lemma {:induction false} DigitsConcat(a: string, b: string)
    requires AllDigits(a) && AllDigits(b)
    ensures AllDigits(a + b)
    ensures DigitsValue(a + b) == DigitsValue(a) * Pow10(|b|) + DigitsValue(b)
  {
    if b != [] {
      var init := b[..|b| - 1];
      var x := (b[|b| - 1] as int) - ('0' as int);
      DigitsConcat(a, init);
      assert (a + b)[..|a + b| - 1] == a + init;
      assert (a + b)[|a + b| - 1] == b[|b| - 1];
      assert b[..|b| - 1] == init;
      var da, di, p := DigitsValue(a), DigitsValue(init), Pow10(|init|);
      assert DigitsValue(a + b) == 10 * (da * p + di) + x;
      assert DigitsValue(b) == 10 * di + x;
      assert Pow10(|b|) == 10 * p;
      ShiftDigit(da, p);
    } else {
      assert a + b == a;
    }
  }

  lemma ShiftDigit(d: int, p: int)
    ensures 10 * (d * p) == d * (10 * p)
  {
  }

  lemma ParseTimeKept(m: string, w: string, f: string)
    requires AllDigits(m) && AllDigits(w) && AllDigits(f)
    ensures ParseTime(Clock(m, w, f)) == ParseFloat(m + w + "." + f)
  {
    ClockParts(m, w, f);
    ClockKept(m, w, f);
  }

  lemma DecimalShift(m: string, w: string, f: string)
    requires AllDigits(m) && AllDigits(w) && AllDigits(f)
    ensures AllDigits(m + w)
    ensures DecimalValue(m + w, f) == (DigitsValue(m) * Pow10(|w|)) as real + DecimalValue(w, f)
  {
    DigitsConcat(m, w);
  }

  /** As written, a lap time "m:w.f" is read as the number "mw.f": the
      minutes count as hundreds (for two-digit seconds) instead of sixties. */
  lemma ParseTimeClock(m: string, w: string, f: string)
    requires m != [] && w != []
    requires AllDigits(m) && AllDigits(w) && AllDigits(f)
    ensures ParseTime(Clock(m, w, f)) ==
      Some((DigitsValue(m) * Pow10(|w|)) as real + DecimalValue(w, f))
  {
    ParseTimeKept(m, w, f);
    ParseShifted(m, w, f);
  }

  lemma ParseShifted(m: string, w: string, f: string)
    requires m != [] && w != []
    requires AllDigits(m) && AllDigits(w) && AllDigits(f)
    ensures ParseFloat(m + w + "." + f) ==
      Some((DigitsValue(m) * Pow10(|w|)) as real + DecimalValue(w, f))
  {
    DecimalShift(m, w, f);
    ParseDecimal(m + w, f);
  }

  /** "1:59.900" (the string `Clock` builds from these parts) is read as
      159.9 seconds, though it is 119.9. */
  lemma ParseTimeLate(m: string, w: string, f: string)
    requires m == "1" && w == "59" && f == "900"
    ensures ParseTime(Clock(m, w, f)) == Some(159.9)
    ensures IntendedParseTime(Clock(m, w, f)) == Some(119.9)
  {
    BoundaryLiterals();
    ParseTimeClock(m, w, f);
    IntendedParseTimeClock(m, w, f);
  }

  /** "2:00.100" is read as 200.1 seconds, though it is 120.1. */
  lemma ParseTimeEarly(m: string, w: string, f: string)
    requires m == "2" && w == "00" && f == "100"
    ensures ParseTime(Clock(m, w, f)) == Some(200.1)
    ensures IntendedParseTime(Clock(m, w, f)) == Some(120.1)
  {
    BoundaryLiterals();
    ParseTimeClock(m, w, f);
    IntendedParseTimeClock(m, w, f);
  }

  lemma BoundaryLiterals()
    ensures "1:59.900" == Clock("1", "59", "900") && "2:00.100" == Clock("2", "00", "100")
    ensures AllDigits("1") && AllDigits("2") && AllDigits("59") && AllDigits("00")
    ensures AllDigits("900") && AllDigits("100")
    ensures DigitsValue("1") == 1 && DigitsValue("2") == 2
    ensures DigitsValue("59") == 59 && DigitsValue("00") == 0
    ensures DigitsValue("900") == 900 && DigitsValue("100") == 100
    ensures Pow10(2) == 100 && Pow10(3) == 1000
  {
  }

  /** `parseTime` as evidently intended: "m:s" is minutes and seconds,
      like the "h:m:s" branch. */
  function IntendedParseTime(t: string): Option<real> {
    var parts := Split(t, ':');
    if |parts| == 2 then MinutesSeconds(parts[0], parts[1]) else ParseTime(t)
  }

  /** "m:s" read as m minutes and s seconds. */
  function MinutesSeconds(m: string, s: string): Option<real> {
    AddOpt(match ParseFloat(m) case None => None case Some(mins) => Some(mins * 60.0), ParseFloat(s))
  }

  /** The length in seconds of the lap time "m:w.f". */
  function ClockSeconds(m: string, w: string, f: string): real
    requires AllDigits(m) && AllDigits(w) && AllDigits(f)
  {
    DigitsValue(m) as real * 60.0 + DecimalValue(w, f)
  }

  /** The intended reading of "m:w.f" is m minutes and w.f seconds. */
  lemma IntendedParseTimeClock(m: string, w: string, f: string)
    requires m != [] && w != []
    requires AllDigits(m) && AllDigits(w) && AllDigits(f)
    ensures IntendedParseTime(Clock(m, w, f)) == Some(ClockSeconds(m, w, f))
  {
    ClockParts(m, w, f);
    IntendedMinutes(Clock(m, w, f), m, w, f);
  }

  /** A string that splits into "m" and "w.f" is read as m minutes and w.f
      seconds. */
  lemma IntendedMinutes(t: string, m: string, w: string, f: string)
    requires m != [] && w != []
    requires AllDigits(m) && AllDigits(w) && AllDigits(f)
    requires Split(t, ':') == [m, w + "." + f]
    ensures IntendedParseTime(t) == Some(ClockSeconds(m, w, f))
  {
    MinutesSecondsClock(m, w, f);
  }

  lemma MinutesSecondsClock(m: string, w: string, f: string)
    requires m != [] && w != []
    requires AllDigits(m) && AllDigits(w) && AllDigits(f)
    ensures MinutesSeconds(m, w + "." + f) == Some(ClockSeconds(m, w, f))
  {
    ParseDigits(m);
    ParseDecimal(w, f);
  }

  /** A plain digit string is read as its value. */
  lemma ParseDigits(m: string)
    requires m != [] && AllDigits(m)
    ensures ParseFloat(m) == Some(DigitsValue(m) as real)
  {
    assert IsDigit(m[0]);
    ParseWhole(m);
  }

  /** Strings without a colon, or with two, read the same both ways. */
  lemma IntendedAgrees(t: string)
    requires |Split(t, ':')| != 2
    ensures IntendedParseTime(t) == ParseTime(t)
  {
  }

  /** A relative gap such as "+0.234s" or "-0.234s" is not passed
      through: sign and unit are deleted with the other characters, so
      both read as the positive 0.234. */
  lemma ParseTimeGap(sign: char, w: string, f: string)
    requires sign == '+' || sign == '-'
    requires w != [] && AllDigits(w) && AllDigits(f)
    ensures ParseTime([sign] + w + "." + f + "s") == Some(DecimalValue(w, f))
  {
    var dot, unit := ['.'], ['s'];
    var t := [sign] + (w + dot + f) + unit;
    assert t == [sign] + w + "." + f + "s";
    assert forall k :: 0 <= k < |t| ==> t[k] != ':' by {
      forall k | 0 <= k < |t| ensures t[k] != ':' {
        if 1 <= k < 1 + |w| { assert t[k] == w[k - 1]; }
        else if 1 + |w| < k < |t| - 1 { assert t[k] == f[k - |w| - 2]; }
      }
    }
    SplitNone(t, ':');
    KeepConcat([sign] + (w + dot + f), unit);
    KeepConcat([sign], w + dot + f);
    KeepConcat(w + dot, f);
    KeepConcat(w, dot);
    KeepDigits(w);
    KeepDigits(f);
    assert KeepDecimalChars([sign]) == [] && KeepDecimalChars(unit) == [] && KeepDecimalChars(dot) == dot;
    assert KeepDecimalChars(t) == w + dot + f;
    ParseDecimal(w, f);
  }

  /** Swapping the two times of a row flips the sign of the printed
      difference (when it does not round to zero). */
  lemma DeltaTextSwap(x: real, y: real)
    requires Thousandths(x - y) > 0
    ensures x > y ==> DeltaText(Some(x), Some(y))[0] == '+' && DeltaText(Some(y), Some(x))[0] == '-'
    ensures x < y ==> DeltaText(Some(x), Some(y))[0] == '-' && DeltaText(Some(y), Some(x))[0] == '+'
  {
    ThousandthsNeg(x - y);
    assert y - x == -(x - y);
  }

  /** `formatTimeDelta` with the intended reading of lap times. */
  function IntendedFormatTimeDelta(time1: Option<string>, time2: Option<string>): string {
    if Missing(time1) || Missing(time2) then "--"
    else DeltaText(IntendedParseTime(time1.value), IntendedParseTime(time2.value))
  }

  /** For two lap times of the same shape "m:w.f", the intended text is
      the signed difference of their lengths in seconds. */
  lemma IntendedFormatClock(m1: string, w1: string, f1: string, m2: string, w2: string, f2: string)
    requires m1 != [] && w1 != [] && m2 != [] && w2 != []
    requires AllDigits(m1) && AllDigits(w1) && AllDigits(f1)
    requires AllDigits(m2) && AllDigits(w2) && AllDigits(f2)
    ensures IntendedFormatTimeDelta(Some(Clock(m1, w1, f1)), Some(Clock(m2, w2, f2))) ==
      DeltaText(Some(ClockSeconds(m1, w1, f1)), Some(ClockSeconds(m2, w2, f2)))
  {
    var t1, t2 := Clock(m1, w1, f1), Clock(m2, w2, f2);
    ClockPresent(m1, w1, f1);
    ClockPresent(m2, w2, f2);
    IntendedParseTimeClock(m1, w1, f1);
    IntendedParseTimeClock(m2, w2, f2);
    IntendedFormatPresent(t1, t2);
  }

  lemma IntendedFormatPresent(t1: string, t2: string)
    requires !Missing(Some(t1)) && !Missing(Some(t2))
    ensures IntendedFormatTimeDelta(Some(t1), Some(t2)) == DeltaText(IntendedParseTime(t1), IntendedParseTime(t2))
  {
  }

  lemma FormatPresent(t1: string, t2: string)
    requires !Missing(Some(t1)) && !Missing(Some(t2))
    ensures FormatTimeDelta(Some(t1), Some(t2)) == DeltaText(ParseTime(t1), ParseTime(t2))
  {
  }

  lemma ClockPresent(m: string, w: string, f: string)
    requires m != [] && AllDigits(m)
    ensures !Missing(Some(Clock(m, w, f)))
  {
    var t := Clock(m, w, f);
    assert t[0] == m[0] && IsDigit(m[0]);
    assert "No Time"[0] == 'N';
  }

  // ---------------------------------------------------------------------
  // Colours and differences

  /** A cell style: none, or a colour with a font weight ("" for none). */
  datatype Style = NoStyle | Colored(color: string, weight: string)

  /** `getWinStyle(val1, val2, isLowerBetter)`. */
  function WinStyle(v1: Option<int>, v2: Option<int>, lowerBetter: bool): Style {
    if v1.None? || v2.None? then NoStyle
    else if v1.value == v2.value then Colored("gray", "")
    else if (if lowerBetter then v1.value < v2.value else v1.value > v2.value) then Colored("limegreen", "500")
    else Colored("tomato", "500")
  }

  /** A cell is green exactly when both values exist and it holds the
      better one; the two cells of a row are green and red, gray and gray,
      or both unstyled. */
  lemma WinStyleSpec(v1: Option<int>, v2: Option<int>, lowerBetter: bool)
    ensures WinStyle(v1, v2, lowerBetter) == Colored("limegreen", "500") <==>
      v1.Some? && v2.Some? && (if lowerBetter then v1.value < v2.value else v2.value < v1.value)
    ensures WinStyle(v1, v2, lowerBetter) == NoStyle <==> v1.None? || v2.None?
    ensures WinStyle(v1, v2, lowerBetter) == Colored("gray", "") <==> WinStyle(v2, v1, lowerBetter) == Colored("gray", "")
    ensures WinStyle(v1, v2, lowerBetter) == Colored("limegreen", "500") <==>
      WinStyle(v2, v1, lowerBetter) == Colored("tomato", "500")
  {
  }

  /** `a - b` when both values exist, else `null`. */
  function Delta(a: Option<int>, b: Option<int>): (r: Option<int>)
    ensures r.Some? <==> a.Some? && b.Some?
    ensures r.Some? ==> a.value == b.value + r.value
  {
    if a.Some? && b.Some? then Some(a.value - b.value) else None
  }

  /** Swapping the two drivers negates a difference. */
  lemma DeltaSwap(a: Option<int>, b: Option<int>)
    ensures Delta(b, a) == match Delta(a, b) case None => None case Some(d) => Some(-d)
  {
  }

  /** `${d > 0 ? "+" : ""}${d}`. */
  function SignedInt(d: int): string {
    (if d > 0 then "+" else "") + IntToString(d)
  }

  /** A difference column: the signed difference, or "--". */
  function DeltaCell(d: Option<int>): string {
    if d.Some? then SignedInt(d.value) else "--"
  }

  /** The signed text starts with `+` for a positive difference, `-` for a
      negative one, and is the digits of 0 otherwise. */
  lemma SignedIntSpec(d: int)
    ensures d > 0 ==> SignedInt(d) == "+" + NatToString(d)
    ensures d < 0 ==> SignedInt(d) == "-" + NatToString(-d)
    ensures d == 0 ==> SignedInt(d) == "0"
  {
    if d == 0 {
      assert NatToString(0) == [DigitChar(0)];
    }
  }

  /** The position difference colour: none when the positions are equal,
      green when driver 1 finished ahead, red otherwise, including when a
      position is missing (`null < 0` is false). */
  function PositionStyle(posDelta: Option<int>): Style {
    if posDelta == Some(0) then NoStyle
    else Colored(if posDelta.GetOr(0) < 0 then "green" else "red", "bold")
  }

  lemma PositionStyleSpec(p1: Option<int>, p2: Option<int>)
    ensures PositionStyle(Delta(p1, p2)) == Colored("green", "bold") <==> p1.Some? && p2.Some? && p1.value < p2.value
    ensures PositionStyle(Delta(p1, p2)) == NoStyle <==> p1.Some? && p2.Some? && p1.value == p2.value
    ensures p1.None? || p2.None? ==> PositionStyle(Delta(p1, p2)) == Colored("red", "bold")
  {
  }

  /** One row of the qualifying table. */
  datatype QualiView = QualiView(
    circuit: string, style1: Style, style2: Style, gridDiff: string, timeDiff: string)

  function QualiViewOf(q1: QualiRow, q2: QualiRow): QualiView {
    QualiView(q1.circuit, WinStyle(q1.grid, q2.grid, true), WinStyle(q2.grid, q1.grid, true),
              DeltaCell(Delta(q1.grid, q2.grid)), FormatTimeDelta(q1.time, q2.time))
  }

  /** One row of the race table. */
  datatype RaceView = RaceView(
    circuit: string, points1: int, points2: int, style: Style, positionDiff: string, pointsDiff: string)

  function RaceViewOf(r1: RaceRow, r2: RaceRow): RaceView {
    var d := Delta(r1.position, r2.position);
    RaceView(r1.circuit, r1.points, r2.points, PositionStyle(d), DeltaCell(d), SignedInt(r1.points - r2.points))
  }

  /** The qualifying table of two drivers: one row per race. */
  function QualiTable(races: seq<Race>, d1: string, d2: string): (r: seq<QualiView>)
    requires AllHaveCircuit(races)
    ensures |r| == |races|
  {
    var q1, q2 := QualifyingResultsByRound(races, d1), QualifyingResultsByRound(races, d2);
    seq(|races|, i requires 0 <= i < |races| => QualiViewOf(q1[i], q2[i]))
  }

  /** The race table of two drivers: one row per race. */
  function RaceTable(races: seq<Race>, d1: string, d2: string): (r: seq<RaceView>)
    requires AllHaveRaceResults(races) && AllHaveCircuit(races)
    ensures |r| == |races|
  {
    var r1, r2 := DriverResultsByRound(races, d1), DriverResultsByRound(races, d2);
    seq(|races|, i requires 0 <= i < |races| => RaceViewOf(r1[i], r2[i]))
  }

  /** Comparing a driver with itself: every qualifying row has matching
      styles, a grid difference of 0 or "--", and every race row has no
      position colour unless the position is missing, and a points
      difference of 0. */
  lemma SelfComparison(races: seq<Race>, d: string, i: nat)
    requires AllHaveRaceResults(races) && AllHaveCircuit(races) && i < |races|
    ensures QualiTable(races, d, d)[i].style1 == QualiTable(races, d, d)[i].style2
    ensures QualiTable(races, d, d)[i].gridDiff in {"0", "--"}
    ensures RaceTable(races, d, d)[i].pointsDiff == "0"
    ensures RaceTable(races, d, d)[i].positionDiff == "--" <==> DriverResultsByRound(races, d)[i].position.None?
  {
    SignedIntSpec(0);
  }

  // ---------------------------------------------------------------------
  // Driver choices

  /** `[...new Set(races.flatMap(r => r.race_results.map(res => res.driver)))]`. */
  function AllDrivers(races: seq<Race>): seq<string>
    requires AllHaveRaceResults(races)
  {
    Distinct(Flatten(races))
  }

  function Flatten(races: seq<Race>): (r: seq<string>)
    requires AllHaveRaceResults(races)
  {
    if races == [] then []
    else Flatten(races[..|races| - 1]) + DriversOf(races[|races| - 1].raceResults.value)
  }

  /** The choices list every driver of a race result once, in order of
      first appearance. */
  lemma AllDriversSpec(races: seq<Race>)
    requires AllHaveRaceResults(races)
    ensures NoDup(AllDrivers(races))
    ensures forall d :: d in AllDrivers(races) <==>
      exists i, k :: 0 <= i < |races| && 0 <= k < |races[i].raceResults.value| && races[i].raceResults.value[k].driver == d
  {
    DistinctContents(Flatten(races));
    forall d ensures d in Flatten(races) <==>
      exists i, k :: 0 <= i < |races| && 0 <= k < |races[i].raceResults.value| && races[i].raceResults.value[k].driver == d
    {
      FlattenContents(races, d);
    }
    forall d ensures d in AllDrivers(races) <==> d in Flatten(races) {
      if d in Flatten(races) {
        var k :| 0 <= k < |Flatten(races)| && Flatten(races)[k] == d;
      }
    }
  }

  lemma {:induction false} FlattenContents(races: seq<Race>, d: string)
    requires AllHaveRaceResults(races)
    ensures d in Flatten(races) <==>
      exists i, k :: 0 <= i < |races| && 0 <= k < |races[i].raceResults.value| && races[i].raceResults.value[k].driver == d
  {
    if races != [] {
      var init := races[..|races| - 1];
      var es := races[|races| - 1].raceResults.value;
      FlattenContents(init, d);
      if d in DriversOf(es) {
        var k :| 0 <= k < |es| && DriversOf(es)[k] == d;
        assert races[|races| - 1].raceResults.value[k].driver == d;
      }
      if exists i, k :: 0 <= i < |races| && 0 <= k < |races[i].raceResults.value| && races[i].raceResults.value[k].driver == d {
        var i, k :| 0 <= i < |races| && 0 <= k < |races[i].raceResults.value| && races[i].raceResults.value[k].driver == d;
        if i < |init| {
          assert init[i] == races[i];
        } else {
          assert DriversOf(es)[k] == d;
        }
      }
    }
  }
}
