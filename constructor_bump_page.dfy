/** The tooltip of the constructor bump chart: for the hovered team and
    round, its name, rank and points, then the gaps read off a snapshot of
    every team's points at that round, sorted largest first. */
module ConstructorBumpPage {
  import opened Maybe
  import opened Seqs
  import opened StableSort
  import opened Text
  import ST = SeriesTable

  /** One `{ team, points }` of the snapshot. */
  datatype Standing = Standing(team: string, points: int)

  /** `pointsArray[roundIndex] || 0` (and `?.[roundIndex] ?? 0`): a value
      past the end of the array reads as 0. */
  function PointsAt(row: seq<int>, k: nat): int {
    if k < |row| then row[k] else 0
  }

  // ---------------------------------------------------------------------
  // label

  /** `${position}`: a team without a rank prints "null". */
  function RankText(position: Option<int>): string {
    match position
    case None => "null"
    case Some(p) => IntToString(p)
  }

  /** The `label` callback: team, rank and the cumulative points of the
      hovered team at the hovered round (0 when unknown). */
  function LabelLines(cumulative: ST.Table<int>, team: string, position: Option<int>, k: nat): (r: seq<string>)
    ensures |r| == 3 && r[0] == team
    ensures r[1] == "Position: P" + RankText(position)
    ensures team !in cumulative.rows ==> r[2] == "Points: 0"
    ensures team in cumulative.rows && k < |cumulative.rows[team]| ==>
      r[2] == "Points: " + IntToString(cumulative.rows[team][k])
  {
    assert IntToString(0) == "0" by {
      assert NatToString(0) == [DigitChar(0)];
    }
    [team, "Position: P" + RankText(position), "Points: " + IntToString(PointsAt(ST.Row(cumulative, team), k))]
  }

  // ---------------------------------------------------------------------
  // The snapshot

  /** `cumulativeMap.forEach((arr, team) => teams.push({ team, points }))`:
      every team in key order with its points at round k. */
  function Unsorted(cumulative: ST.Table<int>, k: nat): (r: seq<Standing>)
    ensures |r| == |cumulative.keys|
  {
    seq(|cumulative.keys|, j requires 0 <= j < |cumulative.keys| =>
      Standing(cumulative.keys[j], PointsAt(ST.Row(cumulative, cumulative.keys[j]), k)))
  }

  /** `(a, b) => b.points - a.points`: more points first. */
  function ByPointsDesc(): (Standing, Standing) -> bool {
    ByKeyDesc((s: Standing) => s.points as real)
  }

  /** The snapshot after `teams.sort(...)`. */
  function Snapshot(cumulative: ST.Table<int>, k: nat): (r: seq<Standing>)
    ensures |r| == |cumulative.keys|
  {
    Sort(Unsorted(cumulative, k), ByPointsDesc())
  }

  function Names(r: seq<Standing>): (n: seq<string>)
    ensures |n| == |r| && forall i :: 0 <= i < |r| ==> n[i] == r[i].team
  {
    seq(|r|, i requires 0 <= i < |r| => r[i].team)
  }

  /** Points of a team at round k. */
  function TeamPoints(cumulative: ST.Table<int>, team: string, k: nat): int {
    PointsAt(ST.Row(cumulative, team), k)
  }

  /** The snapshot lists every team exactly once with its points at round
      k, and no team has more points than one listed ahead of it. */
  lemma SnapshotSpec(cumulative: ST.Table<int>, k: nat)
    requires ST.Valid(cumulative)
    ensures NoDup(Names(Snapshot(cumulative, k)))
    ensures forall team :: team in Names(Snapshot(cumulative, k)) <==> team in cumulative.keys
    ensures forall i :: 0 <= i < |cumulative.keys| ==>
      Snapshot(cumulative, k)[i].points == TeamPoints(cumulative, Snapshot(cumulative, k)[i].team, k)
    ensures forall i, j :: 0 <= i < j < |cumulative.keys| ==>
      Snapshot(cumulative, k)[i].points >= Snapshot(cumulative, k)[j].points
  {
    SnapshotMembers(cumulative, k);
    SnapshotCovers(cumulative, k);
    SnapshotNoDup(cumulative, k);
    SnapshotSorted(cumulative, k);
  }

  lemma SnapshotMembers(cumulative: ST.Table<int>, k: nat)
    ensures forall i :: 0 <= i < |cumulative.keys| ==>
      Snapshot(cumulative, k)[i] in Unsorted(cumulative, k)
    ensures forall i :: 0 <= i < |cumulative.keys| ==>
      Snapshot(cumulative, k)[i].team in cumulative.keys &&
      Snapshot(cumulative, k)[i].points == TeamPoints(cumulative, Snapshot(cumulative, k)[i].team, k)
  {
    var u, r := Unsorted(cumulative, k), Snapshot(cumulative, k);
    SortPermutes(u, ByPointsDesc());
    forall i | 0 <= i < |r|
      ensures r[i] in u
    {
      assert r[i] in multiset(r);
    }
  }

  lemma SnapshotCovers(cumulative: ST.Table<int>, k: nat)
    ensures forall team :: team in cumulative.keys ==> team in Names(Snapshot(cumulative, k))
  {
    var u, r := Unsorted(cumulative, k), Snapshot(cumulative, k);
    SortPermutes(u, ByPointsDesc());
    forall team | team in cumulative.keys ensures team in Names(r) {
      var j :| 0 <= j < |cumulative.keys| && cumulative.keys[j] == team;
      assert u[j] in multiset(u);
      assert u[j] in r;
      var i :| 0 <= i < |r| && r[i] == u[j];
      assert Names(r)[i] == team;
    }
  }

  lemma SnapshotNoDup(cumulative: ST.Table<int>, k: nat)
    requires ST.Valid(cumulative)
    ensures NoDup(Names(Snapshot(cumulative, k)))
  {
    var u, r := Unsorted(cumulative, k), Snapshot(cumulative, k);
    SnapshotMembers(cumulative, k);
    UnsortedNoDup(cumulative, k);
    SortNoDup(u, ByPointsDesc());
    forall i, j | 0 <= i < j < |r| ensures r[i].team != r[j].team {
      assert r[i] != r[j];
    }
  }

  lemma SnapshotSorted(cumulative: ST.Table<int>, k: nat)
    ensures forall i, j :: 0 <= i < j < |cumulative.keys| ==>
      Snapshot(cumulative, k)[i].points >= Snapshot(cumulative, k)[j].points
  {
    KeyOrders((s: Standing) => s.points as real);
    SortSorted(Unsorted(cumulative, k), ByPointsDesc());
  }

  lemma UnsortedNoDup(cumulative: ST.Table<int>, k: nat)
    requires ST.Valid(cumulative)
    ensures NoDup(Unsorted(cumulative, k))
  {
  }

  /** `teams.findIndex(t => t.team === hovered) + 1`. */
  function Position(cumulative: ST.Table<int>, hovered: string, k: nat): (p: nat)
    requires ST.Valid(cumulative) && hovered in cumulative.keys
    ensures 1 <= p <= |cumulative.keys|
    ensures Snapshot(cumulative, k)[p - 1].team == hovered
  {
    SnapshotSpec(cumulative, k);
    IndexOf(Names(Snapshot(cumulative, k)), hovered) + 1
  }

  /** The hovered team is ranked below exactly the teams with more points
      and the tied teams that come earlier in the map. */
  lemma PositionOrder(cumulative: ST.Table<int>, k: nat, hovered: string, other: string)
    requires ST.Valid(cumulative) && hovered in cumulative.keys && other in cumulative.keys && hovered != other
    ensures Position(cumulative, other, k) < Position(cumulative, hovered, k) <==>
      TeamPoints(cumulative, other, k) > TeamPoints(cumulative, hovered, k) ||
      (TeamPoints(cumulative, other, k) == TeamPoints(cumulative, hovered, k) &&
       IndexOf(cumulative.keys, other) < IndexOf(cumulative.keys, hovered))
  {
    var u := Unsorted(cumulative, k);
    var a := Standing(other, TeamPoints(cumulative, other, k));
    var b := Standing(hovered, TeamPoints(cumulative, hovered, k));
    UnsortedIndex(cumulative, k, other);
    UnsortedIndex(cumulative, k, hovered);
    UnsortedNoDup(cumulative, k);
    KeyOrders((s: Standing) => s.points as real);
    SortedOrder(u, ByPointsDesc(), a, b);
    PositionIndex(cumulative, k, other);
    PositionIndex(cumulative, k, hovered);
  }

  /** A team's entry in the unsorted snapshot sits at its index in the map. */
  lemma UnsortedIndex(cumulative: ST.Table<int>, k: nat, team: string)
    requires ST.Valid(cumulative) && team in cumulative.keys
    ensures Standing(team, TeamPoints(cumulative, team, k)) in Unsorted(cumulative, k)
    ensures IndexOf(Unsorted(cumulative, k), Standing(team, TeamPoints(cumulative, team, k))) ==
      IndexOf(cumulative.keys, team)
  {
    var u, j := Unsorted(cumulative, k), IndexOf(cumulative.keys, team);
    assert u[j] == Standing(team, TeamPoints(cumulative, team, k));
    UnsortedNoDup(cumulative, k);
    NoDupIndex(u, j);
  }

  /** The position is one past the index of the team's entry in the
      snapshot. */
  lemma PositionIndex(cumulative: ST.Table<int>, k: nat, team: string)
    requires ST.Valid(cumulative) && team in cumulative.keys
    ensures Standing(team, TeamPoints(cumulative, team, k)) in Snapshot(cumulative, k)
    ensures Position(cumulative, team, k) ==
      IndexOf(Snapshot(cumulative, k), Standing(team, TeamPoints(cumulative, team, k))) + 1
  {
    var r, p := Snapshot(cumulative, k), Position(cumulative, team, k);
    SnapshotMembers(cumulative, k);
    assert r[p - 1] == Standing(team, TeamPoints(cumulative, team, k));
    UnsortedNoDup(cumulative, k);
    SortNoDup(Unsorted(cumulative, k), ByPointsDesc());
    NoDupIndex(r, p - 1);
  }

  lemma NoDupIndex(s: seq<Standing>, i: nat)
    requires NoDup(s) && i < |s|
    ensures IndexOf(s, s[i]) == i
  {
  }

  // ---------------------------------------------------------------------
  // afterBody

  /** The gaps `afterBody` computes. For the leader, `toPrevious` is the
      lead over second place (over 0 when the leader is alone). */
  datatype Gaps = Gaps(position: nat, toLeader: int, toPrevious: int)

  function GapsOf(cumulative: ST.Table<int>, hovered: string, k: nat): Gaps
    requires ST.Valid(cumulative) && hovered in cumulative.keys
  {
    var teams := Snapshot(cumulative, k);
    var pos := Position(cumulative, hovered, k);
    var own := teams[pos - 1].points;
    if pos == 1 then Gaps(1, 0, own - (if |teams| > 1 then teams[1].points else 0))
    else Gaps(pos, teams[0].points - own, teams[pos - 2].points - own)
  }

  /** Gap to the leader: the most points of any team minus the hovered
      team's; gap to the previous place: that team's points minus the
      hovered team's. Neither is negative, and the gap to the previous
      place is at most the gap to the leader. */
  lemma GapsSpec(cumulative: ST.Table<int>, hovered: string, k: nat)
    requires ST.Valid(cumulative) && hovered in cumulative.keys
    ensures var g := GapsOf(cumulative, hovered, k);
      var teams := Snapshot(cumulative, k);
      var own := TeamPoints(cumulative, hovered, k);
      && g.position == Position(cumulative, hovered, k)
      && (forall team :: team in cumulative.keys ==> teams[0].points >= TeamPoints(cumulative, team, k))
      && (g.position > 1 ==>
            g.toLeader == teams[0].points - own && 0 <= g.toPrevious <= g.toLeader &&
            g.toPrevious == teams[g.position - 2].points - own)
      && (g.position == 1 ==> g.toPrevious >= 0 || |teams| == 1)
      && (g.position == 1 && |teams| > 1 ==> g.toPrevious == own - teams[1].points)
  {
    var teams := Snapshot(cumulative, k);
    var pos := Position(cumulative, hovered, k);
    SnapshotSpec(cumulative, k);
    assert teams[pos - 1].points == TeamPoints(cumulative, hovered, k);
    LeaderMost(cumulative, k);
  }

  /** The first team of the snapshot has the most points. */
  lemma LeaderMost(cumulative: ST.Table<int>, k: nat)
    requires ST.Valid(cumulative) && cumulative.keys != []
    ensures forall team :: team in cumulative.keys ==>
      Snapshot(cumulative, k)[0].points >= TeamPoints(cumulative, team, k)
  {
    SnapshotSpec(cumulative, k);
    var teams := Snapshot(cumulative, k);
    forall team | team in cumulative.keys ensures teams[0].points >= TeamPoints(cumulative, team, k) {
      var i :| 0 <= i < |teams| && Names(teams)[i] == team;
      assert teams[i].team == team;
    }
  }

  function GapLine(place: string, sign: string, gap: int): string {
    "Gap to " + place + ": " + sign + IntToString(gap) + " pts"
  }

  /** The lines `afterBody` returns. */
  function AfterBodyLines(cumulative: ST.Table<int>, hovered: string, k: nat): (r: seq<string>)
    requires ST.Valid(cumulative) && hovered in cumulative.keys
  {
    var g := GapsOf(cumulative, hovered, k);
    if g.position == 1 then
      if g.toPrevious > 0 then [GapLine("P2", "+", g.toPrevious)] else []
    else
      [GapLine("P1", "-", g.toLeader)] +
      (if g.toPrevious > 0 then [GapLine("P" + IntToString(g.position - 1), "-", g.toPrevious)] else [])
  }

  /** The leader gets one line iff it is strictly ahead of second place;
      any other team always gets the gap to the leader, and the gap to the
      team one place above only when that team has strictly more points. */
  lemma AfterBodySpec(cumulative: ST.Table<int>, hovered: string, k: nat)
    requires ST.Valid(cumulative) && hovered in cumulative.keys
    ensures var g := GapsOf(cumulative, hovered, k);
      var r := AfterBodyLines(cumulative, hovered, k);
      (g.position == 1 ==> (|r| == 1 <==> g.toPrevious > 0) && |r| <= 1) &&
      (g.position > 1 ==>
         1 <= |r| <= 2 && r[0] == GapLine("P1", "-", g.toLeader) &&
         (|r| == 2 <==> Snapshot(cumulative, k)[g.position - 2].points > TeamPoints(cumulative, hovered, k)))
  {
    GapsSpec(cumulative, hovered, k);
  }

  /** The first half of `afterBody`: push every team's points at the
      hovered round, then sort the array. */
  method TakeSnapshot(cumulative: ST.Table<int>, k: nat) returns (teams: seq<Standing>)
    ensures teams == Snapshot(cumulative, k)
  {
    teams := [];
    for j := 0 to |cumulative.keys|
      invariant teams == Unsorted(cumulative, k)[..j]
    {
      var team := cumulative.keys[j];
      teams := teams + [Standing(team, PointsAt(ST.Row(cumulative, team), k))];
    }
    assert teams == Unsorted(cumulative, k);
    teams := Sort(teams, ByPointsDesc());
  }

  /** `afterBody`: take the snapshot, find the hovered team in it and read
      the gaps. */
  method AfterBody(cumulative: ST.Table<int>, hovered: string, k: nat) returns (r: seq<string>)
    requires ST.Valid(cumulative) && hovered in cumulative.keys
    ensures r == AfterBodyLines(cumulative, hovered, k)
  {
    var teams := TakeSnapshot(cumulative, k);
    var pos := Position(cumulative, hovered, k);
    assert pos == IndexOf(Names(teams), hovered) + 1;
    var own := teams[pos - 1].points;
    if pos == 1 {
      var gap := own - (if |teams| > 1 then teams[1].points else 0);
      r := if gap > 0 then [GapLine("P2", "+", gap)] else [];
    } else {
      var gapToLeader := teams[0].points - own;
      var gapToPrevious := teams[pos - 2].points - own;
      r := [GapLine("P1", "-", gapToLeader)] +
        (if gapToPrevious > 0 then [GapLine("P" + IntToString(pos - 1), "-", gapToPrevious)] else []);
    }
  }
}
