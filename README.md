# F1 career bumps: a verified model of the dashboard's data layer

This project models, in Dafny, the logic that lies behind the F1 career
bumps dashboard's charts. Each page of the dashboard turns a season of
race records, or a session of OpenF1 telemetry, into chart series, tables
and formatted labels. The model keeps the source's own structure: one
module per source file, with shared helpers. Where the source changes
state step by step (a `Map` of arrays grown by `push`, a `Set` filled in a
loop, a stats object updated in place), the model has a method with a loop
and invariants. That method is proved equal to a specification function,
and the properties the dashboard relies on are proved about that function.

Modules:

- `DataProcessing`: driver-identity normalisation (the rename rules), the team
  colour table and the sorted driver list (`src/utils/dataProcessing.js`).
- `F1DataComponents`, `SeriesTable`, `ConstructorStandings`,
  `DriverSelection`: the championship, race-results and constructor hooks,
  and the driver-selection handler (`src/components/F1DataComponents.jsx`).
  `SeriesTable` is the `Map`-of-arrays builder that the first two hooks share.
- `DriverStats`, `HeadToHead`, `CompositeScore`: `parseDriverStats`. These
  cover per-driver aggregation, the primary team, teammate head-to-head,
  min-max normalisation and the weighted composite score
  (`src/utils/parseDriverStats.js`).
- `DriverHeadToHeadPage`, `DriverResultsPage`, `DriverStatsPage`,
  `ConstructorBumpPage`, `PitStopAnalysisPage`, `PitStrategyPage`,
  `SectorAnalysisPage`: the page-level computations of `src/pages/`.
- Shared helpers:
  - `RaceData`: the race and result records.
  - `OpenF1`: OpenF1 driver records, and the order in which an object keyed
    by driver number lists its keys.
  - `Seqs`, `Tallies`, `Text`, `StableSort`, `Maybe`: the JavaScript built-ins
    the code uses. These include `Array.prototype.sort` (a stable sort),
    `Set` and `Map` insertion order, `parseFloat` and `toFixed(3)`.

JavaScript values are modelled as follows:

- Numbers are `int` for points and positions, and `real` for times,
  averages and scores.
- `null` and `undefined` are `Option`, and `NaN` is `None` where the code
  can produce it.
- A `Map` or `Set` is a sequence of keys in insertion order, plus a `map`.
- Object keys that look like integers (driver numbers) are listed in
  ascending numeric order. JavaScript lists such keys that way whatever the
  insertion order.

## Model

| member | source | states |
|---|---|---|
| DataProcessing.ProcessEntry | src/utils/dataProcessing.js:37-46 | the copy's driver is the `to` of the last rule matching the original entry (rules read the original, never the renamed copy) |
| DataProcessing.ProcessList | src/utils/dataProcessing.js:35-48 | a present list is mapped entry by entry; a missing list stays missing |
| DataProcessing.ProcessDriverChanges | src/utils/dataProcessing.js:29-53 | the loop over races returns exactly the normalised season |
| DataProcessing.UseProcessedRaceData | src/utils/dataProcessing.js:56-61 | a missing or empty input gives `[]`; otherwise the normalised season under the shipped table |
| DataProcessing.NormalizedShape | src/utils/dataProcessing.js:30-47 | same races in the same order; each result list keeps its presence, length and order, and only `driver` can differ |
| DataProcessing.NoMatchKeeps | src/utils/dataProcessing.js:40-44 | with no rule matching the original entry, the driver is kept |
| DataProcessing.LastMatchWins | src/utils/dataProcessing.js:40-44 | when several rules match, the last matching one in table order decides the name |
| DataProcessing.MatchRenames | src/utils/dataProcessing.js:40-44 | when some rule matches, the name becomes the `to` of the last matching rule, whatever the round |
| DataProcessing.ShippedRename | src/utils/dataProcessing.js:19-26 | with the shipped table, exactly Jack Doohan's Alpine entries become Franco Colapinto |
| DataProcessing.RenameEntryIdempotent | src/utils/dataProcessing.js:40-44 | for a table where no `to` is a `from` of the same team, renaming an entry twice equals renaming it once |
| DataProcessing.RenameListIdempotent | src/utils/dataProcessing.js:36-47 | the same for a whole result list |
| DataProcessing.NormalizedIdempotent | src/utils/dataProcessing.js:29-53 | normalising a season twice equals normalising it once, for such a table |
| DataProcessing.ShippedIdempotent | src/utils/dataProcessing.js:19-26 | `processDriverChanges` under the shipped table is idempotent on every season |
| DataProcessing.TeamColor | src/utils/dataProcessing.js:64-66 | a listed team gets its table colour; the fallback `#888888` is returned exactly for unlisted names |
| DataProcessing.GetAllDrivers | src/utils/dataProcessing.js:69-78 | the result holds exactly the race-result drivers, each once, in strictly ascending string order; races without `race_results` add none |
| DataProcessing.AddDrivers | src/utils/dataProcessing.js:72-76 | adding a race's drivers to an insertion-ordered set keeps it free of repeats and adds exactly those drivers |
| DataProcessing.SortedNames | src/utils/dataProcessing.js:78 | `sort()` on distinct names keeps the same names, in strictly ascending order |
| RaceData.FindDriver | src/components/F1DataComponents.jsx:99-101 | `find` by driver is `None` iff no entry names the driver; otherwise it is an entry of that driver |
| RaceData.ListedIffFound | src/components/F1DataComponents.jsx:48-50 | `some(res => res.driver === d)` holds iff `find` succeeds |
| RaceData.FindLastDriver | src/components/F1DataComponents.jsx:21-23 | the sprint lookup `Map` keeps an entry of that driver (the last one set) |
| Tallies.Tally.Add | src/components/F1DataComponents.jsx:141 | `m.set(k, (m.get(k) \|\| 0) + n)` adds `n` to `k` alone, puts a new key at the back and keeps the keys distinct |
| SeriesTable.PushEach | src/components/F1DataComponents.jsx:84-89 | the push loop over a round's entries builds the pushed table |
| SeriesTable.PadShort | src/components/F1DataComponents.jsx:91-95 | the padding loop over the map's entries gives every array shorter than the round count one filler |
| SeriesTable.PushAllRow | src/components/F1DataComponents.jsx:84-89 | in a round listing each driver at most once, a listed driver gets exactly one pushed value; an unlisted driver's array is unchanged |
| SeriesTable.StepBound | src/components/F1DataComponents.jsx:84-95 | after the pushes and padding of a round listing each driver at most once, no array is longer than the number of rounds so far |
| SeriesTable.RoundRow | src/components/F1DataComponents.jsx:84-95 | in a round listing each driver at most once, an array as long as the rounds before gains exactly one value: the pushed one if listed, the filler if not |
| SeriesTable.LateRow | src/components/F1DataComponents.jsx:84-95 | in a round listing each driver at most once, a driver first listed after round 0 gets the pushed value and then a filler, two values in one round |
| SeriesTable.BuildFromFirstRound | src/components/F1DataComponents.jsx:80-96 | with one entry per driver per round, a driver listed in round 0 has exactly one value per round, as the series prescribes |
| SeriesTable.BuildBounded | src/components/F1DataComponents.jsx:80-96 | with one entry per driver per round, no array is ever longer than the number of rounds |
| SeriesTable.BuildKeys | src/components/F1DataComponents.jsx:84-89 | a key has an array iff some round lists it; padding never creates one |
| SeriesTable.FirstListedSpec | src/components/F1DataComponents.jsx:85-87 | the first round creating a driver's array is the first round listing them |
| SeriesTable.LateJoiner | src/components/F1DataComponents.jsx:91-95 | with one entry per driver per round, a driver first listed in round k ≥ 1 has two values right after round k |
| SeriesTable.Fillers | src/components/F1DataComponents.jsx:39-44 | the array a never-listed driver would reach after n rounds of padding has n values |
| SeriesTable.OpenRow | src/components/F1DataComponents.jsx:30-32 | corrected array creation: existing arrays are kept, a listed driver without one gets the leading fillers, and no other key is created |
| SeriesTable.IntendedRoundRow | src/components/F1DataComponents.jsx:26-44 | corrected round, in a round listing each driver at most once, on arrays with one value per earlier round: a known or listed driver gains exactly one value on top of its array (a new driver on top of one filler per earlier round); no other key appears |
| SeriesTable.IntendedStep | src/components/F1DataComponents.jsx:26-44 | corrected build, with one entry per driver per round: round n adds exactly one value, the pushed one or the filler, on top of the driver's array or of n − 1 fillers for a new driver |
| SeriesTable.IntendedAligned | src/components/F1DataComponents.jsx:26-44 | corrected build, with one entry per driver per round: a driver has an array iff some round lists them, and then exactly one value per round from round 0, aligned with the labels |
| SeriesTable.SeriesUnlisted | src/components/F1DataComponents.jsx:39-44 | before the first round listing a driver, the prescribed series is all fillers |
| SeriesTable.IntendedSeries | src/components/F1DataComponents.jsx:26-44 | corrected build, with one entry per driver per round: a listed driver's array is the prescribed series for every round from round 0, fillers included before the first listing; an unlisted driver has none |
| SeriesTable.IntendedAgrees | src/components/F1DataComponents.jsx:26-44 | with one entry per driver per round, the correction changes nothing for a driver listed in round 0 |
| F1DataComponents.ChampionshipLabel | src/components/F1DataComponents.jsx:16 | the label is the circuit's first space-free token (kept even when empty), or `R<round>` without a circuit |
| F1DataComponents.ConstructorLabel | src/components/F1DataComponents.jsx:131-133 | the constructor label is never empty (`\|\|` also replaces an empty token) |
| F1DataComponents.LabelsAgree | src/components/F1DataComponents.jsx:131-133 | the two hooks' labels agree iff the circuit is missing or its first token is non-empty |
| F1DataComponents.Labels | src/components/F1DataComponents.jsx:15-17 | one label per race, in race order |
| F1DataComponents.FirstTeam | src/components/F1DataComponents.jsx:47-50 | a dataset's team is missing iff no race lists the driver |
| F1DataComponents.SeriesColor | src/components/F1DataComponents.jsx:52-57 | a series is greyed out exactly when a selection exists without it; otherwise it takes its team colour |
| F1DataComponents.Datasets | src/components/F1DataComponents.jsx:47-64 | one dataset per map key, in key order, carrying that key's array |
| F1DataComponents.NormalizedKeepsRaceResults | src/utils/dataProcessing.js:34-37 | normalisation keeps every race's `race_results` present |
| F1DataComponents.PositionTableStep | src/components/F1DataComponents.jsx:80-96 | round i pushes the round's positions and pads to i + 1 |
| F1DataComponents.PositionRowsBounded | src/components/F1DataComponents.jsx:91-95 | with one entry per driver per round, no position array is longer than the number of rounds |
| F1DataComponents.PositionsFromRoundZero | src/components/F1DataComponents.jsx:84-95 | with one entry per driver per round, a driver of round 0 has one entry per round: their position, or `null` when absent |
| F1DataComponents.UseRaceResultsData | src/components/F1DataComponents.jsx:71-119 | `null` iff the season is missing or empty; otherwise the chart of the normalised season |
| F1DataComponents.BuildRaceResults | src/components/F1DataComponents.jsx:77-117 | the loop builds the race-results chart |
| F1DataComponents.RaceResultsChart | src/components/F1DataComponents.jsx:98-117 | one `R<round>` label per race, in race order |
| F1DataComponents.LateJoinerPositions | src/components/F1DataComponents.jsx:91-95 | as written, a driver listed only in round 2 of 2 gets `[2, null]` |
| F1DataComponents.IntendedPositions | src/components/F1DataComponents.jsx:84-95 | corrected, with one entry per driver per round: a listed driver's array has one entry per round label from round 0, entry i being the round-i position or `null`; an unlisted driver has none |
| F1DataComponents.IntendedLateJoinerPositions | src/components/F1DataComponents.jsx:91-95 | corrected: the same driver gets `[null, 2]`, aligned with the labels `R1`, `R2` |
| F1DataComponents.PointsTableStep | src/components/F1DataComponents.jsx:15-45 | round i pushes `prev + total` for its entries and pads to i + 1 with the last value |
| F1DataComponents.RoundTotals | src/components/F1DataComponents.jsx:19-28 | a round adds the race points plus the sprint points of a driver listed in the race (last sprint entry, default 0) |
| F1DataComponents.CumulativeStep | src/components/F1DataComponents.jsx:26-35 | entry i of the running total is entry i − 1 plus round i's race and sprint points |
| F1DataComponents.CumulativeNonDecreasing | src/components/F1DataComponents.jsx:34-35 | with non-negative points, the running total never decreases |
| F1DataComponents.PointsNext | src/components/F1DataComponents.jsx:27-35 | an array as long as the rounds before gains its last value plus the round's points |
| F1DataComponents.PointsSeries | src/components/F1DataComponents.jsx:26-44 | the prescribed series is the running total of race and sprint points |
| F1DataComponents.PointsFromRoundZero | src/components/F1DataComponents.jsx:26-44 | with one entry per driver per round, a driver of round 0 has exactly their running total, one value per round, carried forward in missed rounds |
| F1DataComponents.PointsRowsBounded | src/components/F1DataComponents.jsx:39-44 | with one entry per driver per round, no points array is longer than the number of rounds |
| F1DataComponents.PointsKeys | src/components/F1DataComponents.jsx:26-32 | only race-result drivers get a series; sprint entries alone never create one |
| F1DataComponents.LateJoinerPoints | src/components/F1DataComponents.jsx:34-42 | as written, a driver first listed in round 2 of 2 with 18 points gets `[18, 18]` |
| F1DataComponents.IntendedPoints | src/components/F1DataComponents.jsx:26-44 | corrected, with one entry per driver per round: a listed driver's array has one value per round label from round 0, value i being their running total of race and sprint points after round i (0 before their first round); an unlisted driver has none |
| F1DataComponents.IntendedLateJoinerPoints | src/components/F1DataComponents.jsx:26-44 | corrected: the same driver gets `[0, 18]`, aligned with the two round labels |
| F1DataComponents.UseChampionshipData | src/components/F1DataComponents.jsx:6-68 | `null` iff the season is missing or empty; otherwise the chart of the normalised season |
| F1DataComponents.BuildChampionship | src/components/F1DataComponents.jsx:12-45 | the loop (labels, sprint map, pushes, padding) builds the championship chart |
| F1DataComponents.ChampionshipChart | src/components/F1DataComponents.jsx:47-66 | one circuit label per race, in race order |
| ConstructorStandings.AddEntriesSpec | src/components/F1DataComponents.jsx:139-142 | the entries add their teams as a `Set` would, and each team gains exactly its entries' points |
| ConstructorStandings.RoundPointsSpec | src/components/F1DataComponents.jsx:136-152 | a round's map lists its teams in first-appearance order, each with its race plus sprint points |
| ConstructorStandings.MergeSpec | src/components/F1DataComponents.jsx:165-167 | merging a round adds its teams in order and its points to each running total |
| ConstructorStandings.TotalsKeys | src/components/F1DataComponents.jsx:164-167 | the running totals list exactly the teams seen so far, in the order of `allConstructors` |
| ConstructorStandings.TotalsGet | src/components/F1DataComponents.jsx:164-167 | a team's running total is the sum of its points over the rounds so far |
| ConstructorStandings.RankingPermutes | src/components/F1DataComponents.jsx:169-171 | the sorted list holds each team with a total exactly once |
| ConstructorStandings.RankRange | src/components/F1DataComponents.jsx:174-176 | a team has a rank iff it has a total, and ranks lie in 1..k |
| ConstructorStandings.RankHolder | src/components/F1DataComponents.jsx:174-176 | each rank 1..k belongs to exactly one team |
| ConstructorStandings.RankOrder | src/components/F1DataComponents.jsx:169-171 | a ranks ahead of b iff its total is larger, or the totals are equal and a appeared first (stable sort) |
| ConstructorStandings.TeamDatasets | src/components/F1DataComponents.jsx:181-191 | one line per team, in key order, with its standings and `getTeamColor` |
| ConstructorStandings.ConstructorChart | src/components/F1DataComponents.jsx:193-196 | labels per round; one dataset per team of `teamStandings` |
| ConstructorStandings.UseConstructorData | src/components/F1DataComponents.jsx:122-198 | no chart and an empty `cumulativeMap` iff the season is missing or empty; otherwise both for the normalised season |
| ConstructorStandings.BuildConstructorData | src/components/F1DataComponents.jsx:128-196 | the two passes build the chart and the cumulative map |
| ConstructorStandings.CollectRounds | src/components/F1DataComponents.jsx:135-153 | the first pass gives `allConstructors` and `pointsHistory` |
| ConstructorStandings.RankRounds | src/components/F1DataComponents.jsx:155-179 | the second pass gives `teamStandings` and `cumulativeMap` |
| ConstructorStandings.AddRound | src/components/F1DataComponents.jsx:139-149 | one result list adds its teams to the set and its points to the round's map |
| ConstructorStandings.MergeRound | src/components/F1DataComponents.jsx:165-167 | the merge loop adds the round into the running totals |
| ConstructorStandings.PushRound | src/components/F1DataComponents.jsx:173-178 | every team's arrays gain its rank and total for the round |
| ConstructorStandings.TeamsPrefix | src/components/F1DataComponents.jsx:140-147 | `allConstructors` only grows at the back |
| ConstructorStandings.ArraysShape | src/components/F1DataComponents.jsx:159-179 | both maps have exactly the season's teams, once each, in first-appearance order, with one value per round |
| ConstructorStandings.ArraysAt | src/components/F1DataComponents.jsx:173-178 | entry i is the team's rank in, and total from, the running totals after round i |
| ConstructorStandings.StandingsRanked | src/components/F1DataComponents.jsx:174-176 | a team's entry at round i is `null` iff no round up to i lists it; otherwise a rank in 1..k |
| ConstructorStandings.CumulativeRows | src/components/F1DataComponents.jsx:164-177 | a team's cumulative array is the running sum of its per-round race and sprint points |
| ConstructorStandings.CumulativeAt | src/components/F1DataComponents.jsx:175-177 | entry i is the sum of the team's points in rounds 0..i |
| ConstructorStandings.StandingsOrder | src/components/F1DataComponents.jsx:169-176 | at round i, a ranks ahead of b iff its cumulative total is larger, or equal with a listed first |
| ConstructorStandings.StandingsHolder | src/components/F1DataComponents.jsx:169-176 | at each round the ranks 1..k are held by exactly one team each |
| ConstructorStandings.CumulativeNonDecreasing | src/components/F1DataComponents.jsx:164-177 | with non-negative points, a team's cumulative array never decreases |
| DriverSelection.Select | src/components/F1DataComponents.jsx:204-224 | starting within the cap, reset and toggle stay within `maxDrivers`, and so does a slot below the cap |
| DriverSelection.ToggleMembers | src/components/F1DataComponents.jsx:207-215 | after a toggle, a driver is selected iff it was selected and is not the value, or it is the value, was unselected and there was room |
| DriverSelection.SlotPastCap | src/components/F1DataComponents.jsx:216-222 | a slot index at the cap grows the selection past it (`["A","B"]`, slot 2 gives 3 drivers) |
| DriverSelection.ToggleDistinct | src/components/F1DataComponents.jsx:207-215 | toggling keeps a selection free of repeats |
| DriverSelection.ToggleUndo | src/components/F1DataComponents.jsx:207-215 | adding an unselected driver and toggling again restores the selection |
| DriverSelection.SlotSpec | src/components/F1DataComponents.jsx:216-222 | a slot sets, appends or (for `""`) deletes exactly the slot's driver; the `filter(Boolean)` drops nothing else |
| DriverStats.Drivers.Step | src/utils/parseDriverStats.js:11-21 | a new driver joins the map at the back and the map stays well formed |
| DriverStats.AddListSpec | src/utils/parseDriverStats.js:10-26 | a list adds its drivers as a `Set` would, and each record changes exactly by the driver's own entries |
| DriverStats.RoundSpec | src/utils/parseDriverStats.js:7-59 | a round adds race, qualifying and sprint drivers in order, and each record by the driver's own entries |
| DriverStats.AggregateSpec | src/utils/parseDriverStats.js:7-59 | the map lists each driver once in first-appearance order, and each record is built from that driver's entries alone |
| DriverStats.SeasonPoints | src/utils/parseDriverStats.js:22 | `points` is the sum over rounds of race plus sprint points; qualifying adds none |
| DriverStats.RoundRecordFields | src/utils/parseDriverStats.js:22-56 | a round adds its points, its race positions to `finishes` and its qualifying positions to `qualis` |
| DriverStats.SeasonFinishes | src/utils/parseDriverStats.js:23 | `finishes` is empty iff no race results list the driver |
| DriverStats.SeasonQualis | src/utils/parseDriverStats.js:40 | `qualis` is empty iff no qualifying results list the driver |
| DriverStats.FrequenciesSpec | src/utils/parseDriverStats.js:86-87 | `freq` lists each team once in first-appearance order, with its number of occurrences |
| DriverStats.PrimaryTeamSpec | src/utils/parseDriverStats.js:85-89 | the primary team occurs in the list, most often, and first among equally frequent teams |
| DriverStats.GetPrimaryTeam | src/utils/parseDriverStats.js:85-89 | the counting loop and sort give the primary team |
| DriverStats.AggregateRounds | src/utils/parseDriverStats.js:7-59 | the first loop builds the aggregated, well-formed map |
| DriverStats.ReadList | src/utils/parseDriverStats.js:10-26 | one list, entry by entry, is the list's aggregation |
| DriverStats.ReadEntry | src/utils/parseDriverStats.js:11-25 | creating a record if needed, then updating it, is one aggregation step |
| DriverStats.UpdateRecord | src/utils/parseDriverStats.js:21-57 | a race entry adds its points, its finish and its team; a qualifying entry its place and team; a sprint entry its points and team; nothing else changes |
| HeadToHead.GroupedSpec | src/utils/parseDriverStats.js:62-67 | after n drivers, a team's array lists the names on that team, in Map order |
| HeadToHead.GroupedValid | src/utils/parseDriverStats.js:62-67 | each team is listed once, and exactly the listed teams have arrays |
| HeadToHead.GroupedSeparate | src/utils/parseDriverStats.js:62-67 | no name sits in two arrays or twice in one |
| HeadToHead.TeamDriversSpec | src/utils/parseDriverStats.js:62-67 | `teamDrivers` lists each team once, each team's drivers in Map order, and no driver twice |
| HeadToHead.GroupByTeam | src/utils/parseDriverStats.js:62-67 | the loop over the Map's entries builds `teamDrivers` |
| HeadToHead.PushUnderPrimaryTeam | src/utils/parseDriverStats.js:64-66 | one more name of the Map is filed under its primary team, after the names before it |
| HeadToHead.ResultMapSpec | src/utils/parseDriverStats.js:70-73 | `resultMap` holds exactly the listed drivers, each with the position of their last entry |
| HeadToHead.BuildResultMap | src/utils/parseDriverStats.js:70-73 | the `forEach` builds `resultMap` |
| HeadToHead.Partner | src/utils/parseDriverStats.js:74-75 | a partner is only found through a team array whose pair holds the driver |
| HeadToHead.VersusSpec | src/utils/parseDriverStats.js:76-81 | one pair changes the two drivers' counters, each as the meeting rule says, and nobody else's |
| HeadToHead.RoundHeadsSpec | src/utils/parseDriverStats.js:74-82 | one round changes a driver's counters as a meeting with their partner, or not at all without one |
| HeadToHead.SeasonHeadsSpec | src/utils/parseDriverStats.js:69-83 | over the season a driver's counters are those of the meetings with their partner, and empty without one |
| HeadToHead.SeasonMeetSpec | src/utils/parseDriverStats.js:76-81 | a driver's counters name only the partner, with the number of rounds the driver beat them |
| HeadToHead.WinsBounded | src/utils/parseDriverStats.js:79-80 | two teammates' win counts add up to at most the number of rounds |
| HeadToHead.HeadWinsOne | src/utils/parseDriverStats.js:96-97 | summing counters that name at most the partner gives the count against the partner |
| HeadToHead.HeadWinsSpec | src/utils/parseDriverStats.js:96-97 | `headWins` is the number of rounds the driver beat their partner, and 0 without one |
| HeadToHead.PartnerSpec | src/utils/parseDriverStats.js:74-75 | a partner is the other one of the first two drivers of some team |
| HeadToHead.PartnerAt | src/utils/parseDriverStats.js:74-75 | a driver in a team's pair has the other one as partner |
| HeadToHead.ComputeHeads | src/utils/parseDriverStats.js:69-83 | the loop over rounds gives the season's counters |
| HeadToHead.PlayRound | src/utils/parseDriverStats.js:74-82 | the loop over `Object.entries(teamDrivers)` plays one round |
| HeadToHead.PlayTeam | src/utils/parseDriverStats.js:74-77 | a team changes nothing unless both drivers of its pair are named and have a race result |
| HeadToHead.PlayPair | src/utils/parseDriverStats.js:76-81 | one pair: both counters created, then the driver ahead counted |
| CompositeScore.PositionValues | src/utils/parseDriverStats.js:93-94 | each position counts as its number, `null` as 0 |
| CompositeScore.AverageSpec | src/utils/parseDriverStats.js:93-94 | the average is `null` exactly for an empty list, and otherwise lies between the smallest and largest position |
| CompositeScore.AllStats | src/utils/parseDriverStats.js:91-110 | one figure set per driver, in Map order, named after the driver |
| CompositeScore.OrZero | src/utils/parseDriverStats.js:114 | `v ?? 0` element by element |
| CompositeScore.NormalizeInUnit | src/utils/parseDriverStats.js:113-122 | every normalised value lies in [0, 1] |
| CompositeScore.NormalizeFallback | src/utils/parseDriverStats.js:113-122 | a missing value, or a column whose values are all equal, gives 0.5 |
| CompositeScore.NormalizeExtremes | src/utils/parseDriverStats.js:113-122 | with differing values the largest maps to 1 and the smallest to 0, the other way round when inverted |
| CompositeScore.NormalizeMonotone | src/utils/parseDriverStats.js:113-122 | normalising keeps the order of present values; inverting reverses it |
| CompositeScore.NormalizeInverse | src/utils/parseDriverStats.js:113-122 | inverting gives `1 - v`, except that 0.5 is the fallback both ways |
| CompositeScore.CompositeInUnit | src/utils/parseDriverStats.js:130-134 | the weights add to 1: four values in [0, 1] give a composite in [0, 1], and equal values give that value |
| CompositeScore.PointsColumn | src/utils/parseDriverStats.js:124 | the points column reads each driver's points |
| CompositeScore.QualiColumn | src/utils/parseDriverStats.js:125 | the qualifying column reads each driver's `avgQuali` |
| CompositeScore.FinishColumn | src/utils/parseDriverStats.js:126 | the finish column reads each driver's `avgFinish` |
| CompositeScore.HeadColumn | src/utils/parseDriverStats.js:127 | the head-to-head column reads each driver's `headWins` |
| CompositeScore.ScoreInUnit | src/utils/parseDriverStats.js:129-144 | every scored record keeps its driver's figures, and its four normalised values and composite lie in [0, 1] |
| CompositeScore.MostPointsScoresOne | src/utils/parseDriverStats.js:124 | when points differ, the top scorer gets `normPoints` 1 and the lowest 0 |
| CompositeScore.DriverStatsNames | src/utils/parseDriverStats.js:3-144 | one scored record per driver of the season, in order of first appearance |
| CompositeScore.DriverStatsAt | src/utils/parseDriverStats.js:91-144 | the i-th record carries the i-th driver's figures and a composite in [0, 1] |
| CompositeScore.DriverStatsPoints | src/utils/parseDriverStats.js:22 | a driver's `points` add up race and sprint points over all rounds |
| CompositeScore.DriverStatsAverages | src/utils/parseDriverStats.js:93-94 | `avgFinish` is `null` iff no race results list the driver, `avgQuali` iff no qualifying results do |
| CompositeScore.DriverStatsHeads | src/utils/parseDriverStats.js:96-97 | `headWins` counts the rounds the driver finished ahead of their teammate in the pair, 0 without one |
| CompositeScore.ParseDriverStats | src/utils/parseDriverStats.js:3-144 | the whole function (loops, grouping, head-to-head, normalisation) returns the specified scored list |
| DriverStatsPage.ColorPair | src/pages/DriverStatsPage.jsx:60 | a listed team gets its colour pair; any other gets `#888`/`#AAA` |
| DriverStatsPage.GroupingSpec | src/pages/DriverStatsPage.jsx:36-40 | each team is listed once, and its group holds that team's drivers in the order parsed |
| DriverStatsPage.GroupTeams | src/pages/DriverStatsPage.jsx:36-40 | the `forEach` builds the grouping |
| DriverStatsPage.TeamChart | src/pages/DriverStatsPage.jsx:57-76 | a chart exists iff the group has at least two drivers |
| DriverStatsPage.TeamChartFirstTwo | src/pages/DriverStatsPage.jsx:59 | only the first two drivers of a group appear, in group order |
| DriverStatsPage.Charts | src/pages/DriverStatsPage.jsx:56 | one chart slot per team |
| DriverStatsPage.ChartsSpec | src/pages/DriverStatsPage.jsx:56-76 | a team's chart exists iff it has two drivers, and shows the first two drivers' normalised values in the team's colour pair |
| DriverHeadToHeadPage.FindDriverFirst | src/pages/DriverHeadToHeadPage.jsx:6 | `find` returns the first entry of the driver |
| DriverHeadToHeadPage.DriverResultsByRound | src/pages/DriverHeadToHeadPage.jsx:4-13 | one row per race |
| DriverHeadToHeadPage.DriverResultsSpec | src/pages/DriverHeadToHeadPage.jsx:4-13 | each row has the circuit's first token and the driver's first entry's position and points, or `null` and 0 when unlisted |
| DriverHeadToHeadPage.QualifyingResultsByRound | src/pages/DriverHeadToHeadPage.jsx:15-24 | one row per race |
| DriverHeadToHeadPage.QualifyingResultsSpec | src/pages/DriverHeadToHeadPage.jsx:15-24 | each row has the circuit's first token and the first qualifying entry's grid and time, or `null`s when unlisted or without results |
| DriverHeadToHeadPage.AddOpt | src/pages/DriverHeadToHeadPage.jsx:31 | a sum is a number iff both operands are (`NaN` spreads) |
| DriverHeadToHeadPage.DeltaTextSpec | src/pages/DriverHeadToHeadPage.jsx:34-37 | two numbers print as their signed difference and `s`; a `NaN` prints `NaNs` |
| DriverHeadToHeadPage.FormatTimeDeltaMissing | src/pages/DriverHeadToHeadPage.jsx:27 | the placeholder `--` appears exactly when a time is missing or "No Time" |
| DriverHeadToHeadPage.SignedPlus | src/pages/DriverHeadToHeadPage.jsx:36-37 | the `+` is printed exactly when the printed number reads back as positive |
| DriverHeadToHeadPage.SignedShape | src/pages/DriverHeadToHeadPage.jsx:36-37 | the text is `+` and the digits for a positive rounded value, `-` and the digits for a negative one, and the bare digits of 0 otherwise |
| DriverHeadToHeadPage.SignedSwap | src/pages/DriverHeadToHeadPage.jsx:36-37 | swapping the drivers flips the sign and keeps the digits |
| DriverHeadToHeadPage.DeltaTextSwap | src/pages/DriverHeadToHeadPage.jsx:34-37 | swapping two times flips the printed sign when the difference does not round to zero |
| DriverHeadToHeadPage.ClockParts | src/pages/DriverHeadToHeadPage.jsx:29 | a lap time "m:w.f" splits into the minutes and the rest |
| DriverHeadToHeadPage.ClockKept | src/pages/DriverHeadToHeadPage.jsx:32 | keeping only digits and dots glues the minutes to the seconds |
| DriverHeadToHeadPage.ParseTimeKept | src/pages/DriverHeadToHeadPage.jsx:28-33 | a lap time is read as the number "mw.f" |
| DriverHeadToHeadPage.ParseTimeClock | src/pages/DriverHeadToHeadPage.jsx:28-33 | as written, "m:w.f" reads as m·10^\|w\| + w.f: minutes count as hundreds, not sixties |
| DriverHeadToHeadPage.ParseTimeLate | src/pages/DriverHeadToHeadPage.jsx:28-33 | "1:59.900" reads 159.9 as written and 119.9 as intended |
| DriverHeadToHeadPage.ParseTimeEarly | src/pages/DriverHeadToHeadPage.jsx:28-33 | "2:00.100" reads 200.1 as written and 120.1 as intended |
| DriverHeadToHeadPage.BoundaryLiterals | src/pages/DriverHeadToHeadPage.jsx:29-32 | the two example times are lap times in the "m:w.f" shape |
| DriverHeadToHeadPage.IntendedParseTimeClock | src/pages/DriverHeadToHeadPage.jsx:28-33 | corrected, "m:w.f" reads as m minutes and w.f seconds |
| DriverHeadToHeadPage.ParseDigits | src/pages/DriverHeadToHeadPage.jsx:31 | `parseFloat` of a digit string is its value |
| DriverHeadToHeadPage.IntendedAgrees | src/pages/DriverHeadToHeadPage.jsx:28-33 | the correction changes nothing for strings with no colon or two colons |
| DriverHeadToHeadPage.ParseTimeGap | src/pages/DriverHeadToHeadPage.jsx:32 | a gap "+w.fs" or "-w.fs" loses its sign: both read as w.f |
| DriverHeadToHeadPage.IntendedFormatClock | src/pages/DriverHeadToHeadPage.jsx:26-38 | corrected, two lap times print as the signed difference of their lengths in seconds |
| DriverHeadToHeadPage.IntendedFormatPresent | src/pages/DriverHeadToHeadPage.jsx:26-38 | corrected, two present times print as the difference of their intended readings |
| DriverHeadToHeadPage.FormatPresent | src/pages/DriverHeadToHeadPage.jsx:26-38 | as written, two present times print as the difference of their readings |
| DriverHeadToHeadPage.ClockPresent | src/pages/DriverHeadToHeadPage.jsx:27 | a lap time is never taken for a missing one |
| DriverHeadToHeadPage.WinStyleSpec | src/pages/DriverHeadToHeadPage.jsx:40-46 | green iff both exist and the first is better; unstyled iff one is missing; grey is symmetric; green one way is red the other |
| DriverHeadToHeadPage.Delta | src/pages/DriverHeadToHeadPage.jsx:100 | a difference exists iff both values do, and adds back to the first |
| DriverHeadToHeadPage.DeltaSwap | src/pages/DriverHeadToHeadPage.jsx:100 | swapping the drivers negates the difference |
| DriverHeadToHeadPage.SignedIntSpec | src/pages/DriverHeadToHeadPage.jsx:110 | `+` and the digits when positive, `-` and the digits when negative, `0` for zero |
| DriverHeadToHeadPage.PositionStyleSpec | src/pages/DriverHeadToHeadPage.jsx:156-162 | bold green iff the first driver finished ahead; unstyled iff level; bold red when a position is missing |
| DriverHeadToHeadPage.QualiTable | src/pages/DriverHeadToHeadPage.jsx:98-114 | one qualifying row per race |
| DriverHeadToHeadPage.RaceTable | src/pages/DriverHeadToHeadPage.jsx:146-176 | one race row per race |
| DriverHeadToHeadPage.SelfComparison | src/pages/DriverHeadToHeadPage.jsx:98-176 | a driver against themselves gets equal styles, a grid difference of 0 or `--`, points 0, and `--` exactly without a position |
| DriverHeadToHeadPage.AllDriversSpec | src/pages/DriverHeadToHeadPage.jsx:49-53 | the choices list every race-result driver once, in order of first appearance |
| DriverHeadToHeadPage.FlattenContents | src/pages/DriverHeadToHeadPage.jsx:51 | the `flatMap` holds exactly the drivers of all race results |
| DriverResultsPage.PageTeamColor | src/pages/DriverResults2025Page.jsx:83-97 | a listed team gets the page's own colour; a missing or unlisted team gets `#888` |
| DriverResultsPage.PageDatasets | src/pages/DriverResults2025Page.jsx:59-72 | one dataset per driver of the map, in key order |
| DriverResultsPage.BuildChartData | src/pages/DriverResults2025Page.jsx:31-78 | the page's loops build the results chart of `races \|\| []` |
| DriverResultsPage.ResultsChartMatchesHook | src/pages/DriverResults2025Page.jsx:35-77 | the page's chart has the `useRaceResultsData` labels (`R<round>` per race) and the same series, name and data; only colours differ |
| DriverResultsPage.SeriesColorSpec | src/pages/DriverResults2025Page.jsx:60-61 | a series' team is that of the first race listing the driver |
| ConstructorBumpPage.LabelLines | src/pages/ConstructorBump2025Page.jsx:55-66 | three lines: the team, its rank (`null` when unranked) and its points at the round, 0 for an unknown team |
| ConstructorBumpPage.Unsorted | src/pages/ConstructorBump2025Page.jsx:73-76 | one standing per team of the map |
| ConstructorBumpPage.Snapshot | src/pages/ConstructorBump2025Page.jsx:79 | sorting keeps one standing per team |
| ConstructorBumpPage.SnapshotSpec | src/pages/ConstructorBump2025Page.jsx:70-79 | the snapshot lists every team once with its points at the round (missing as 0), in non-increasing order of points |
| ConstructorBumpPage.Position | src/pages/ConstructorBump2025Page.jsx:84 | the hovered team's position is in 1..k, and the snapshot holds it at that place |
| ConstructorBumpPage.PositionOrder | src/pages/ConstructorBump2025Page.jsx:79-84 | another team ranks above iff it has more points, or equal points and comes earlier in the map (stable sort) |
| ConstructorBumpPage.PositionIndex | src/pages/ConstructorBump2025Page.jsx:83-84 | the position is one past the index of the team's standing |
| ConstructorBumpPage.GapsSpec | src/pages/ConstructorBump2025Page.jsx:86-98 | the leader has the most points; a trailing team's gap to the team above is between 0 and its gap to the leader; the leader's gap is its lead over second place |
| ConstructorBumpPage.AfterBodySpec | src/pages/ConstructorBump2025Page.jsx:86-98 | the leader gets one line iff its lead is positive; any other team gets the gap to P1, then the gap to the place above iff that team has strictly more points |
| ConstructorBumpPage.TakeSnapshot | src/pages/ConstructorBump2025Page.jsx:69-79 | the push loop and sort give the snapshot |
| ConstructorBumpPage.AfterBody | src/pages/ConstructorBump2025Page.jsx:67-100 | `afterBody` returns the specified lines |
| PitStopAnalysisPage.RoundInfoSpec | src/pages/PitStopAnalysisPage.jsx:54-60 | a round's fastest stop and average exist iff it lists stops; `top3Teams` names the first three teams listed; the average lies between the round's smallest and largest time |
| PitStopAnalysisPage.FastestIsMin | src/pages/PitStopAnalysisPage.jsx:57 | on a list ordered by time, the first stop has the smallest time |
| PitStopAnalysisPage.Records.Step | src/pages/PitStopAnalysisPage.jsx:70-83 | a new key joins the Map at the back, and the Map stays well formed |
| PitStopAnalysisPage.SummarySnoc | src/pages/PitStopAnalysisPage.jsx:84-90 | one more stop updates a summary exactly as the record updates do (count, total, min, max, top-3, wins, place sum) |
| PitStopAnalysisPage.AggregateSpec | src/pages/PitStopAnalysisPage.jsx:64-112 | each team (driver) is listed once in first-appearance order, and its record summarises exactly its own stops |
| PitStopAnalysisPage.AppearancesTotal | src/pages/PitStopAnalysisPage.jsx:84 | the appearances of all records add up to the number of stops |
| PitStopAnalysisPage.SummaryBounds | src/pages/PitStopAnalysisPage.jsx:84-90 | best time ≤ average ≤ worst time, and wins ≤ top-3 finishes ≤ appearances |
| PitStopAnalysisPage.PredictiveScore | src/pages/PitStopAnalysisPage.jsx:121-126 | the score is the weighted sum, or 0 when that is negative |
| PitStopAnalysisPage.TeamRows | src/pages/PitStopAnalysisPage.jsx:116-127 | one row per team of the Map |
| PitStopAnalysisPage.ProcessData | src/pages/PitStopAnalysisPage.jsx:45-141 | the loops build the team and driver Maps of all stops, the round summaries and the scored rows |
| PitStopAnalysisPage.RoundInfos | src/pages/PitStopAnalysisPage.jsx:53-61 | one summary per round, in order |
| PitStopAnalysisPage.ProcessedValid | src/pages/PitStopAnalysisPage.jsx:53-112 | the team Map is well formed, and has keys only when there are rounds |
| PitStopAnalysisPage.AddRoundStops | src/pages/PitStopAnalysisPage.jsx:64-112 | a round's stops extend both Maps by exactly those stops |
| PitStopAnalysisPage.FinishAll | src/pages/PitStopAnalysisPage.jsx:116-127 | the averaging pass gives the scored rows |
| PitStopAnalysisPage.TeamRowsSpec | src/pages/PitStopAnalysisPage.jsx:116-127 | each row names a team with stops, summarises exactly its stops, and has best ≤ average ≤ worst, wins ≤ top-3 ≤ appearances and a non-negative score |
| PitStopAnalysisPage.TeamAppearancesTotal | src/pages/PitStopAnalysisPage.jsx:84 | team appearances add up to the season's stops |
| PitStopAnalysisPage.PredictionsSpec | src/pages/PitStopAnalysisPage.jsx:173-175 | the first n rows by score, highest first; no team left out scores above one listed |
| PitStopAnalysisPage.ConsistencySpec | src/pages/PitStopAnalysisPage.jsx:191-194 | the eight teams with most appearances, most first; none left out has more |
| PitStopAnalysisPage.FastestTeamsSpec | src/pages/PitStopAnalysisPage.jsx:423-424 | the ten teams with the lowest average time, lowest first; none left out is faster |
| PitStopAnalysisPage.FindTeam | src/pages/PitStopAnalysisPage.jsx:151 | `find` is `None` iff no stop names the team, and otherwise the first stop that does |
| PitStopAnalysisPage.TeamTrend | src/pages/PitStopAnalysisPage.jsx:144-169 | no chart iff no team is selected; otherwise one `R<round>` label and one point per round, named and coloured after the team |
| PitStopAnalysisPage.TrendSeries | src/pages/PitStopAnalysisPage.jsx:150-154 | one `R<round>` label and one trend point per round, in round order |
| PitStopAnalysisPage.RoundPoint | src/pages/PitStopAnalysisPage.jsx:151-153 | the time of the round's first stop that names the team, `null` when none does |
| PitStopAnalysisPage.TrendPointSpec | src/pages/PitStopAnalysisPage.jsx:151-153 | a point exists iff the round lists the team, and is then the time of its first listed stop |
| PitStrategyPage.Durations | src/pages/PitStrategyPage.jsx:99 | one duration per pit, in order |
| PitStrategyPage.FastestIndex | src/pages/PitStrategyPage.jsx:100-102 | the `<` reduce ends at the first pit of least duration |
| PitStrategyPage.SlowestIndex | src/pages/PitStrategyPage.jsx:103-105 | the `>` reduce ends at the first pit of greatest duration |
| PitStrategyPage.GroupSpec | src/pages/PitStrategyPage.jsx:109-115 | every pit, valid or not, is filed under its driver in input order, and only drivers with pits have a group |
| PitStrategyPage.GroupSizesTotal | src/pages/PitStrategyPage.jsx:109-115 | the groups hold every pit exactly once |
| PitStrategyPage.CalculatePitStats | src/pages/PitStrategyPage.jsx:82-118 | the count of all pits; the mean, fastest and slowest of the valid pits (0 and `null` without any); every pit grouped by driver |
| PitStrategyPage.GroupPits | src/pages/PitStrategyPage.jsx:109-115 | every pit pushed under its driver number, the array created when missing: the grouping of all pits by driver |
| PitStrategyPage.AverageBetween | src/pages/PitStrategyPage.jsx:96-105 | fastest and slowest carry the least and greatest valid durations, and 0 < fastest ≤ mean ≤ slowest |
| PitStrategyPage.ChartDriversSpec | src/pages/PitStrategyPage.jsx:164-174 | at most ten drivers, each with valid pits, ascending by mean duration; no driver left out has a lower mean than one shown |
| PitStrategyPage.KeysCover | src/pages/PitStrategyPage.jsx:165 | the keys of `pitsByDriver` are exactly the drivers with pits |
| PitStrategyPage.PitDurationChart | src/pages/PitStrategyPage.jsx:176-194 | one bar per chart driver, labelled with the driver's acronym (or `#number`) and carrying the driver's mean duration |
| PitStrategyPage.FormatTimeSpec | src/pages/PitStrategyPage.jsx:120-123 | `--:--` exactly for a missing or zero value; otherwise digits that read back as the value rounded to thousandths, then `s` |
| Text.Rounded3 | src/pages/PitStrategyPage.jsx:122 | the number `toFixed(3)` denotes lies within half a thousandth of the input |
| PitStrategyPage.TimelineSpec | src/pages/PitStrategyPage.jsx:392-395 | at most 20 pits, each with a lap and a duration, by ascending lap; no pit left out has an earlier lap than one shown |
| PitStrategyPage.TimelineItemsSpec | src/pages/PitStrategyPage.jsx:396-411 | each timeline row shows a non-zero lap, the driver's name and a duration, never the `--:--` placeholder |
| SectorAnalysisPage.SectorTimesSpec | src/pages/SectorAnalysisPage.jsx:155-157 | a duration is listed for a sector iff some lap has it as that sector's (truthy) duration |
| SectorAnalysisPage.FullSectorTimes | src/pages/SectorAnalysisPage.jsx:117-119 | on laps with all three sectors, each sector lists exactly one duration per lap, in lap order |
| SectorAnalysisPage.BestSectorTimesSpec | src/pages/SectorAnalysisPage.jsx:106-126 | all zeros when no lap has all three sectors; otherwise each best is some full lap's duration and no full lap is faster |
| SectorAnalysisPage.SectorDataKeys | src/pages/SectorAnalysisPage.jsx:151-154 | exactly the drivers with a lap get lists |
| SectorAnalysisPage.PushLapSpec | src/pages/SectorAnalysisPage.jsx:155-157 | a lap pushes each present sector duration onto that sector's list and leaves the others |
| SectorAnalysisPage.SectorTimesSnoc | src/pages/SectorAnalysisPage.jsx:155-157 | one more lap adds its present duration to a sector's times |
| SectorAnalysisPage.SectorDataSpec | src/pages/SectorAnalysisPage.jsx:150-158 | a driver's list for a sector is that sector's present durations over the driver's own laps, in lap order |
| SectorAnalysisPage.BuildSectorData | src/pages/SectorAnalysisPage.jsx:150-158 | the `forEach` builds the per-driver lists |
| SectorAnalysisPage.BestOf | src/pages/SectorAnalysisPage.jsx:176 | 0 for no times; otherwise a listed time that no other time undercuts |
| SectorAnalysisPage.LowestKeys | src/pages/SectorAnalysisPage.jsx:162 | the first n object keys are at most n drivers, ascending, each lower than any driver left out |
| SectorAnalysisPage.DriversToShowSpec | src/pages/SectorAnalysisPage.jsx:160-162 | a non-empty selection is shown as is; otherwise the eight lowest driver numbers with laps, ascending |
| SectorAnalysisPage.BestColumn | src/pages/SectorAnalysisPage.jsx:174-177 | one bar per driver shown: the best of that driver's list for the sector |
| SectorAnalysisPage.SectorChartData | src/pages/SectorAnalysisPage.jsx:145-208 | a chart exists iff both laps and drivers are loaded |
| SectorAnalysisPage.SectorChartSpec | src/pages/SectorAnalysisPage.jsx:164-197 | one label and three bars per driver shown; the label is the acronym or `#number`, each bar the best present duration of that sector over the driver's laps |
| SectorAnalysisPage.Remove | src/pages/SectorAnalysisPage.jsx:248 | `delete` leaves exactly the other drivers, one fewer when the driver was selected, and changes nothing otherwise |
| SectorAnalysisPage.ToggleSpec | src/pages/SectorAnalysisPage.jsx:245-253 | the driver is selected afterwards iff it was not and fewer than six were; others keep their state; no repeats; never more than six |
| SectorAnalysisPage.RemoveNoDup | src/pages/SectorAnalysisPage.jsx:248 | removing keeps a selection free of repeats |
| SectorAnalysisPage.ToggleTwice | src/pages/SectorAnalysisPage.jsx:245-253 | toggling an unselected driver twice, with room, restores the selection |
| SectorAnalysisPage.RemoveLast | src/pages/SectorAnalysisPage.jsx:248-250 | deleting the driver just added restores the set |
| SectorAnalysisPage.Rem60 | src/pages/SectorAnalysisPage.jsx:241 | for non-negative values, `% 60` is in [0, 60) and is the value less its whole minutes |
| SectorAnalysisPage.Clock | src/pages/SectorAnalysisPage.jsx:240-242 | the text is never empty, and starts with a digit or ends with `s` |
| SectorAnalysisPage.FormatTimePlaceholder | src/pages/SectorAnalysisPage.jsx:239 | `--:--` exactly for a missing or zero value |
| SectorAnalysisPage.ClockShort | src/pages/SectorAnalysisPage.jsx:240-242 | below a minute, the value to three decimals and an `s` |
| SectorAnalysisPage.ClockLong | src/pages/SectorAnalysisPage.jsx:240-242 | from a minute up, the whole minutes, a colon and the remainder padded to six characters, which reads back as the remainder rounded to thousandths |
| SectorAnalysisPage.ClockSixtySeconds | src/pages/SectorAnalysisPage.jsx:241-242 | as written, a remainder of at least 59.9995 prints as `60.000` after the colon |
| SectorAnalysisPage.ClockSixtyExample | src/pages/SectorAnalysisPage.jsx:240-242 | 119.9996 has one whole minute and prints `1:60.000` |
| SectorAnalysisPage.IntendedClockSpec | src/pages/SectorAnalysisPage.jsx:238-243 | corrected, below 60 s the text is unchanged; from 60 s the seconds after the colon lie in [0, 60), read back exactly, and add up with the minutes to the rounded value |
| SectorAnalysisPage.IntendedAgrees | src/pages/SectorAnalysisPage.jsx:240-242 | the correction prints the same text whenever the remainder does not round up to 60 |
| SectorAnalysisPage.ThousandthsShift | src/pages/SectorAnalysisPage.jsx:240-241 | whole minutes added to a value add whole thousandths when rounding |
| SectorAnalysisPage.UniqueDriversSpec | src/pages/SectorAnalysisPage.jsx:255-261 | each driver with a lap is listed once, in non-decreasing order of acronym |
| SectorAnalysisPage.StatCards | src/pages/SectorAnalysisPage.jsx:327-346 | three cards iff the best first sector is positive, none otherwise; card N is titled `Sector N`, coloured red, yellow or green, and shows `formatTime` of the best sector-N time |
| OpenF1.FindNumber | src/pages/PitStrategyPage.jsx:178 | `find` by driver number is `None` iff no record has the number, and otherwise a record with it |
| OpenF1.ObjectKeysSpec | src/pages/PitStrategyPage.jsx:165 | `Object.keys` of an object keyed by driver numbers lists each key once, ascending |
| StableSort.SortPermutes | src/components/F1DataComponents.jsx:169-171 | `sort` permutes its input |
| StableSort.SortSorted | src/components/F1DataComponents.jsx:169-171 | for a consistent comparator, no element of the result goes before one ahead of it |
| StableSort.SortStable | src/components/F1DataComponents.jsx:169-171 | elements the comparator ties keep their input order |
| StableSort.SortedOrder | src/components/F1DataComponents.jsx:169-171 | a precedes b after sorting iff a goes before b, or they tie and a came first |
| StableSort.TopOfSort | src/pages/PitStopAnalysisPage.jsx:173-175 | `sort(...).slice(0, n)` keeps elements of the input, in order, and none left out goes before one kept |
| Seqs.DistinctContents | src/pages/DriverHeadToHeadPage.jsx:49-53 | `[...new Set(s)]` holds exactly the elements of `s`, once each |
| Seqs.DistinctOrder | src/pages/DriverHeadToHeadPage.jsx:49-53 | `[...new Set(s)]` lists elements in order of first occurrence |
| Seqs.AddAllContents | src/utils/dataProcessing.js:72-76 | adding to a `Set` keeps what it held and adds what was added, each once |
| Seqs.Filter | src/pages/PitStrategyPage.jsx:96 | `filter` keeps exactly the passing elements, in order |
| Seqs.Take | src/pages/PitStopAnalysisPage.jsx:175 | `slice(0, n)` is the first n elements, or all when fewer |
| Seqs.RunningSumsAreSums | src/components/F1DataComponents.jsx:34-35 | entry i of the running totals is the sum of the first i + 1 values |
| Seqs.RunningSumsMonotone | src/components/F1DataComponents.jsx:34-35 | running totals of non-negative values never decrease |
| Seqs.MeanAtLeastMin | src/pages/PitStopAnalysisPage.jsx:59 | a mean is at least the minimum |
| Seqs.MeanAtMostMax | src/pages/PitStopAnalysisPage.jsx:59 | a mean is at most the maximum |
| Seqs.RMin | src/pages/SectorAnalysisPage.jsx:117 | `Math.min(...s)` of a non-empty list is an element no other undercuts |
| Seqs.RMax | src/pages/PitStopAnalysisPage.jsx:87 | `Math.max` of a non-empty list is an element no other exceeds |
| Text.FirstToken | src/components/F1DataComponents.jsx:16 | `split(" ")[0]` is the prefix before the first space |
| Text.Split | src/pages/DriverHeadToHeadPage.jsx:29 | `split(":")` gives one more part than there are colons, none containing a colon |
| Text.NatToString | src/pages/SectorAnalysisPage.jsx:242 | a number prints as a non-empty digit string whose value is the number |
| Text.PadStart | src/pages/SectorAnalysisPage.jsx:242 | `padStart(n, c)` keeps the text at the end and fills up to n characters with `c` |
| Text.Thousandths | src/pages/PitStrategyPage.jsx:122 | the rounding `toFixed(3)` uses: within half a thousandth of the magnitude |
| Text.FixedDigitsValue | src/pages/PitStrategyPage.jsx:122 | the digits `toFixed(3)` prints read back as the rounded value |
| Text.ToFixed3ReadsBack | src/pages/PitStrategyPage.jsx:122 | `parseFloat(x.toFixed(3))` is x rounded to thousandths, with its sign |
| Text.PaddedReadsBack | src/pages/SectorAnalysisPage.jsx:241-242 | padding the fixed text with zeros does not change what it reads as |
| Text.ParseDecimal | src/pages/DriverHeadToHeadPage.jsx:31-32 | `parseFloat("w.f")` is the decimal value w.f |
| Text.LexTotal | src/utils/dataProcessing.js:78 | code-point string order is total and strict, as `sort()` and `localeCompare` need |

## Left out

- Rendering, styling, chart options, tooltips other than the constructor
  bump chart's, window size and React state and effects. Each page's
  computation is modelled as a function of its inputs.
- I/O:
  - `fetch` of the OpenF1 sessions, laps, pits and drivers. These become
    parameters, with `None` for a response that has not arrived.
  - The static season and pit-stop JSON files. These also become
    parameters.
  - The loading and error flags.
- JavaScript numbers. Points and positions are unbounded integers. Times,
  averages and scores are exact reals, not IEEE doubles, so no rounding
  error is modelled.
- `toFixed(3)` is exact rounding of the real value, half away from zero.
  `parseFloat` reads an optional sign, digits and an optional fraction;
  exponents, `Infinity` and leading whitespace are not modelled.
- `localeCompare` and the default `sort()` are modelled as code-point
  order (`Text.LexLess`). Locale collation is not modelled, nor the UTF-16
  code-unit order of `sort()`, which differs from code-point order only for
  characters beyond the Basic Multilingual Plane.
- The `try`/`catch` blocks of the sector page (lines 107-125 and 149-207).
  Nothing in the modelled computation throws on the modelled inputs.
- Inputs on which the code throws are excluded by preconditions, so the
  model has no error path for them:
  - a race without `race_results` (`AllHaveRaceResults`), wherever the
    code reads that list without a guard;
  - a driver record without `qualifying_results`, which
    `parseDriverStats` reads with an unguarded `forEach`
    (`qualifyingResults.Some?` on `CompositeScore.Readable` and
    `DriverStats.AggregateRounds`);
  - a race without `circuit`, which the head-to-head page splits with an
    unguarded `race.circuit.split(" ")` (`AllHaveCircuit` on
    `DriverHeadToHeadPage.DriverResultsByRound`, `QualifyingResultsByRound`,
    `QualiTable`, `RaceTable` and `AllDrivers`).
- A missing `points` makes `+=`/`prev + total` produce `NaN`; the model's
  points are always present integers.
- One entry per driver per round. The series lemmas of `SeriesTable` and
  `F1DataComponents` (`PushAllRow`, `StepBound`, `RoundRow`, `LateRow`,
  `BuildFromFirstRound`, `BuildBounded`, `LateJoiner`, the `Intended*`
  lemmas, `PositionRowsBounded`, `PositionsFromRoundZero`,
  `PointsFromRoundZero`, `PointsRowsBounded`) assume that no round lists
  a driver twice (`UniqueDrivers`, `DistinctRounds`). The builders
  themselves are modelled on any input: a duplicate entry pushes twice in
  one round (`F1DataComponents.jsx` 26-35 and 84-89), and the lemmas say
  nothing about that case.
- Display strings built with `toFixed(1)` and `toFixed(2)` (pit-stop
  scores and averages): the model keeps the numbers.
- `createScatterData` (`PitStrategyPage.jsx` 125-159), the lap-by-pit
  scatter chart. Only its grouping is shared with the modelled code, and
  that grouping is `PitStrategyPage.GroupSpec`.
- `driverColors` of the sector page (lines 263-267): a name per driver,
  which is not used by any modelled output.
- The driver records of the pit-stop page:
  - Their `team` field and the per-driver averages (lines 129-132) are
    not modelled, because no chart or table reads them.
  - The model's driver record also tracks a worst time, which the source
    does not keep.
- `allTeams` and `allDrivers` of the pit-stop page. `allTeams` lists the
  same teams, in the same order, as the keys of the team Map, which
  `PitStopAnalysisPage.AggregateSpec` describes.
- `raceTeamHistory` and the `teamHistory` list of `parseDriverStats` are
  carried in `CompositeScore.Stat` but have no properties stated about
  them.
- SectorAnalysisPage.UniqueDriversSpec: it states that the order is
  non-decreasing by acronym, but not that drivers with equal acronyms keep
  first-lap order. The stable sort guarantees that, via
  `StableSort.SortStable`.
- SectorAnalysisPage.Clock: its own contract states only the text's shape.
  The exact text is stated by `ClockShort` and `ClockLong`.
- PitStrategyPage.TimelineItems: its own contract states only the length.
  The contents are stated by `TimelineItemsSpec`.
- The `hsl(...)` fallback colours are modelled as strings built from the
  index, with no claim about colour values.

## Findings

| source | as written | input that shows it | evidently intended | confidence | as-written member | corrected member |
|---|---|---|---|---|---|---|
| src/components/F1DataComponents.jsx:39-44 | a driver first listed in a later round k gets an empty array, then the pushed value and a filler in that same round, so the array holds k − 1 values fewer than there are labels, and is not aligned with them | a driver who first scores 18 points in round 2 of 2 gets `[18, 18]` (positions: `[2, null]`) | one value per round label from round 0, so that `arr[i - 1]` is the previous round's total: a driver first listed in round k starts with k fillers, giving `[0, 18]` (positions: `[null, 2]`) | not executed | F1DataComponents.LateJoinerPoints | F1DataComponents.IntendedPoints |
| src/pages/DriverHeadToHeadPage.jsx:28-33 | a lap time `m:ss.sss` has two `:`-parts, so it goes through the strip branch and reads as the number `mss.sss` | `"1:59.900"` reads as 159.9 s, `"2:00.100"` as 200.1 s, so the delta shows 40.8 s instead of 0.2 s | `m:ss.sss` is m minutes plus ss.sss seconds (119.9 and 120.1) | not executed; qualifying times are written `m:ss.sss` | DriverHeadToHeadPage.ParseTimeLate | DriverHeadToHeadPage.IntendedParseTimeClock |
| src/pages/SectorAnalysisPage.jsx:238-243 | the minutes are split off before rounding the seconds to thousandths, so a remainder of 59.9995 s or more prints as `60.000` | 119.9996 s prints `1:60.000` | `2:00.000`: round first, then split into minutes and seconds | not executed; sector durations usually have three decimals, which never round up | SectorAnalysisPage.ClockSixtyExample | SectorAnalysisPage.IntendedClockSpec |

The page-level members (`UseChampionshipData`, `QualiViewOf` and
`StatCards`) keep the code's behaviour as written. Each corrected
definition sits beside it (`IntendedPoints`/`IntendedPositions`,
`IntendedParseTime`/`IntendedFormatTimeDelta`, `IntendedFormatTime`). The
properties the code evidently means to have are proved about the
corrected definitions. Lemmas tie the two together where they agree:

- `SeriesTable.IntendedAgrees`: drivers listed from round 0.
- `DriverHeadToHeadPage.IntendedAgrees`: strings with no colon or with two.
- `SectorAnalysisPage.IntendedAgrees`: remainders that do not round up to
  60.
