# Basketball competition dashboard — a verified model of its core

The dashboard shows the competitions of a basketball federation: league
tables, a calendar with results, a team view with a game log and player
table, and a scouting report for a team. This project models the logic
behind those screens:

- the play-by-play engine that replays substitutions and period-end score
  snapshots of each match to give every roster player seconds on court and
  a plus/minus (`PlusMinus`), and the way the team loader writes those
  numbers back into the box-score rows (`TeamLog`, `Tiempo`);
- the reading of the `tiempo_jugado` column (`Tiempo`) and the JavaScript
  text primitives it rests on — `split`, `parseInt`, `parseFloat`,
  `String(n)`, `padStart` (`Text`);
- the merge of the competition calendar with the matches on record and the
  `cal_` id of a pending fixture (`CalendarMerge`);
- the career and same-season "parallel" accumulators (`Career`), the team
  aggregates and the per-player scouting lines (`Scouting`);
- the league table with its head-to-head tie-break (`Standings`);
- the team view's game log and player table (`TeamStats`);
- the calendar view's round grouping, finished-round filter, resting teams
  and the rule tables of the scouting card (`CalendarView`).

Code that changes state step by step (the replay, the accumulators, the
merge, the table build, the round grouping) is modelled by methods with
loops, each proved equal to a function that specifies it; the pure
`filter`/`map`/`reduce` chains are functions. Database queries become the
input sequences. Identifiers are whole numbers; a score that may be missing
is an `Option`; box-score counters that the program reads as `x || 0` are
plain integers. Averages and percentages use exact `real` division.

Period-end snapshots are cumulative scores, and each period's delta
subtracts the previous snapshot from each side: snapshots 20-15 then 35-30
give home deltas +5 and 0 (`PlusMinus.CumulativeSnapshotsExample`).

## Model

| member | source | states |
|---|---|---|
| Common.SortWith | components/Standings.tsx:128 | An in-place sort with a consistent comparator gives a permutation of its input, ordered by the comparator. |
| Common.SortedDistinct | components/CalendarView.tsx:71 | The numeric keys of a record sorted with `a - b`: strictly ascending, holding exactly the values given. |
| Common.AddAtTotal | services/dataService.ts:358-361 | Adding seconds to one period of a player's record adds them to the record's total. |
| Common.AddAtKeys | services/dataService.ts:358-361 | Crediting seconds to a period adds its key to the record's keys when it is new and keeps the keys otherwise (in the model's entry list a new key goes last; `PlusMinus.RecordOrderIrrelevant` shows that this order does not change any result). |
| Common.SumOfPermutation | services/dataService.ts:416-423 | A sum over entries does not depend on the order in which they are visited. |
| Text.Split | services/dataService.ts:559 | `split(':')` gives at least one piece, no piece holds the separator, and joining the pieces gives the text back. |
| Text.SplitJoin | services/dataService.ts:559 | Splitting the join of separator-free pieces gives the same pieces. |
| Text.PadStart2Value | services/dataService.ts:535 | A number below 100 padded to two characters is two digits with the same value. |
| Text.ParseDigits | services/dataService.ts:561-565 | Text made only of decimal digits reads as its decimal value with `parseInt`, `parseInt(_, 10)` and `parseFloat`. |
| Text.ParseIntNatToString | services/dataService.ts:561-565 | Reading back the text of a whole number gives the number. |
| Text.NoDigitsIsNaN | services/dataService.ts:561-565 | Text with no digit reads as `NaN`, which `\|\| 0` turns into 0. |
| Model.PlayerRows | services/dataService.ts:818 | A player's rows are exactly the rows with their id. |
| Model.PerGame | services/dataService.ts:892-894 | A per-game average times the games is the total; with no games it is 0. |
| Model.PerMinute | components/TeamStats.tsx:152 | Points per minute times the minutes is the points; 0 when there are no minutes. |
| Model.Percent | services/dataService.ts:896 | `made / att * 100` when something was attempted (between 0 and 100 when made ≤ att), 0 otherwise. |
| Tiempo.MinutesAndSeconds | services/dataService.ts:555-563 | Text with one colon reads as minutes plus seconds over 60, each part `parseInt(_, 10) \|\| 0`. |
| Tiempo.TooManyColons | services/dataService.ts:558-568 | Text with two colons or more reads as 0 minutes. |
| Tiempo.WholeMinutesText | services/dataService.ts:564-565 | Text that is a whole number reads as that many minutes. |
| Tiempo.FormatSecondsShape | services/dataService.ts:533-535 | The written time is the whole minutes in decimal, a colon, then exactly two digits that read as the remaining seconds. |
| Tiempo.FormatSecondsRoundTrip | services/dataService.ts:533-535 | The `M:SS` text written back for a number of seconds reads back as those seconds over 60 minutes. |
| Tiempo.WriteBack | services/dataService.ts:528-541 | A row gets the computed plus/minus when there is one, else its stored value or 0; with positive computed seconds its time becomes exactly their `M:SS` text, which reads back as those seconds, and otherwise stays; nothing else changes. |
| PlusMinus.PlaysBeforeIsTotalPreorder | services/dataService.ts:312-323 | The replay order (period up, minute down, second down, id up) is a total preorder. |
| PlusMinus.SortMovements | services/dataService.ts:312-323 | The movements of a match in replay order: a permutation, sorted by that order, periods ascending. |
| PlusMinus.ReadMarcadorNumbers | services/dataService.ts:328-332 | A snapshot `a-b` reads as the two numbers. |
| PlusMinus.ReadMarcadorMissing | services/dataService.ts:328 | A snapshot without a score reads as `0-0`. |
| PlusMinus.Snapshots | services/dataService.ts:327 | The snapshots are exactly the movements of kind 116. |
| PlusMinus.QuarterScores | services/dataService.ts:326-333 | There is a score for exactly the periods that have a snapshot. |
| PlusMinus.QuarterScoresLast | services/dataService.ts:329-332 | The score of a period is the one of its last snapshot. |
| PlusMinus.QuarterDeltas | services/dataService.ts:335-354 | There is a delta for exactly the periods that have a snapshot. |
| PlusMinus.AwayDeltaIsNegatedHome | services/dataService.ts:349-353 | The away side's delta is the home side's, negated. |
| PlusMinus.MiniDeltaIsSnapshot | services/dataService.ts:340-350 | In mini categories the delta is the snapshot's own margin. |
| PlusMinus.RunningDelta | services/dataService.ts:343-347 | Otherwise the home delta is the margin less the margin of the previous recorded period (0 before the first), not of period p-1. |
| PlusMinus.CumulativeSnapshotsExample | services/dataService.ts:338-354 | Snapshots 20-15 and 35-30 give home deltas +5 and 0. |
| PlusMinus.QuarterDeltaAt | services/dataService.ts:338-353 | The record of deltas holds, for each period with a snapshot, that period's delta. |
| PlusMinus.MatchDeltaAt | services/dataService.ts:338-353 | With every snapshot parsed, the home delta of the j-th period in ascending order is its margin less the margin of the (j-1)-th (0 for the first). |
| PlusMinus.MatchMarginsKnown | services/dataService.ts:326-336 | With every snapshot parsed, each sorted period has a score with both sides. |
| PlusMinus.MatchDeltasRun | services/dataService.ts:336-354 | With every snapshot parsed, the home deltas of a match are running deltas over its sorted periods. |
| PlusMinus.DeltasTelescope | services/dataService.ts:336-354 | Running deltas add up, over the periods up to one period, to that period's margin. |
| PlusMinus.DeltasSum | services/dataService.ts:336-354 | Running deltas add up over all periods to the margin of the last one. |
| PlusMinus.FinalPeriod | services/dataService.ts:336 | The last period with a snapshot is one of the periods and no period is later. |
| PlusMinus.DeltasSumToFinalMargin | services/dataService.ts:336-354 | With every snapshot parsed, the home deltas of all periods add up to the margin of the snapshot of the last period. |
| PlusMinus.StintWithinPeriod | services/dataService.ts:383-384 | Entering at one clock and leaving at another in the same period credits the clock time that ran to that period. |
| PlusMinus.CreditWholeSum | services/dataService.ts:387 | Crediting every period strictly between two periods adds their count times the amount. |
| PlusMinus.StintAcrossPeriods | services/dataService.ts:385-389 | A stint across periods credits the entry clock, every whole period between, and the period length less the exit clock. |
| PlusMinus.ExitWithoutEntry | services/dataService.ts:391-392 | An exit with no open stint credits the period length less the exit clock to its period. |
| PlusMinus.OtherMovementOnlyFilesPeriod | services/dataService.ts:370-394 | A movement that is neither entry nor exit only records that the player appeared in its period. |
| PlusMinus.NoSubstitutionsNoSeconds | services/dataService.ts:367-395 | Without entries and exits the replay credits no seconds and leaves nobody on court. |
| PlusMinus.WholePeriodFallback | services/dataService.ts:397-407 | A player seen only in one period, with no entry or exit, gets the whole period. |
| PlusMinus.ReplayPeriodsDistinct | services/dataService.ts:365-371 | The periods a player appeared in are recorded once each, exactly those of their movements. |
| PlusMinus.LineOfSnoc | services/dataService.ts:367-395 | A movement changes only its own player's line, by one replay step. |
| PlusMinus.NoPeriodsNoSeconds | services/dataService.ts:367-395 | A player with no movement has no seconds. |
| PlusMinus.PlayedSecondsNonNegative | services/dataService.ts:416-423 | Seconds played sum only positive periods, so they are never negative. |
| PlusMinus.AddSeconds | services/dataService.ts:358-361 | `addSeconds` changes the record of one player only. |
| PlusMinus.ComputeQuarterDeltas | services/dataService.ts:325-354 | The delta loop gives the deltas of the match's snapshots. |
| PlusMinus.ScoresOf | services/dataService.ts:326-333 | The snapshot loop gives the score of every period with a snapshot. |
| PlusMinus.DeltasFromScores | services/dataService.ts:335-354 | The loop over the sorted periods gives each period's delta. |
| PlusMinus.CreditWholePeriods | services/dataService.ts:387 | The loop credits the whole periods between two periods. |
| PlusMinus.ApplyMovement | services/dataService.ts:367-394 | One movement on the shared on-court set, entry times and second records does one replay step for its player and nothing for the others. |
| PlusMinus.ApplyExit | services/dataService.ts:380-393 | An exit closes the open stint or applies the no-entry rule, and takes the player off court. |
| PlusMinus.ReplayMinutes | services/dataService.ts:363-395 | After the event loop every player's seconds and periods are those of the replay of their own movements. |
| PlusMinus.FillWholePeriods | services/dataService.ts:397-407 | After the fallback loop every player's seconds are the replay plus the whole-period fallback. |
| PlusMinus.FillPlayer | services/dataService.ts:398-406 | The fallback for one player changes only that player. |
| PlusMinus.RecordOrderIrrelevant | services/dataService.ts:416-423 | The same period entries in any order give the same seconds played and the same plus/minus. |
| PlusMinus.Aggregate | services/dataService.ts:409-427 | Only roster players with a record get a value: plus/minus sums the deltas of periods with positive seconds; seconds sum the positive periods. |
| PlusMinus.ReplayMatch | services/dataService.ts:310-428 | The replay of one match gives every roster player with seconds their plus/minus and seconds, and nobody else. |
| PlusMinus.GroupByMatch | services/dataService.ts:303-308 | The grouping gives each match its movements in input order. |
| PlusMinus.SecondsNeedMovement | services/dataService.ts:358-407 | Seconds are only credited to a player with a movement. |
| PlusMinus.CreditedAppears | services/dataService.ts:410-427 | A (match, player) pair with a value occurs in the movements. |
| PlusMinus.TableKeys | services/dataService.ts:410-427 | The result holds exactly the roster players the replay credits, per match. |
| PlusMinus.NoMovementsNoCredit | services/dataService.ts:303-310 | A match without movements credits nobody. |
| PlusMinus.ReplayOf | services/dataService.ts:310-428 | The replay of one match agrees with the pair tables for that match. |
| PlusMinus.CreditedInMatches | services/dataService.ts:303-310 | Every pair with a value belongs to a match the grouping found. |
| PlusMinus.CalculatePlusMinus | services/dataService.ts:293-431 | `calculatePlusMinusFromMovements` returns exactly the plus/minus and seconds tables of the replay. |
| TeamLog.FindFixture | services/dataService.ts:466-469 | The first calendar fixture with the same home and away teams, or none. |
| TeamLog.PatchRound | services/dataService.ts:464-475 | A match takes the round of its first calendar fixture and is otherwise unchanged. |
| TeamLog.LocalSidesMissing | services/dataService.ts:519-522 | A match id is recorded only when some match has it. |
| TeamLog.LocalSidesLast | services/dataService.ts:519-522 | The side of a match id is whether the team was at home in the last match with that id. |
| TeamLog.ComputeMatchIsLocal | services/dataService.ts:519-522 | The loop fills `matchIsLocal` with those sides. |
| TeamLog.RosterIds | services/dataService.ts:517 | The roster ids are exactly the players of the roster. |
| TeamLog.TeamGameLog | services/dataService.ts:433-550 | `fetchTeamStats`: patched matches, movements and stats only when there are matches, each row written back with the replay of period length 6 (mini) or 10. |
| TeamLog.OpponentRowKept | services/dataService.ts:528-541 | A row of a player outside the roster keeps its time and gets its stored plus/minus or 0. |
| TeamLog.CreditedRowRewritten | services/dataService.ts:528-541 | A row the replay credits gets the replay's plus/minus; with positive seconds its time becomes exactly the `M:SS` text of those seconds (which reads back as them), and otherwise stays. |
| CalendarMerge.IntToStringParses | services/dataService.ts:272 | The text of a whole number reads back as that number. |
| CalendarMerge.DeletionRoundTrip | services/dataService.ts:174 | The id `cal_<id>` of a pending fixture deletes that calendar row; the id of a real match deletes that match (lines 268-284). |
| CalendarMerge.MatchFor | services/dataService.ts:156-159 | The first available match with the fixture's home and away teams, or none. |
| CalendarMerge.FindMatchFor | services/dataService.ts:156-161 | The `findIndex` loop: -1 exactly when no match fits, else that first index. |
| CalendarMerge.Remove | services/dataService.ts:170 | `splice` takes exactly that one match out. |
| CalendarMerge.MarkLeftovers | services/dataService.ts:190-192 | Every leftover match is kept, marked as not from the calendar. |
| CalendarMerge.Slots | services/dataService.ts:153-187 | Each calendar fixture yields one item. |
| CalendarMerge.RoundThenDateIsTotalPreorder | services/dataService.ts:195-198 | The order by (round or 0, date) is a total preorder. |
| CalendarMerge.MergeCalendar | services/dataService.ts:149-198 | The merge loop gives the merged list. |
| CalendarMerge.SlotItem | services/dataService.ts:161-186 | A fixture yields some available match between its teams with the fixture's round, or a pending item `cal_<id>` without scores; it is pending when no match between its teams was given. |
| CalendarMerge.SlotFirstFit | services/dataService.ts:153-187 | A fixture takes the first match between its teams among those still available at its turn, or is pending when none is left; the match it takes is no longer available to the next fixture. |
| CalendarMerge.LeftoverIsWhatRemains | services/dataService.ts:153-192 | The leftover matches are exactly those still available after the last fixture. |
| CalendarMerge.SlotsKeepEveryMatch | services/dataService.ts:153-192 | Every available match ends up in one slot or among the leftovers. |
| CalendarMerge.MergedKeepsEveryMatch | services/dataService.ts:149-198 | Every match on record appears in the merged list exactly as often as it was given. |
| CalendarMerge.MergedShape | services/dataService.ts:149-198 | One item per fixture plus the leftovers, ordered by round then date. |
| CalendarMerge.LeftoverKeys | services/dataService.ts:190-192 | Marking the leftovers keeps their ids. |
| Career.BestGame | services/dataService.ts:622-624 | The best game is at least 0, at least every row's points, and one of them unless 0. |
| Career.AddRowTally | services/dataService.ts:610-624 | The loop body for one more row is the tally of the longer list. |
| Career.FinishTally | services/dataService.ts:628-635 | The final calculations of the tally give the career line. |
| Career.CareerOf | services/dataService.ts:588-635 | Games are rows; ppg, mpg and threes per game are per-game averages (0 without games); t1Pct is a percentage (0 without attempts); the best game is `BestGame` of the rows, so it bounds every row. |
| Career.TallyRows | services/dataService.ts:590-625 | The row loop leaves one tally per player with rows. |
| Career.HistoricalStats | services/dataService.ts:572-638 | No ids gives no record; otherwise every player with rows, and only they, gets the career line of their rows. |
| Career.CountedRows | services/dataService.ts:681-683 | A row counts exactly when its competition is another one of the same season. |
| Career.Names | services/dataService.ts:700-703 | Competition names are the non-empty names of the rows, each once. |
| Career.ParallelOf | services/dataService.ts:685-711 | Games are the counted rows; ppg their per-game points; the competition names are `Names` of the rows (the non-empty ones, each once); `isPrimaryContext` starts false. |
| Career.ParallelTallySnoc | services/dataService.ts:696-703 | One more counted row updates the record by one loop step. |
| Career.ParallelTalliedCounted | services/dataService.ts:675-704 | A counted row keeps every player's record equal to that of their counted rows. |
| Career.ParallelTalliedSkipped | services/dataService.ts:681-683 | A row of the current competition or another season changes nothing. |
| Career.AddParallel | services/dataService.ts:680-704 | The loop body for one row keeps every player's record equal to that of their counted rows, one row further. |
| Career.TallyParallel | services/dataService.ts:675-704 | The loop leaves one record per player with counted rows. |
| Career.ParallelPlayerStats | services/dataService.ts:641-714 | No ids or no season gives no record; otherwise each player with counted rows gets the line of those rows. |
| Scouting.ForPlusAgainst | services/dataService.ts:731-738 | Points for and against add up to all the points of the played matches. |
| Scouting.OutcomeOf | services/dataService.ts:756 | W exactly when the team scored more, L exactly when it scored less. |
| Scouting.LaterFirstIsTotalPreorder | services/dataService.ts:748 | The date-descending comparator is a total preorder. |
| Scouting.NewestFirst | services/dataService.ts:748 | The played matches, a permutation, newest first. |
| Scouting.Form | services/dataService.ts:752-757 | One result per match, in order. |
| Scouting.SumScores | services/dataService.ts:731-738 | The loop sums the points for and against. |
| Scouting.SumShooting | services/dataService.ts:740-745 | The loop sums threes made and free throws of every row, both teams' rows included. |
| Scouting.NonePlayed | services/dataService.ts:720-723 | The played filter is empty exactly when no match has a home score. |
| Scouting.TeamAggregates | services/dataService.ts:719-774 | Nothing when no match was played; otherwise per-game points for and against, the free-throw percentage, threes per game, the form of the 5 newest matches and the match ids newest first. |
| Scouting.FormIsMostRecent | services/dataService.ts:750-757 | The form holds the results of the newest matches, none older than a match left out. |
| Scouting.PlayerMoves | services/dataService.ts:819 | A player's movements are exactly those with their id. |
| Scouting.IndexOf | services/dataService.ts:845-846 | `indexOf`: -1 exactly when the id is missing, else its first position. |
| Scouting.RecentFirstIsTotalPreorder | services/dataService.ts:844-849 | The comparator `idxA - idxB` is a total preorder. |
| Scouting.ByRecency | services/dataService.ts:844-849 | A player's rows, a permutation, in order of their match's position. |
| Scouting.MissingMatchFirst | services/dataService.ts:844-849 | A row whose match is missing from the list sorts before every row whose match is in it. |
| Scouting.LastGames | services/dataService.ts:852 | At most 3 of the player's rows, none less recent than a row left out. |
| Scouting.PlayerLine | services/dataService.ts:816-903 | Games are rows; every total sums the player's rows (fouls include technicals and unsportsmanlike, shooting fouls count movement kinds); every average is per game; last-3 average over the last games; points share over the team's points; `isPrimaryContext` is "more games elsewhere". |
| Scouting.RosterLines | services/dataService.ts:804-816 | No lines without a played match; otherwise one line per roster entry. |
| Standings.TableIds | components/Standings.tsx:22-37 | The table's teams are the set ids, each once. |
| Standings.InitRows | components/Standings.tsx:21-37 | One empty row per team. |
| Standings.AccumulatedStep | components/Standings.tsx:40-70 | A counted match updates its two teams' rows by one step; another changes nothing. |
| Standings.AccumulateMatches | components/Standings.tsx:39-70 | After the loop every row is its team's record over the matches. |
| Standings.BuildTable | components/Standings.tsx:19-75 | The table before sorting is every team's record with its difference. |
| Standings.Records | components/Standings.tsx:72-75 | Each row is its team's record with `diff = pf - pc`. |
| Standings.PointsArePlayedPlusWon | components/Standings.tsx:54-68 | Classification points are games played plus games won. |
| Standings.MatchResult | components/Standings.tsx:41-68 | A win gives the winner a win and 2 points and the loser a loss and 1 point; a draw gives 1 point each; both play a game; an uncounted match changes no row. |
| Standings.RecordsStep | components/Standings.tsx:40-70 | A counted match changes the rows of its two teams only. |
| Standings.GamesPlayedTwicePerMatch | components/Standings.tsx:47-52 | Games played add up to twice the counted matches, and points for to points against. |
| Standings.BlankSums | components/Standings.tsx:28-34 | Empty rows sum to zero. |
| Standings.DiffSum | components/Standings.tsx:72-75 | Differences add up to points for less points against. |
| Standings.TableTotals | components/Standings.tsx:39-75 | Over the table, games played are twice the counted matches, points for equal points against, and differences add up to 0. |
| Standings.TiedIds | components/Standings.tsx:84 | The teams level on a number of points. |
| Standings.CompareIsKeyOrder | components/Standings.tsx:78-126 | `compareTeams` puts a first exactly when its criteria (points, then head-to-head points, diff and points for unless mini, then diff and points for) rank at least as high. |
| Standings.RanksIsTotalPreorder | components/Standings.tsx:78-128 | That order is a total preorder, so the sort is well defined. |
| Standings.SortedTable | components/Standings.tsx:15-134 | The table is a permutation of the teams' rows, points non-increasing, each row ranking at least as high as every later one. |
| TeamStats.TeamOnly | components/TeamStats.tsx:96-97 | Exactly the matches the team plays at home or away. |
| TeamStats.RosterRowsIn | components/TeamStats.tsx:100-101 | Exactly the rows of roster players in that match. |
| TeamStats.LineOf | components/TeamStats.tsx:98-121 | `isLocal` exactly when the team is at home; scores from its side (missing as 0); free throws made and attempted, two- and three-point attempts and fouls are sums over the roster's rows of that match; t1Pct a percentage. |
| TeamStats.TeamMatches | components/TeamStats.tsx:91-127 | One line per match of the team, in order. |
| TeamStats.OpponentRowIgnored | components/TeamStats.tsx:101 | A row of a player outside the roster changes no line. |
| TeamStats.RosterRowCounted | components/TeamStats.tsx:101-109 | A roster row adds its free throws, its two- and three-point attempts and all its fouls to its match's line. |
| TeamStats.OtherMatchRowIgnored | components/TeamStats.tsx:101 | A row of another match leaves the line of a match unchanged. |
| TeamStats.MatchesOf | components/TeamStats.tsx:142 | The distinct match ids of a player's rows. |
| TeamStats.PlayerTotalsOf | components/TeamStats.tsx:134-181 | Games are distinct matches; points, minutes, personal fouls and the free-throw, two- and three-point totals (made and attempted) sum the rows; per-game averages; ppm over minutes per game. |
| TeamStats.GamesWithinRows | components/TeamStats.tsx:142-143 | Games never exceed rows and are 0 exactly without rows. |
| TeamStats.DuplicateRowOneGame | components/TeamStats.tsx:142-143 | Two rows of one match count as one game here. |
| TeamStats.MorePointsIsTotalPreorder | components/TeamStats.tsx:187 | The points-descending comparator is a total preorder. |
| TeamStats.PlayerTable | components/TeamStats.tsx:130-192 | One line per roster entry, a permutation of the lines, best scorers first. |
| CalendarView.RoundMatches | components/CalendarView.tsx:61-69 | A round's matches in input order. |
| CalendarView.GroupedStep | components/CalendarView.tsx:61-69 | One more match joins its round's bucket; round 0 is dropped. |
| CalendarView.GroupByRound | components/CalendarView.tsx:61-69 | A bucket for exactly the non-zero rounds, each holding its matches in order. |
| CalendarView.RoundsOf | components/CalendarView.tsx:71 | The non-zero rounds of the matches. |
| CalendarView.Rounds | components/CalendarView.tsx:71 | Those rounds strictly ascending. |
| CalendarView.DisplayedRounds | components/CalendarView.tsx:74-82 | Ascending; all rounds when finished ones are shown, else those with a match without home score. |
| CalendarView.KeepRounds | components/CalendarView.tsx:74-82 | The filter keeps the order and exactly the unfinished rounds (or all). |
| CalendarView.PlayingTeams | components/CalendarView.tsx:156-160 | Exactly the teams at home or away in a match of the round. |
| CalendarView.Outside | components/CalendarView.tsx:162 | The teams outside a set, in order. |
| CalendarView.RestingTeams | components/CalendarView.tsx:156-162 | Exactly the teams that play no match of the round. |
| CalendarView.PctColor | components/CalendarView.tsx:15-19 | Red exactly below 40, green exactly from 65, amber between. |
| CalendarView.PctColorMonotone | components/CalendarView.tsx:15-19 | A higher percentage never gets a worse colour. |
| CalendarView.FirstMatch | components/CalendarView.tsx:329-334 | A rule table gives the result of its first test that holds, or the default. |
| CalendarView.ArchetypeIsFirstRule | components/CalendarView.tsx:324-335 | `getArchetype` is the first rule that holds of sniper, penetrator, star, defensive specialist, veteran, else rotation player. |
| CalendarView.TacticalAdvice | components/CalendarView.tsx:337-369 | Never empty; the free-throw rule wins, then "no fouls", then the form rule; otherwise the shot profile: close out above 4 three-point attempts per game, below 2 wall off (ppg above 8) or sag, else standard defence. |
| CalendarView.DynamicContext | components/CalendarView.tsx:378-506 | Linked player exactly when the parallel record is the primary context; the plus/minus card needs avg ≥ 6 over 2 games; the default excludes the free-throw weakness. |
| CalendarView.ContextIsFirstRule | components/CalendarView.tsx:378-506 | `getDynamicContext` is the first rule that holds of linked player, plus/minus, three-point shooting, hot form, free-throw weakness, else the season total. |
| CalendarView.MoreGamesElsewhereIsLinked | services/dataService.ts:866-870 | A roster player with more games in another competition of the season gets the linked-player card. |

## Left out

- Database queries, inserts, updates and deletes: their results are the input sequences; only the id encoding of `deleteMatch` is modelled.
- `async` sequencing, thrown errors, `try`/`catch` fallbacks to `[]`, and the degraded report when the scouting queries fail.
- Rendering: JSX, names, logos, photos, colours as hex strings, the donut geometry, `toFixed`, `Math.round` of displayed numbers, and the texts and icons of the dynamic context (only which card is chosen is modelled).
- Leader selection in the scouting report (services/dataService.ts:906-918) and the insight sentences after it: presentation built on the modelled lines.
- Dates are integer timestamps; `new Date(..)` parsing of `fecha_hora` is not modelled.
- Integers are unbounded and averages use exact reals: JavaScript doubles, their rounding, `NaN` and `Infinity` are not modelled.
- Text.ParseFloat: reads digits with one optional decimal point; exponents and `Infinity` are not read.
- Movement clock fields are integers: a `minuto` that does not parse (a `NaN` clock) is not modelled.
- The order of JavaScript record keys: `Object.keys` lists integer keys in ascending order, while a period record here is an entry list in insertion order; `PlusMinus.RecordOrderIrrelevant` shows that the seconds played and the plus/minus do not depend on that order, and the per-period deltas are iterated in ascending order explicitly.
- Common.SortWith: proves a sorted permutation, not the stability of `Array.prototype.sort`.
- Scouting.TeamAggregates: the `'ignore'` test on row ids is left out, since numeric ids never contain that text.
- Standings.MatchResult: a missing score is modelled as `null`; an `undefined` score would pass the strict `=== null` test and count as 0.
- Null roster entries and null rows (`if (!p) return null`) are not modelled; roster entries are always present.
- Scouting.PlayerLine: the two-point totals, which the report reads but never stores, are not modelled.
- In-place sorts are modelled on sequences: the aliasing of the sorted arrays is not captured.
- Tiempo.WriteBack: `Math.round(seconds % 60)` is the identity on the whole seconds the replay produces, so it is not written out.
