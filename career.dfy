/** `fetchHistoricalPlayerStats` and `fetchParallelPlayerStats`: a
    player's totals over every competition on record, and over the other
    competitions of the same season. The queries are parameters: the box
    score rows of the players asked for, and for the parallel totals the
    rows joined with the competition of their match. */
module Career {
  import opened Common
  import opened Model
  import opened Tiempo

  function Points(s: StatRow): int { s.points }
  function T3Made(s: StatRow): int { s.t3Made }
  function T3Att(s: StatRow): int { s.t3Att }
  function T1Made(s: StatRow): int { s.t1Made }
  function T1Att(s: StatRow): int { s.t1Att }
  function MinutesOf(s: StatRow): real { ParseTiempoJugado(s.tiempo) }

  // ---------------------------------------------------------------------
  // Career totals
  // ---------------------------------------------------------------------

  /** `bestScoringGame`: starts at 0 and is raised by any row that scores
      more. */
  function BestGame(rows: seq<StatRow>): (best: int)
    ensures best >= 0
    ensures forall i :: 0 <= i < |rows| ==> rows[i].points <= best
    ensures best == 0 || exists i :: 0 <= i < |rows| && rows[i].points == best
  {
    if rows == [] then 0
    else
      var b := BestGame(rows[..|rows| - 1]);
      if rows[|rows| - 1].points > b then rows[|rows| - 1].points else b
  }

  /** The record a player's rows build up, internal accumulators included. */
  datatype Tally = Tally(games: int, points: int, minutes: real, t3Made: int, t3Att: int,
                         t1Made: int, t1Att: int, best: int)

  /** The tally of a player's rows. */
  function TallyOf(rows: seq<StatRow>): Tally
  {
    Tally(|rows|, SumOf(rows, Points), RealSumOf(rows, MinutesOf), SumOf(rows, T3Made), SumOf(rows, T3Att),
          SumOf(rows, T1Made), SumOf(rows, T1Att), BestGame(rows))
  }

  /** The loop body of `fetchHistoricalPlayerStats` for one row. */
  function AddRow(t: Tally, s: StatRow): Tally
  {
    Tally(t.games + 1, t.points + s.points, t.minutes + MinutesOf(s), t.t3Made + s.t3Made, t.t3Att + s.t3Att,
          t.t1Made + s.t1Made, t.t1Att + s.t1Att, if s.points > t.best then s.points else t.best)
  }

  lemma AddRowTally(rows: seq<StatRow>, s: StatRow)
    ensures TallyOf(rows + [s]) == AddRow(TallyOf(rows), s)
  {
    assert (rows + [s])[..|rows|] == rows;
  }

  /** The final calculations: averages per game and the free-throw
      percentage, the internal accumulators dropped. */
  function Finish(t: Tally): CareerStats
  {
    CareerStats(t.games, t.points, PerGame(t.points as real, t.games), PerGame(t.t3Made as real, t.games),
                Percent(t.t1Made, t.t1Att), t.best, t.minutes, PerGame(t.minutes, t.games))
  }

  lemma FinishTally(rows: seq<StatRow>)
    ensures Finish(TallyOf(rows)) == CareerOf(rows)
  {
  }

  /** A player's career line: games are rows, the averages are per game and
      0 without games, the free-throw percentage is 0 without attempts, and
      the best game is the highest score of a row (or 0). */
  function CareerOf(rows: seq<StatRow>): (c: CareerStats)
    ensures c.gamesPlayed == |rows| && c.totalPoints == SumOf(rows, Points)
    ensures c.totalMinutes == RealSumOf(rows, MinutesOf)
    ensures c.ppg == PerGame(SumOf(rows, Points) as real, |rows|)
    ensures c.mpg == PerGame(RealSumOf(rows, MinutesOf), |rows|)
    ensures c.avgT3Made == PerGame(SumOf(rows, T3Made) as real, |rows|)
    ensures c.t1Pct == Percent(SumOf(rows, T1Made), SumOf(rows, T1Att))
    ensures c.bestScoringGame >= 0 && forall i :: 0 <= i < |rows| ==> rows[i].points <= c.bestScoringGame
    ensures c.bestScoringGame == BestGame(rows)
  {
    var t := TallyOf(rows);
    var ppg := PerGame(t.points as real, t.games);
    var avgT3Made := PerGame(t.t3Made as real, t.games);
    var t1Pct := Percent(t.t1Made, t.t1Att);
    var mpg := PerGame(t.minutes, t.games);
    CareerStats(t.games, t.points, ppg, avgT3Made, t1Pct, t.best, t.minutes, mpg)
  }

  lemma PlayerRowsAppend(rows: seq<StatRow>, s: StatRow, pid: PlayerId)
    ensures PlayerRows(rows + [s], pid) ==
            if s.playerId == pid then PlayerRows(rows, pid) + [s] else PlayerRows(rows, pid)
  {
    assert (rows + [s])[..|rows|] == rows;
  }

  /** `tallies` holds the tally of the rows of every player with rows, and
      `order` lists those players. */
  ghost predicate Tallied(tallies: map<PlayerId, Tally>, order: seq<PlayerId>, rows: seq<StatRow>)
  {
    && (forall pid :: pid in tallies <==> pid in order)
    && (forall pid :: pid in tallies <==> PlayerRows(rows, pid) != [])
    && (forall pid :: pid in tallies ==> tallies[pid] == TallyOf(PlayerRows(rows, pid)))
  }

  /** The tally of a player before their first row. */
  function NoRows(): Tally
  {
    Tally(0, 0, 0.0, 0, 0, 0, 0, 0)
  }

  /** One more row keeps `Tallied`. */
  lemma TalliedStep(tallies: map<PlayerId, Tally>, order: seq<PlayerId>, rows: seq<StatRow>, s: StatRow,
                    tallies': map<PlayerId, Tally>, order': seq<PlayerId>)
    requires Tallied(tallies, order, rows)
    requires tallies' == tallies[s.playerId := AddRow(GetOr(tallies, s.playerId, NoRows()), s)]
    requires order' == if s.playerId in tallies then order else order + [s.playerId]
    ensures Tallied(tallies', order', rows + [s])
  {
    TalliedPlayers(tallies, order, rows, s, tallies');
    TalliedValues(tallies, order, rows, s, tallies');
  }

  /** After one more row, the players with a tally are those with rows. */
  lemma TalliedPlayers(tallies: map<PlayerId, Tally>, order: seq<PlayerId>, rows: seq<StatRow>, s: StatRow,
                       tallies': map<PlayerId, Tally>)
    requires Tallied(tallies, order, rows)
    requires tallies' == tallies[s.playerId := AddRow(GetOr(tallies, s.playerId, NoRows()), s)]
    ensures forall q :: q in tallies' <==> PlayerRows(rows + [s], q) != []
  {
    forall q ensures q in tallies' <==> PlayerRows(rows + [s], q) != [] {
      PlayerRowsAppend(rows, s, q);
    }
  }

  /** After one more row, every tally is the tally of its player's rows. */
  lemma TalliedValues(tallies: map<PlayerId, Tally>, order: seq<PlayerId>, rows: seq<StatRow>, s: StatRow,
                      tallies': map<PlayerId, Tally>)
    requires Tallied(tallies, order, rows)
    requires tallies' == tallies[s.playerId := AddRow(GetOr(tallies, s.playerId, NoRows()), s)]
    ensures forall q :: q in tallies' ==> tallies'[q] == TallyOf(PlayerRows(rows + [s], q))
  {
    var p := s.playerId;
    var before := PlayerRows(rows, p);
    assert GetOr(tallies, p, NoRows()) == TallyOf(before);
    AddRowTally(before, s);
    PlayerRowsAppend(rows, s, p);
    forall q | q in tallies' ensures tallies'[q] == TallyOf(PlayerRows(rows + [s], q)) {
      if q != p {
        PlayerRowsAppend(rows, s, q);
        assert tallies'[q] == tallies[q];
      }
    }
  }

  /** The first loop of `fetchHistoricalPlayerStats`: one tally per player
      with rows, and the players in order of first appearance. */
  method TallyRows(rows: seq<StatRow>) returns (tallies: map<PlayerId, Tally>, order: seq<PlayerId>)
    ensures Tallied(tallies, order, rows)
  {
    tallies, order := map[], [];
    var i := 0;
    while i < |rows|
      invariant 0 <= i <= |rows|
      invariant Tallied(tallies, order, rows[..i])
    {
      var s := rows[i];
      assert rows[..i + 1] == rows[..i] + [s];
      var t := GetOr(tallies, s.playerId, NoRows());
      var order' := if s.playerId in tallies then order else order + [s.playerId];
      var tallies' := tallies[s.playerId := AddRow(t, s)];
      TalliedStep(tallies, order, rows[..i], s, tallies', order');
      tallies, order := tallies', order';
      i := i + 1;
    }
    assert rows[..i] == rows;
  }

  /** `fetchHistoricalPlayerStats`: no player asked for gives no record;
      otherwise every player with rows gets the career line of those
      rows. */
  method HistoricalStats(playerIds: seq<PlayerId>, rows: seq<StatRow>) returns (history: map<PlayerId, CareerStats>)
    ensures playerIds == [] ==> history == map[]
    ensures playerIds != [] ==> forall pid :: pid in history <==> PlayerRows(rows, pid) != []
    ensures playerIds != [] ==> forall pid :: pid in history ==> history[pid] == CareerOf(PlayerRows(rows, pid))
  {
    history := map[];
    if |playerIds| == 0 {
      return;
    }
    var tallies, order := TallyRows(rows);
    var j := 0;
    while j < |order|
      invariant 0 <= j <= |order|
      invariant forall pid :: pid in history <==> pid in order[..j]
      invariant forall pid :: pid in history ==> pid in tallies && history[pid] == Finish(tallies[pid])
    {
      var pid := order[j];
      assert pid in order;
      history := history[pid := Finish(tallies[pid])];
      assert order[..j + 1] == order[..j] + [order[j]];
      j := j + 1;
    }
    assert order[..j] == order;
    forall pid | pid in history ensures history[pid] == CareerOf(PlayerRows(rows, pid)) {
      FinishTally(PlayerRows(rows, pid));
    }
  }

  // ---------------------------------------------------------------------
  // Totals in the other competitions of the season
  // ---------------------------------------------------------------------

  /** A box score row joined with its match's competition: its id, its
      name ("" when missing) and its season. */
  datatype ParallelRow = ParallelRow(playerId: PlayerId, points: int, competitionId: int,
                                     competitionName: string, seasonId: int)

  function ParallelPoints(r: ParallelRow): int { r.points }

  /** A row counts when its competition is another one of the same season. */
  predicate Counts(r: ParallelRow, currentComp: int, seasonId: int)
  {
    r.competitionId != currentComp && r.seasonId == seasonId
  }

  /** The counting rows of one player, in order. */
  function CountedRows(rows: seq<ParallelRow>, pid: PlayerId, currentComp: int, seasonId: int): (rs: seq<ParallelRow>)
    ensures forall r :: r in rs <==> r in rows && r.playerId == pid && Counts(r, currentComp, seasonId)
  {
    if rows == [] then []
    else
      var r := rows[|rows| - 1];
      var rs := CountedRows(rows[..|rows| - 1], pid, currentComp, seasonId);
      if r.playerId == pid && Counts(r, currentComp, seasonId) then rs + [r] else rs
  }

  /** The competition names of some rows, each once, in order of first
      appearance, empty names left out. */
  function Names(rows: seq<ParallelRow>): (names: seq<string>)
    ensures forall n :: n in names <==> n != "" && exists r :: r in rows && r.competitionName == n
    ensures forall i, j :: 0 <= i < j < |names| ==> names[i] != names[j]
  {
    if rows == [] then []
    else
      var r := rows[|rows| - 1];
      var names := Names(rows[..|rows| - 1]);
      assert forall x :: x in rows[..|rows| - 1] ==> x in rows;
      if r.competitionName != "" && r.competitionName !in names then names + [r.competitionName] else names
  }

  /** A player's parallel line before `isPrimaryContext` is decided: games
      are rows, points per game are 0 without games, and the competition
      names are the non-empty names of the rows, each once. */
  function ParallelOf(rows: seq<ParallelRow>): (p: ParallelStats)
    ensures p.gamesPlayed == |rows| && !p.isPrimaryContext
    ensures |rows| > 0 ==> p.ppg * (|rows| as real) == SumOf(rows, ParallelPoints) as real
    ensures |rows| == 0 ==> p.ppg == 0.0
    ensures p.competitionNames == Names(rows)
  {
    ParallelStats(|rows|, PerGame(SumOf(rows, ParallelPoints) as real, |rows|), Names(rows), false)
  }

  /** The finalisation of a parallel record. */
  function FinishParallel(t: ParallelTally): ParallelStats
  {
    ParallelStats(t.games, PerGame(t.points as real, t.games), t.names, false)
  }

  /** The record a player's parallel rows build up. */
  datatype ParallelTally = ParallelTally(games: int, points: int, names: seq<string>)

  function ParallelTallyOf(rows: seq<ParallelRow>): ParallelTally
  {
    ParallelTally(|rows|, SumOf(rows, ParallelPoints), Names(rows))
  }

  /** The record after one more counting row. */
  function AddParallelRow(t: ParallelTally, r: ParallelRow): ParallelTally
  {
    ParallelTally(t.games + 1, t.points + r.points,
                  if r.competitionName != "" && r.competitionName !in t.names then t.names + [r.competitionName] else t.names)
  }

  lemma ParallelTallySnoc(rows: seq<ParallelRow>, r: ParallelRow)
    ensures ParallelTallyOf(rows + [r]) == AddParallelRow(ParallelTallyOf(rows), r)
  {
    assert (rows + [r])[..|rows|] == rows;
  }

  /** The counting rows of a player grow by the next row exactly when it
      is theirs and counts. */
  lemma CountedRowsAppend(rows: seq<ParallelRow>, r: ParallelRow, pid: PlayerId, currentComp: int, seasonId: int)
    ensures CountedRows(rows + [r], pid, currentComp, seasonId) ==
              if r.playerId == pid && Counts(r, currentComp, seasonId)
              then CountedRows(rows, pid, currentComp, seasonId) + [r]
              else CountedRows(rows, pid, currentComp, seasonId)
  {
    assert (rows + [r])[..|rows|] == rows;
  }

  /** `tallies` holds the record of the counting rows of every player
      with such rows, and `order` lists those players. */
  ghost predicate ParallelTallied(tallies: map<PlayerId, ParallelTally>, order: seq<PlayerId>, rows: seq<ParallelRow>,
                                  currentComp: int, seasonId: int)
  {
    && (forall pid :: pid in tallies <==> pid in order)
    && (forall pid :: pid in tallies <==> CountedRows(rows, pid, currentComp, seasonId) != [])
    && (forall pid :: pid in tallies ==> tallies[pid] == ParallelTallyOf(CountedRows(rows, pid, currentComp, seasonId)))
  }

  /** One more counting row keeps `ParallelTallied`. */
  lemma ParallelTalliedCounted(tallies: map<PlayerId, ParallelTally>, order: seq<PlayerId>, rows: seq<ParallelRow>,
                               currentComp: int, seasonId: int, r: ParallelRow,
                               tallies': map<PlayerId, ParallelTally>, order': seq<PlayerId>)
    requires ParallelTallied(tallies, order, rows, currentComp, seasonId)
    requires Counts(r, currentComp, seasonId)
    requires tallies' == tallies[r.playerId := AddParallelRow(GetOr(tallies, r.playerId, ParallelTally(0, 0, [])), r)]
    requires order' == if r.playerId in tallies then order else order + [r.playerId]
    ensures ParallelTallied(tallies', order', rows + [r], currentComp, seasonId)
  {
    ParallelPlayers(tallies, order, rows, currentComp, seasonId, r, tallies');
    ParallelValues(tallies, order, rows, currentComp, seasonId, r, tallies');
  }

  /** After one more counting row, the players with a record are those
      with counting rows. */
  lemma ParallelPlayers(tallies: map<PlayerId, ParallelTally>, order: seq<PlayerId>, rows: seq<ParallelRow>,
                        currentComp: int, seasonId: int, r: ParallelRow, tallies': map<PlayerId, ParallelTally>)
    requires ParallelTallied(tallies, order, rows, currentComp, seasonId)
    requires Counts(r, currentComp, seasonId)
    requires tallies' == tallies[r.playerId := AddParallelRow(GetOr(tallies, r.playerId, ParallelTally(0, 0, [])), r)]
    ensures forall q :: q in tallies' <==> CountedRows(rows + [r], q, currentComp, seasonId) != []
  {
    forall q ensures q in tallies' <==> CountedRows(rows + [r], q, currentComp, seasonId) != [] {
      CountedRowsAppend(rows, r, q, currentComp, seasonId);
    }
  }

  /** After one more counting row, every record is that of its player's
      counting rows. */
  lemma ParallelValues(tallies: map<PlayerId, ParallelTally>, order: seq<PlayerId>, rows: seq<ParallelRow>,
                       currentComp: int, seasonId: int, r: ParallelRow, tallies': map<PlayerId, ParallelTally>)
    requires ParallelTallied(tallies, order, rows, currentComp, seasonId)
    requires Counts(r, currentComp, seasonId)
    requires tallies' == tallies[r.playerId := AddParallelRow(GetOr(tallies, r.playerId, ParallelTally(0, 0, [])), r)]
    ensures forall q :: q in tallies' ==> tallies'[q] == ParallelTallyOf(CountedRows(rows + [r], q, currentComp, seasonId))
  {
    var p := r.playerId;
    var before := CountedRows(rows, p, currentComp, seasonId);
    assert GetOr(tallies, p, ParallelTally(0, 0, [])) == ParallelTallyOf(before);
    ParallelTallySnoc(before, r);
    CountedRowsAppend(rows, r, p, currentComp, seasonId);
    forall q | q in tallies' ensures tallies'[q] == ParallelTallyOf(CountedRows(rows + [r], q, currentComp, seasonId)) {
      if q != p {
        CountedRowsAppend(rows, r, q, currentComp, seasonId);
        assert tallies'[q] == tallies[q];
      }
    }
  }

  /** A row that does not count leaves `ParallelTallied` as it is. */
  lemma ParallelTalliedSkipped(tallies: map<PlayerId, ParallelTally>, order: seq<PlayerId>, rows: seq<ParallelRow>,
                               currentComp: int, seasonId: int, r: ParallelRow)
    requires ParallelTallied(tallies, order, rows, currentComp, seasonId)
    requires !Counts(r, currentComp, seasonId)
    ensures ParallelTallied(tallies, order, rows + [r], currentComp, seasonId)
  {
    forall pid {
      CountedRowsAppend(rows, r, pid, currentComp, seasonId);
    }
  }

  /** The loop body of `fetchParallelPlayerStats` for one row: a row of
      another competition of the season adds to its player's record. */
  method AddParallel(tallies: map<PlayerId, ParallelTally>, order: seq<PlayerId>, r: ParallelRow,
                     currentComp: int, seasonId: int, ghost done: seq<ParallelRow>)
    returns (tallies': map<PlayerId, ParallelTally>, order': seq<PlayerId>)
    requires ParallelTallied(tallies, order, done, currentComp, seasonId)
    ensures ParallelTallied(tallies', order', done + [r], currentComp, seasonId)
  {
    if !Counts(r, currentComp, seasonId) {
      ParallelTalliedSkipped(tallies, order, done, currentComp, seasonId, r);
      tallies', order' := tallies, order;
    } else {
      var t := GetOr(tallies, r.playerId, ParallelTally(0, 0, []));
      order' := if r.playerId in tallies then order else order + [r.playerId];
      tallies' := tallies[r.playerId := AddParallelRow(t, r)];
      ParallelTalliedCounted(tallies, order, done, currentComp, seasonId, r, tallies', order');
    }
  }

  /** The loop over the rows of `fetchParallelPlayerStats`. */
  method TallyParallel(rows: seq<ParallelRow>, currentComp: int, seasonId: int)
    returns (tallies: map<PlayerId, ParallelTally>, order: seq<PlayerId>)
    ensures ParallelTallied(tallies, order, rows, currentComp, seasonId)
  {
    tallies, order := map[], [];
    var i := 0;
    while i < |rows|
      invariant 0 <= i <= |rows|
      invariant ParallelTallied(tallies, order, rows[..i], currentComp, seasonId)
    {
      assert rows[..i + 1] == rows[..i] + [rows[i]];
      tallies, order := AddParallel(tallies, order, rows[i], currentComp, seasonId, rows[..i]);
      i := i + 1;
    }
    assert rows[..i] == rows;
  }

  /** `fetchParallelPlayerStats`: no player or no season gives no record;
      otherwise every player with counting rows gets the line of those
      rows. */
  method ParallelPlayerStats(seasonId: int, currentComp: int, playerIds: seq<PlayerId>, rows: seq<ParallelRow>)
    returns (parallel: map<PlayerId, ParallelStats>)
    ensures playerIds == [] || seasonId == 0 ==> parallel == map[]
    ensures playerIds != [] && seasonId != 0 ==>
              forall pid :: pid in parallel <==> CountedRows(rows, pid, currentComp, seasonId) != []
    ensures playerIds != [] && seasonId != 0 ==>
              forall pid :: pid in parallel ==> parallel[pid] == ParallelOf(CountedRows(rows, pid, currentComp, seasonId))
  {
    parallel := map[];
    if |playerIds| == 0 || seasonId == 0 {
      return;
    }
    var tallies, order := TallyParallel(rows, currentComp, seasonId);
    var j := 0;
    while j < |order|
      invariant 0 <= j <= |order|
      invariant forall pid :: pid in parallel <==> pid in order[..j]
      invariant forall pid :: pid in parallel ==> pid in tallies && parallel[pid] == FinishParallel(tallies[pid])
    {
      var pid := order[j];
      assert pid in order;
      parallel := parallel[pid := FinishParallel(tallies[pid])];
      assert order[..j + 1] == order[..j] + [order[j]];
      j := j + 1;
    }
    assert order[..j] == order;
    forall pid | pid in parallel ensures parallel[pid] == ParallelOf(CountedRows(rows, pid, currentComp, seasonId)) {
      assert parallel[pid] == FinishParallel(ParallelTallyOf(CountedRows(rows, pid, currentComp, seasonId)));
    }
  }
}
