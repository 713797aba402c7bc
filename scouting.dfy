/** The numbers of the scouting report (`getTeamScoutingReport`): the
    team's season aggregates and one line per roster player, built from the
    team's matches, the box score rows of those matches (both teams' rows),
    their play-by-play and the career and parallel-season records. */
module Scouting {
  import opened Common
  import opened Model
  import opened Career

  // ---------------------------------------------------------------------
  // Team aggregates
  // ---------------------------------------------------------------------

  /** The result of a match for the team: win, loss or draw. */
  datatype Outcome = W | L | D

  /** The season aggregates of a team (what `calculateTeamAggregates`
      returns). */
  datatype Aggregates = Aggregates(
    ppg: real,
    papg: real,
    ftPct: real,
    t3PerGame: real,
    form: seq<Outcome>,
    totalMatches: int,
    totalPoints: int,
    sortedMatchIds: seq<MatchKey>)

  /** A match is played once its home score is on record. */
  predicate Played(m: Match)
  {
    m.homePoints.Some?
  }

  /** The points of the team in a match: the home score when the team is
      the home team, the away score otherwise. */
  function PointsFor(m: Match, team: TeamId): int
  {
    if m.home == team then ScoreOr0(m.homePoints) else ScoreOr0(m.awayPoints)
  }

  /** The points of the other side. */
  function PointsAgainst(m: Match, team: TeamId): int
  {
    if m.home == team then ScoreOr0(m.awayPoints) else ScoreOr0(m.homePoints)
  }

  /** Both scores of a match together. */
  function BothScores(m: Match): int
  {
    ScoreOr0(m.homePoints) + ScoreOr0(m.awayPoints)
  }

  function TotalFor(ms: seq<Match>, team: TeamId): int
  {
    if ms == [] then 0 else TotalFor(ms[..|ms| - 1], team) + PointsFor(ms[|ms| - 1], team)
  }

  function TotalAgainst(ms: seq<Match>, team: TeamId): int
  {
    if ms == [] then 0 else TotalAgainst(ms[..|ms| - 1], team) + PointsAgainst(ms[|ms| - 1], team)
  }

  /** Points scored and conceded add up to all the points of the matches,
      whichever side the team played on. */
  lemma {:induction false} ForPlusAgainst(ms: seq<Match>, team: TeamId)
    ensures TotalFor(ms, team) + TotalAgainst(ms, team) == SumOf(ms, BothScores)
    decreases |ms|
  {
    if ms != [] {
      ForPlusAgainst(ms[..|ms| - 1], team);
    }
  }

  /** The result of a match for the team. */
  function OutcomeOf(m: Match, team: TeamId): (o: Outcome)
    ensures o == W <==> PointsFor(m, team) > PointsAgainst(m, team)
    ensures o == L <==> PointsFor(m, team) < PointsAgainst(m, team)
  {
    var mine := PointsFor(m, team);
    var theirs := PointsAgainst(m, team);
    if mine > theirs then W else if mine < theirs then L else D
  }

  /** The comparator of the date sort: later matches first. */
  predicate LaterFirst(a: Match, b: Match)
  {
    a.date >= b.date
  }

  lemma LaterFirstIsTotalPreorder(s: seq<Match>)
    ensures TotalPreorderOn(LaterFirst, s)
  {
  }

  /** The played matches, most recent first. */
  function NewestFirst(played: seq<Match>): (r: seq<Match>)
    ensures multiset(r) == multiset(played)
    ensures forall i, j :: 0 <= i < j < |r| ==> r[i].date >= r[j].date
  {
    LaterFirstIsTotalPreorder(played);
    var r := SortWith(played, LaterFirst);
    assert forall i, j :: 0 <= i < j < |r| ==> LaterFirst(r[i], r[j]);
    r
  }

  function MatchKeys(ms: seq<Match>): (ks: seq<MatchKey>)
    ensures |ks| == |ms|
    ensures forall i :: 0 <= i < |ms| ==> ks[i] == ms[i].key
  {
    seq(|ms|, i requires 0 <= i < |ms| => ms[i].key)
  }

  /** The results of some matches, in order. */
  function Form(ms: seq<Match>, team: TeamId): (f: seq<Outcome>)
    ensures |f| == |ms|
    ensures forall i :: 0 <= i < |ms| ==> f[i] == OutcomeOf(ms[i], team)
  {
    seq(|ms|, i requires 0 <= i < |ms| => OutcomeOf(ms[i], team))
  }

  function Min(a: int, b: int): int
  {
    if a <= b then a else b
  }

  /** The `forEach` over the played matches: points scored and conceded. */
  method SumScores(played: seq<Match>, team: TeamId) returns (totalPoints: int, totalAgainst: int)
    ensures totalPoints == TotalFor(played, team)
    ensures totalAgainst == TotalAgainst(played, team)
  {
    totalPoints, totalAgainst := 0, 0;
    var i := 0;
    while i < |played|
      invariant 0 <= i <= |played|
      invariant totalPoints == TotalFor(played[..i], team)
      invariant totalAgainst == TotalAgainst(played[..i], team)
    {
      assert played[..i + 1][..i] == played[..i];
      totalPoints := totalPoints + PointsFor(played[i], team);
      totalAgainst := totalAgainst + PointsAgainst(played[i], team);
      i := i + 1;
    }
    assert played[..i] == played;
  }

  /** The `forEach` over the box score rows: threes made, free throws made
      and attempted. */
  method SumShooting(stats: seq<StatRow>) returns (t3Made: int, t1Made: int, t1Att: int)
    ensures t3Made == SumOf(stats, T3Made)
    ensures t1Made == SumOf(stats, T1Made)
    ensures t1Att == SumOf(stats, T1Att)
  {
    t3Made, t1Made, t1Att := 0, 0, 0;
    var j := 0;
    while j < |stats|
      invariant 0 <= j <= |stats|
      invariant t3Made == SumOf(stats[..j], T3Made)
      invariant t1Made == SumOf(stats[..j], T1Made)
      invariant t1Att == SumOf(stats[..j], T1Att)
    {
      assert stats[..j + 1][..j] == stats[..j];
      t3Made := t3Made + T3Made(stats[j]);
      t1Made := t1Made + T1Made(stats[j]);
      t1Att := t1Att + T1Att(stats[j]);
      j := j + 1;
    }
    assert stats[..j] == stats;
  }

  /** No played match is left by the filter exactly when none was played. */
  lemma NonePlayed(matches: seq<Match>)
    ensures Filter(matches, Played) == [] <==> forall m :: m in matches ==> !Played(m)
  {
    var played := Filter(matches, Played);
    if played != [] {
      assert played[0] in played;
    }
  }

  /** `calculateTeamAggregates`: nothing without played matches; otherwise
      the points for and against per played match, the free-throw
      percentage and threes per match over all the rows given (the rows of
      both teams), the last five results, newest first, and the played
      matches' ids newest first. */
  method TeamAggregates(matches: seq<Match>, stats: seq<StatRow>, team: TeamId) returns (agg: Option<Aggregates>)
    ensures agg.None? <==> forall m :: m in matches ==> !Played(m)
    ensures agg.Some? ==>
              var played := Filter(matches, Played);
              var n := |played|;
              var a := agg.value;
              && a.totalMatches == n
              && a.totalPoints == TotalFor(played, team)
              && a.ppg == PerGame(TotalFor(played, team) as real, n)
              && a.papg == PerGame(TotalAgainst(played, team) as real, n)
              && a.ftPct == Percent(SumOf(stats, T1Made), SumOf(stats, T1Att))
              && a.t3PerGame == PerGame(SumOf(stats, T3Made) as real, n)
              && a.sortedMatchIds == MatchKeys(NewestFirst(played))
              && a.form == Form(NewestFirst(played)[..Min(5, n)], team)
  {
    var played := Filter(matches, Played);
    NonePlayed(matches);
    if |played| == 0 {
      return None;
    }
    var totalPoints, totalAgainst := SumScores(played, team);
    var t3Made, t1Made, t1Att := SumShooting(stats);
    var sorted := NewestFirst(played);
    var n := |played|;
    var form := Form(sorted[..Min(5, n)], team);
    agg := Some(Aggregates(PerGame(totalPoints as real, n), PerGame(totalAgainst as real, n),
                           Percent(t1Made, t1Att), PerGame(t3Made as real, n), form, n, totalPoints,
                           MatchKeys(sorted)));
  }

  /** The form holds at most five results, those of the most recent played
      matches: no match outside it is later than one inside it. */
  lemma FormIsMostRecent(played: seq<Match>, team: TeamId, i: int, j: int)
    requires 0 <= i < Min(5, |played|) <= j < |played|
    ensures Form(NewestFirst(played)[..Min(5, |played|)], team)[i] == OutcomeOf(NewestFirst(played)[i], team)
    ensures NewestFirst(played)[i].date >= NewestFirst(played)[j].date
  {
  }

  // ---------------------------------------------------------------------
  // Per-player lines
  // ---------------------------------------------------------------------

  /** The movement kinds that are fouls received on a shot. */
  const ShootingFoulKinds: set<int> := {160, 161, 162, 165, 166, 537, 540, 544, 549}

  predicate IsShootingFoul(m: Movement)
  {
    m.kind in ShootingFoulKinds
  }

  /** The movements of one player, in order. */
  function PlayerMoves(moves: seq<Movement>, pid: PlayerId): (ms: seq<Movement>)
    ensures forall m :: m in ms <==> m in moves && m.playerId == pid
  {
    if moves == [] then []
    else
      var ms := PlayerMoves(moves[..|moves| - 1], pid);
      if moves[|moves| - 1].playerId == pid then ms + [moves[|moves| - 1]] else ms
  }

  function MasMenosOf(s: StatRow): int
  {
    if s.masMenos.Some? then s.masMenos.value else 0
  }

  /** `sortedMatchesIds.indexOf(..)`: the first position of a key, or -1. */
  function IndexOf(ids: seq<MatchKey>, k: MatchKey): (i: int)
    ensures -1 <= i < |ids|
    ensures i == -1 <==> k !in ids
    ensures i >= 0 ==> ids[i] == k && forall j :: 0 <= j < i ==> ids[j] != k
  {
    if ids == [] then -1
    else if ids[0] == k then 0
    else
      var i := IndexOf(ids[1..], k);
      if i == -1 then -1 else i + 1
  }

  /** The position of a row's match in the team's newest-first list. */
  function Recency(ids: seq<MatchKey>, s: StatRow): int
  {
    IndexOf(ids, Real(s.matchId))
  }

  /** The comparator `idxA - idxB`: lower position first. */
  function RecentFirst(ids: seq<MatchKey>): (StatRow, StatRow) -> bool
  {
    (a: StatRow, b: StatRow) => Recency(ids, a) <= Recency(ids, b)
  }

  lemma RecentFirstIsTotalPreorder(ids: seq<MatchKey>, s: seq<StatRow>)
    ensures TotalPreorderOn(RecentFirst(ids), s)
  {
  }

  /** A player's rows sorted by the position of their match in the team's
      newest-first list. */
  function ByRecency(rows: seq<StatRow>, ids: seq<MatchKey>): (r: seq<StatRow>)
    ensures multiset(r) == multiset(rows)
    ensures forall i, j :: 0 <= i < j < |r| ==> Recency(ids, r[i]) <= Recency(ids, r[j])
  {
    RecentFirstIsTotalPreorder(ids, rows);
    var r := SortWith(rows, RecentFirst(ids));
    assert forall i, j :: 0 <= i < j < |r| ==> RecentFirst(ids)(r[i], r[j]);
    r
  }

  /** A row whose match is missing from the list (position -1) sorts ahead
      of every row whose match is in it. */
  lemma MissingMatchFirst(rows: seq<StatRow>, ids: seq<MatchKey>, i: int, j: int)
    requires 0 <= i < |rows| && 0 <= j < |rows|
    requires Real(ByRecency(rows, ids)[i].matchId) !in ids
    requires Real(ByRecency(rows, ids)[j].matchId) in ids
    ensures i < j
  {
  }

  /** A player's most recent rows: the first three in recency order. */
  function LastGames(rows: seq<StatRow>, ids: seq<MatchKey>): (last: seq<StatRow>)
    ensures |last| == Min(3, |rows|)
    ensures multiset(last) <= multiset(rows)
    ensures forall s, t :: s in last && t in rows && t !in multiset(last) ==> Recency(ids, s) <= Recency(ids, t)
  {
    var r := ByRecency(rows, ids);
    var k := Min(3, |rows|);
    assert r == r[..k] + r[k..];
    assert multiset(r) == multiset(r[..k]) + multiset(r[k..]);
    forall s, t | s in r[..k] && t in rows && t !in multiset(r[..k])
      ensures Recency(ids, s) <= Recency(ids, t)
    {
      assert t in multiset(r);
      assert t in r[k..];
      var a :| 0 <= a < k && r[a] == s;
      var b :| 0 <= b < |r[k..]| && r[k..][b] == t;
      assert r[k + b] == t;
    }
    r[..k]
  }

  /** The line of one roster player: sums over their rows in the team's
      matches, their shooting fouls received in the play-by-play, averages
      per game (0 without games), points per minute (0 without minutes),
      their share of the team's points, the points per game of their last
      (up to) three games, and their career and parallel records, the
      latter flagged as their main context when they played more games
      there. */
  function PlayerLine(pid: PlayerId, stats: seq<StatRow>, moves: seq<Movement>, agg: Aggregates,
                      history: map<PlayerId, CareerStats>, parallel: map<PlayerId, ParallelStats>): (p: PlayerReport)
    ensures var rows := PlayerRows(stats, pid);
            var gp := |rows|;
            && p.playerId == pid
            && p.gamesPlayed == gp
            && p.totalPoints == SumOf(rows, Points)
            && p.totalMinutes == RealSumOf(rows, MinutesOf)
            && p.totalFouls == SumOf(rows, AllFouls)
            && p.totalShootingFouls == CountOf(PlayerMoves(moves, pid), IsShootingFoul)
            && p.ftMade == SumOf(rows, T1Made) && p.ftAtt == SumOf(rows, T1Att)
            && p.t3Made == SumOf(rows, T3Made) && p.t3Att == SumOf(rows, T3Att)
            && p.totalMasMenos == SumOf(rows, MasMenosOf)
            && p.ppg == PerGame(p.totalPoints as real, gp)
            && p.mpg == PerGame(p.totalMinutes, gp)
            && p.fpg == PerGame(p.totalFouls as real, gp)
            && p.avgMasMenos == PerGame(p.totalMasMenos as real, gp)
            && p.ppm == (if gp > 0 then PerMinute(p.totalPoints as real, p.totalMinutes) else 0.0)
            && p.t1Pct == Percent(p.ftMade, p.ftAtt)
            && p.lastGamesPlayed == Min(3, gp)
            && p.last3PPG == PerGame(SumOf(LastGames(rows, agg.sortedMatchIds), Points) as real, p.lastGamesPlayed)
            && p.pointsShare == Percent(p.totalPoints, agg.totalPoints)
            && p.career == (if pid in history then Some(history[pid]) else None)
            && (pid in parallel <==> p.parallel.Some?)
            && (pid in parallel ==>
                  p.parallel.value == parallel[pid].(isPrimaryContext := parallel[pid].gamesPlayed > gp))
  {
    var rows := PlayerRows(stats, pid);
    var gp := |rows|;
    var totalPts := SumOf(rows, Points);
    var totalMins := RealSumOf(rows, MinutesOf);
    var totalFouls := SumOf(rows, AllFouls);
    var totalMasMenos := SumOf(rows, MasMenosOf);
    var t1Made := SumOf(rows, T1Made);
    var t1Att := SumOf(rows, T1Att);
    var last := LastGames(rows, agg.sortedMatchIds);
    var last3PPG := PerGame(SumOf(last, Points) as real, |last|);
    var share := Percent(totalPts, agg.totalPoints);
    var ppm := if gp > 0 then PerMinute(totalPts as real, totalMins) else 0.0;
    var ctx := if pid in parallel then Some(parallel[pid].(isPrimaryContext := parallel[pid].gamesPlayed > gp))
               else None;
    PlayerReport(pid, gp, totalPts, totalMins, totalFouls, CountOf(PlayerMoves(moves, pid), IsShootingFoul),
                 t1Att, t1Made, SumOf(rows, T3Att), SumOf(rows, T3Made), totalMasMenos,
                 PerGame(totalPts as real, gp), PerGame(totalMins, gp), PerGame(totalFouls as real, gp), ppm,
                 PerGame(totalMasMenos as real, gp), Percent(t1Made, t1Att), last3PPG, |last|, share,
                 if pid in history then Some(history[pid]) else None, ctx)
  }

  /** The roster part of the report: no lines when the team has no played
      match, otherwise one line per roster entry, in roster order. */
  function RosterLines(agg: Option<Aggregates>, roster: seq<RosterEntry>, stats: seq<StatRow>, moves: seq<Movement>,
                       history: map<PlayerId, CareerStats>, parallel: map<PlayerId, ParallelStats>)
    : (lines: seq<PlayerReport>)
    ensures agg.None? ==> lines == []
    ensures agg.Some? ==> |lines| == |roster|
    ensures agg.Some? ==> forall i :: 0 <= i < |roster| ==>
              lines[i] == PlayerLine(roster[i].playerId, stats, moves, agg.value, history, parallel)
  {
    if agg.None? then []
    else seq(|roster|, i requires 0 <= i < |roster| =>
               PlayerLine(roster[i].playerId, stats, moves, agg.value, history, parallel))
  }
}
