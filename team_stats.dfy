/** The team view's tables: one line per match of the team with the
    roster's shooting and foul totals in it (`teamMatches`), and one line
    per roster player with season totals and averages, best scorers first
    (`playerStats`). Minutes are read with the same `parseTiempoJugado` as
    the data service. */
module TeamStats {
  import opened Common
  import opened Model
  import opened Tiempo
  import opened Career

  // ---------------------------------------------------------------------
  // The game log
  // ---------------------------------------------------------------------

  /** A line of the game log. `t2` and `t3` are attempts. */
  datatype MatchLine = MatchLine(
    m: Match,
    isLocal: bool,
    teamScore: int,
    oppScore: int,
    t1Made: int,
    t1Att: int,
    t1Pct: real,
    t2: int,
    t3: int,
    fouls: int)

  /** A match the team plays, at home or away. */
  predicate IsTeamMatch(m: Match, team: TeamId)
  {
    m.home == team || m.away == team
  }

  /** The matches of the team, in order. */
  function TeamOnly(matches: seq<Match>, team: TeamId): (ms: seq<Match>)
    ensures forall m :: m in ms <==> m in matches && IsTeamMatch(m, team)
  {
    if matches == [] then []
    else
      var ms := TeamOnly(matches[..|matches| - 1], team);
      var m := matches[|matches| - 1];
      if IsTeamMatch(m, team) then ms + [m] else ms
  }

  /** The rows of roster players in a match, in order. A pending calendar
      fixture has no rows. */
  function RosterRowsIn(stats: seq<StatRow>, key: MatchKey, roster: set<PlayerId>): (rs: seq<StatRow>)
    ensures forall s :: s in rs <==> s in stats && Real(s.matchId) == key && s.playerId in roster
  {
    if stats == [] then []
    else
      var rs := RosterRowsIn(stats[..|stats| - 1], key, roster);
      var s := stats[|stats| - 1];
      if Real(s.matchId) == key && s.playerId in roster then rs + [s] else rs
  }

  function T2Att(s: StatRow): int { s.t2Att }
  function PersonalFouls(s: StatRow): int { s.fouls }

  /** The line of one match: the side of the team, both scores from its
      side, and the roster's free throws, two- and three-point attempts
      and fouls (personal, technical and unsportsmanlike). */
  function LineOf(m: Match, team: TeamId, roster: set<PlayerId>, stats: seq<StatRow>): (l: MatchLine)
    ensures l.m == m && (l.isLocal <==> m.home == team)
    ensures l.teamScore == (if m.home == team then ScoreOr0(m.homePoints) else ScoreOr0(m.awayPoints))
    ensures l.oppScore == (if m.home == team then ScoreOr0(m.awayPoints) else ScoreOr0(m.homePoints))
    ensures l.t1Made == SumOf(RosterRowsIn(stats, m.key, roster), T1Made)
    ensures l.t1Att == SumOf(RosterRowsIn(stats, m.key, roster), T1Att)
    ensures l.t1Pct == Percent(l.t1Made, l.t1Att)
    ensures l.t2 == SumOf(RosterRowsIn(stats, m.key, roster), T2Att)
    ensures l.t3 == SumOf(RosterRowsIn(stats, m.key, roster), T3Att)
    ensures l.fouls == SumOf(RosterRowsIn(stats, m.key, roster), AllFouls)
  {
    var isLocal := m.home == team;
    var rows := RosterRowsIn(stats, m.key, roster);
    var t1A := SumOf(rows, T1Made);
    var t1I := SumOf(rows, T1Att);
    MatchLine(m, isLocal,
              if isLocal then ScoreOr0(m.homePoints) else ScoreOr0(m.awayPoints),
              if isLocal then ScoreOr0(m.awayPoints) else ScoreOr0(m.homePoints),
              t1A, t1I, Percent(t1A, t1I), SumOf(rows, T2Att), SumOf(rows, T3Att), SumOf(rows, AllFouls))
  }

  /** `teamMatches`: the team's matches, in order, each with its line. */
  function TeamMatches(matches: seq<Match>, team: TeamId, roster: seq<RosterEntry>, stats: seq<StatRow>)
    : (lines: seq<MatchLine>)
    ensures |lines| == |TeamOnly(matches, team)|
    ensures forall i :: 0 <= i < |lines| ==> lines[i] == LineOf(TeamOnly(matches, team)[i], team, RosterSet(roster), stats)
    ensures forall i :: 0 <= i < |lines| ==> IsTeamMatch(lines[i].m, team)
  {
    var ms := TeamOnly(matches, team);
    seq(|ms|, i requires 0 <= i < |ms| => LineOf(ms[i], team, RosterSet(roster), stats))
  }

  /** The ids of the roster. */
  function RosterSet(roster: seq<RosterEntry>): set<PlayerId>
  {
    set e | e in roster :: e.playerId
  }

  /** A box score row of a player outside the roster, such as an opponent,
      changes no line of the game log. */
  lemma OpponentRowIgnored(matches: seq<Match>, team: TeamId, roster: seq<RosterEntry>, stats: seq<StatRow>, s: StatRow)
    requires s.playerId !in RosterSet(roster)
    ensures TeamMatches(matches, team, roster, stats + [s]) == TeamMatches(matches, team, roster, stats)
  {
    var ms := TeamOnly(matches, team);
    assert (stats + [s])[..|stats|] == stats;
    forall i | 0 <= i < |ms|
      ensures LineOf(ms[i], team, RosterSet(roster), stats + [s]) == LineOf(ms[i], team, RosterSet(roster), stats)
    {
      assert RosterRowsIn(stats + [s], ms[i].key, RosterSet(roster)) == RosterRowsIn(stats, ms[i].key, RosterSet(roster));
    }
  }

  /** Adding a roster row of a match adds its free throws, its two- and
      three-point attempts and its fouls to the line of that match. */
  lemma RosterRowCounted(m: Match, team: TeamId, roster: set<PlayerId>, stats: seq<StatRow>, s: StatRow)
    requires s.playerId in roster && Real(s.matchId) == m.key
    ensures LineOf(m, team, roster, stats + [s]).t1Made == LineOf(m, team, roster, stats).t1Made + s.t1Made
    ensures LineOf(m, team, roster, stats + [s]).t1Att == LineOf(m, team, roster, stats).t1Att + s.t1Att
    ensures LineOf(m, team, roster, stats + [s]).t2 == LineOf(m, team, roster, stats).t2 + s.t2Att
    ensures LineOf(m, team, roster, stats + [s]).t3 == LineOf(m, team, roster, stats).t3 + s.t3Att
    ensures LineOf(m, team, roster, stats + [s]).fouls == LineOf(m, team, roster, stats).fouls + AllFouls(s)
  {
    assert (stats + [s])[..|stats|] == stats;
    var rs := RosterRowsIn(stats, m.key, roster);
    assert RosterRowsIn(stats + [s], m.key, roster) == rs + [s];
    assert (rs + [s])[..|rs|] == rs;
  }

  /** A box score row of another match leaves the line of a match as it
      was. */
  lemma OtherMatchRowIgnored(m: Match, team: TeamId, roster: set<PlayerId>, stats: seq<StatRow>, s: StatRow)
    requires Real(s.matchId) != m.key
    ensures LineOf(m, team, roster, stats + [s]) == LineOf(m, team, roster, stats)
  {
    assert (stats + [s])[..|stats|] == stats;
    assert RosterRowsIn(stats + [s], m.key, roster) == RosterRowsIn(stats, m.key, roster);
  }

  // ---------------------------------------------------------------------
  // The player table
  // ---------------------------------------------------------------------

  /** A line of the player table. */
  datatype PlayerTotals = PlayerTotals(
    playerId: PlayerId,
    gamesPlayed: int,
    totalPoints: int,
    totalMinutes: real,
    totalFouls: int,
    t1Att: int,
    t1Made: int,
    t2Att: int,
    t2Made: int,
    t3Att: int,
    t3Made: int,
    ppg: real,
    mpg: real,
    fpg: real,
    ppm: real)

  function T2Made(s: StatRow): int { s.t2Made }

  /** The matches of some rows, each once, in order of first appearance
      (`new Set(pStats.map(s => s.partido_id))`). */
  function MatchesOf(rows: seq<StatRow>): (ids: seq<MatchId>)
    ensures |ids| <= |rows|
    ensures forall id :: id in ids <==> exists s :: s in rows && s.matchId == id
    ensures forall i, j :: 0 <= i < j < |ids| ==> ids[i] != ids[j]
  {
    if rows == [] then []
    else
      var ids := MatchesOf(rows[..|rows| - 1]);
      var s := rows[|rows| - 1];
      assert forall x :: x in rows[..|rows| - 1] ==> x in rows;
      if s.matchId !in ids then ids + [s.matchId] else ids
  }

  /** A player's line: games are the distinct matches of their rows;
      minutes per game over those games; points per minute are points over
      minutes per game; points and fouls (personal only) per game; the free
      throws and the two- and three-point shots, made and attempted, summed
      over the rows. */
  function PlayerTotalsOf(pid: PlayerId, stats: seq<StatRow>): (p: PlayerTotals)
    ensures var rows := PlayerRows(stats, pid);
            && p.playerId == pid
            && p.gamesPlayed == |MatchesOf(rows)|
            && p.totalPoints == SumOf(rows, Points)
            && p.totalMinutes == RealSumOf(rows, MinutesOf)
            && p.totalFouls == SumOf(rows, PersonalFouls)
            && p.t1Att == SumOf(rows, T1Att) && p.t1Made == SumOf(rows, T1Made)
            && p.t2Att == SumOf(rows, T2Att) && p.t2Made == SumOf(rows, T2Made)
            && p.t3Att == SumOf(rows, T3Att) && p.t3Made == SumOf(rows, T3Made)
            && p.ppg == PerGame(p.totalPoints as real, p.gamesPlayed)
            && p.mpg == PerGame(p.totalMinutes, p.gamesPlayed)
            && p.fpg == PerGame(p.totalFouls as real, p.gamesPlayed)
            && p.ppm == PerMinute(p.totalPoints as real, p.mpg)
  {
    var rows := PlayerRows(stats, pid);
    var gp := |MatchesOf(rows)|;
    var totalPts := SumOf(rows, Points);
    var totalMins := RealSumOf(rows, MinutesOf);
    var mpg := PerGame(totalMins, gp);
    var fouls := SumOf(rows, PersonalFouls);
    PlayerTotals(pid, gp, totalPts, totalMins, fouls,
                 SumOf(rows, T1Att), SumOf(rows, T1Made), SumOf(rows, T2Att), SumOf(rows, T2Made),
                 SumOf(rows, T3Att), SumOf(rows, T3Made),
                 PerGame(totalPts as real, gp), mpg, PerGame(fouls as real, gp), PerMinute(totalPts as real, mpg))
  }

  /** Games played never exceed the player's rows, and a player with rows
      has played. */
  lemma GamesWithinRows(pid: PlayerId, stats: seq<StatRow>)
    ensures 0 <= PlayerTotalsOf(pid, stats).gamesPlayed <= |PlayerRows(stats, pid)|
    ensures PlayerTotalsOf(pid, stats).gamesPlayed == 0 <==> PlayerRows(stats, pid) == []
  {
    var rows := PlayerRows(stats, pid);
    if rows != [] {
      assert rows[0] in rows;
    }
  }

  /** Two rows of one player in the same match count as one game here,
      where the scouting report counts two. */
  lemma DuplicateRowOneGame(s: StatRow)
    ensures PlayerTotalsOf(s.playerId, [s, s]).gamesPlayed == 1
    ensures |PlayerRows([s, s], s.playerId)| == 2
  {
    assert [s, s][..1] == [s];
    assert PlayerRows([s], s.playerId) == [s];
    assert PlayerRows([s, s], s.playerId) == [s, s];
    assert MatchesOf([s]) == [s.matchId];
    assert [s, s][..1] == [s];
  }

  /** The comparator `b.totalPuntos - a.totalPuntos`. */
  predicate MorePoints(a: PlayerTotals, b: PlayerTotals)
  {
    a.totalPoints >= b.totalPoints
  }

  lemma MorePointsIsTotalPreorder(s: seq<PlayerTotals>)
    ensures TotalPreorderOn(MorePoints, s)
  {
  }

  /** `playerStats`: a line per roster entry, best scorers first. */
  function PlayerTable(roster: seq<RosterEntry>, stats: seq<StatRow>): (table: seq<PlayerTotals>)
    ensures |table| == |roster|
    ensures multiset(table) == multiset(seq(|roster|, i requires 0 <= i < |roster| => PlayerTotalsOf(roster[i].playerId, stats)))
    ensures forall i, j :: 0 <= i < j < |table| ==> table[i].totalPoints >= table[j].totalPoints
  {
    var lines := seq(|roster|, i requires 0 <= i < |roster| => PlayerTotalsOf(roster[i].playerId, stats));
    MorePointsIsTotalPreorder(lines);
    var table := SortWith(lines, MorePoints);
    assert forall i, j :: 0 <= i < j < |table| ==> MorePoints(table[i], table[j]);
    table
  }
}
