/** The records the dashboard reads from its database and the summaries it
    builds from them. Identifiers are whole numbers; a numeric column that
    may be empty and is only ever read as `value || 0` is a plain `int`
    holding 0 when empty; columns whose emptiness the program tells apart
    from 0 are `Option`s. */
module Model {
  import opened Common

  type TeamId = int
  type PlayerId = int
  type MatchId = int

  /** A match row as the views see it: a real match keeps its numeric id,
      a pending calendar fixture merged into the list is known by the id of
      its calendar entry (written `cal_<id>` in the program). */
  datatype MatchKey = Real(id: MatchId) | Pending(calendarId: int)

  /** A match (`Partido`). `round` is `jornada || 0`; `date` is the kick-off
      time in milliseconds, 0 when there is none; a score that is `None` has
      not been played. */
  datatype Match = Match(
    key: MatchKey,
    competitionId: int,
    round: int,
    home: TeamId,
    away: TeamId,
    date: int,
    homePoints: Option<int>,
    awayPoints: Option<int>,
    fromCalendar: Option<bool>)

  /** A fixture of the competition calendar (`CalendarioItem`). */
  datatype CalendarEntry = CalendarEntry(
    id: int,
    competitionId: int,
    round: int,
    home: TeamId,
    away: TeamId,
    date: int)

  /** A score read as `x || 0` or `x ?? 0`: 0 when it is not on record. */
  function ScoreOr0(p: Option<int>): int
  {
    if p.Some? then p.value else 0
  }

  /** A calendar fixture and a match between the same home and away teams. */
  predicate SameFixture(c: CalendarEntry, m: Match)
  {
    c.home == m.home && c.away == m.away
  }

  /** `tiempo_jugado`: missing, a number of minutes, or text such as "23:54". */
  datatype Tiempo = NoTime | Minutes(minutes: real) | Clock(text: string)

  /** One player's box score in one match (`EstadisticaJugadorPartido`). */
  datatype StatRow = StatRow(
    id: int,
    matchId: MatchId,
    playerId: PlayerId,
    points: int,
    t1Made: int,
    t1Att: int,
    t2Made: int,
    t2Att: int,
    t3Made: int,
    t3Att: int,
    fouls: int,
    technicals: int,
    unsportsmanlike: int,
    masMenos: Option<int>,
    tiempo: Tiempo)

  /** One play-by-play event (`PartidoMovimiento`): its kind code, the
      period, the game clock (minutes and seconds left in the period) and,
      for period-end snapshots, the running score text "local-visitor"
      (empty when absent). */
  datatype Movement = Movement(
    id: int,
    matchId: MatchId,
    playerId: PlayerId,
    kind: int,
    period: int,
    minute: int,
    second: int,
    marcador: string)

  /** A roster entry (`Plantilla`) and whether its player profile loaded. */
  datatype RosterEntry = RosterEntry(playerId: PlayerId, hasProfile: bool)

  /** A player's totals over every competition on record. */
  datatype CareerStats = CareerStats(
    gamesPlayed: int,
    totalPoints: int,
    ppg: real,
    avgT3Made: real,
    t1Pct: real,
    bestScoringGame: int,
    totalMinutes: real,
    mpg: real)

  /** A player's totals in the other competitions of the same season. */
  datatype ParallelStats = ParallelStats(
    gamesPlayed: int,
    ppg: real,
    competitionNames: seq<string>,
    isPrimaryContext: bool)

  /** A player's scouting line (`PlayerAggregatedStats`); the two-point
      totals of that type are never filled in by the report. */
  datatype PlayerReport = PlayerReport(
    playerId: PlayerId,
    gamesPlayed: int,
    totalPoints: int,
    totalMinutes: real,
    totalFouls: int,
    totalShootingFouls: int,
    ftAtt: int,
    ftMade: int,
    t3Att: int,
    t3Made: int,
    totalMasMenos: int,
    ppg: real,
    mpg: real,
    fpg: real,
    ppm: real,
    avgMasMenos: real,
    t1Pct: real,
    last3PPG: real,
    lastGamesPlayed: int,
    pointsShare: real,
    career: Option<CareerStats>,
    parallel: Option<ParallelStats>)

  /** The fouls of a row: personal, technical and unsportsmanlike. */
  function AllFouls(s: StatRow): int
  {
    s.fouls + s.technicals + s.unsportsmanlike
  }

  /** `stats.filter(s => String(s.jugador_id) === String(pid))`: the rows
      of one player, in order. */
  function PlayerRows(stats: seq<StatRow>, pid: PlayerId): (rows: seq<StatRow>)
    ensures |rows| <= |stats|
    ensures forall r :: r in rows <==> r in stats && r.playerId == pid
  {
    if stats == [] then []
    else
      var rows := PlayerRows(stats[..|stats| - 1], pid);
      if stats[|stats| - 1].playerId == pid then rows + [stats[|stats| - 1]] else rows
  }

  /** `x / y` for a count `y`, and 0 when there is nothing to divide by. */
  function PerGame(x: real, y: int): (r: real)
    ensures y > 0 ==> r * (y as real) == x
    ensures y <= 0 ==> r == 0.0
  {
    if y > 0 then x / y as real else 0.0
  }

  /** `x / minutes` for a positive number of minutes, and 0 otherwise. */
  function PerMinute(x: real, minutes: real): (r: real)
    ensures minutes > 0.0 ==> r * minutes == x
    ensures minutes <= 0.0 ==> r == 0.0
  {
    if minutes > 0.0 then x / minutes else 0.0
  }

  /** `made / att * 100`, and 0 when nothing was attempted. */
  function Percent(made: int, att: int): (r: real)
    ensures att > 0 ==> r * (att as real) == made as real * 100.0
    ensures att > 0 && 0 <= made <= att ==> 0.0 <= r <= 100.0
    ensures att <= 0 ==> r == 0.0
  {
    if att > 0 then made as real / att as real * 100.0 else 0.0
  }
}
