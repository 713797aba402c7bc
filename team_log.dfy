/** `fetchTeamStats`: a team's matches in a competition with their rounds
    taken from the calendar, and the box score rows of those matches with
    plus/minus and minutes rebuilt from the play-by-play. The database
    queries are parameters: the team's matches (most recent first), the
    calendar of the competition, the team's roster, and the box score rows
    and movements of the team's matches. */
module TeamLog {
  import opened Common
  import opened Model
  import opened Tables
  import opened PlusMinus
  import opened Tiempo

  /** What the team view receives. */
  datatype TeamData = TeamData(matches: seq<Match>, stats: seq<StatRow>, movements: seq<Movement>)

  /** The minutes of a period: 6 in mini-basketball, 10 otherwise. */
  function PeriodMinutes(esMini: bool): int
  {
    if esMini then 6 else 10
  }

  /** `calendarEntries.find(..)`: the position of the first fixture of the
      calendar between the teams of `m`, if there is one. */
  function FindFixture(calendar: seq<CalendarEntry>, m: Match): (i: Option<nat>)
    ensures i.Some? ==> i.value < |calendar| && SameFixture(calendar[i.value], m)
    ensures i.Some? ==> forall j :: 0 <= j < i.value ==> !SameFixture(calendar[j], m)
    ensures i.None? ==> forall j :: 0 <= j < |calendar| ==> !SameFixture(calendar[j], m)
  {
    if calendar == [] then None
    else if SameFixture(calendar[0], m) then Some(0)
    else
      match FindFixture(calendar[1..], m)
      case None => None
      case Some(k) => Some(k + 1)
  }

  /** The round fix: a match takes the round of the first calendar fixture
      between the same home and away teams; without one it is unchanged. */
  function PatchRound(m: Match, calendar: seq<CalendarEntry>): (r: Match)
    ensures r == m.(round := r.round)
    ensures forall j :: 0 <= j < |calendar| && SameFixture(calendar[j], m) &&
                        (forall i :: 0 <= i < j ==> !SameFixture(calendar[i], m)) ==>
              r.round == calendar[j].round
    ensures (forall j :: 0 <= j < |calendar| ==> !SameFixture(calendar[j], m)) ==> r == m
  {
    match FindFixture(calendar, m)
    case Some(i) => m.(round := calendar[i].round)
    case None => m
  }

  /** `matchIsLocal` as the loop over the matches leaves it: each match
      records whether the team is its home team, a later match with the same
      id overwriting an earlier one. Calendar fixtures, which never reach
      this view, record nothing. */
  function LocalSides(matches: seq<Match>, team: TeamId): map<MatchId, bool>
  {
    if matches == [] then map[]
    else
      var m := matches[|matches| - 1];
      var sides := LocalSides(matches[..|matches| - 1], team);
      match m.key
      case Real(id) => sides[id := m.home == team]
      case Pending(_) => sides
  }

  /** A match id is recorded only when some match has it. */
  lemma {:induction false} LocalSidesMissing(matches: seq<Match>, team: TeamId, id: MatchId)
    requires forall j :: 0 <= j < |matches| ==> matches[j].key != Real(id)
    ensures id !in LocalSides(matches, team)
    decreases |matches|
  {
    if matches != [] {
      LocalSidesMissing(matches[..|matches| - 1], team, id);
    }
  }

  /** The record of a match id is the side of the team in the last match
      with that id. */
  lemma {:induction false} LocalSidesLast(matches: seq<Match>, team: TeamId, j: nat)
    requires j < |matches| && matches[j].key.Real?
    requires forall i :: j < i < |matches| ==> matches[i].key != matches[j].key
    ensures matches[j].key.id in LocalSides(matches, team)
    ensures LocalSides(matches, team)[matches[j].key.id] == (matches[j].home == team)
    decreases |matches|
  {
    var n := |matches| - 1;
    if j < n {
      var init := matches[..n];
      assert matches[n].key != matches[j].key;
      assert forall i :: j < i < n ==> init[i] == matches[i];
      LocalSidesLast(init, team, j);
    }
  }

  /** The loop that fills `matchIsLocal`. */
  method ComputeMatchIsLocal(matches: seq<Match>, team: TeamId) returns (isLocal: map<MatchId, bool>)
    ensures isLocal == LocalSides(matches, team)
  {
    isLocal := map[];
    var i := 0;
    while i < |matches|
      invariant 0 <= i <= |matches|
      invariant isLocal == LocalSides(matches[..i], team)
    {
      var m := matches[i];
      assert matches[..i + 1][..i] == matches[..i];
      match m.key {
        case Real(id) => isLocal := isLocal[id := m.home == team];
        case Pending(_) =>
      }
      i := i + 1;
    }
    assert matches[..|matches|] == matches;
  }

  /** `myTeamPlayerIds`: the players of the roster. */
  function RosterIds(roster: seq<RosterEntry>): (ids: set<PlayerId>)
    ensures forall pid :: pid in ids <==> exists e :: e in roster && e.playerId == pid
  {
    set e | e in roster :: e.playerId
  }

  /** `fetchTeamStats` after its queries: the rounds patched from the
      calendar, the box score rows and movements fetched only when the team
      has matches, the play-by-play replayed with 6- or 10-minute periods
      and each row rewritten with the replay's plus/minus and time. */
  method TeamGameLog(matches: seq<Match>, calendar: seq<CalendarEntry>, roster: seq<RosterEntry>,
                     statRows: seq<StatRow>, movementRows: seq<Movement>, esMini: bool, team: TeamId)
    returns (data: TeamData)
    ensures |data.matches| == |matches|
    ensures forall i :: 0 <= i < |matches| ==> data.matches[i] == PatchRound(matches[i], calendar)
    ensures data.movements == if matches == [] then [] else movementRows
    ensures |data.stats| == if matches == [] then 0 else |statRows|
    ensures var L := PeriodMinutes(esMini);
            var pm := PlusMinusTable(data.movements, RosterIds(roster), esMini, L, LocalSides(data.matches, team));
            var secs := SecondsTable(data.movements, RosterIds(roster), L);
            forall i :: 0 <= i < |data.stats| ==> data.stats[i] == WriteBack(statRows[i], pm, secs)
  {
    var patched := seq(|matches|, i requires 0 <= i < |matches| => PatchRound(matches[i], calendar));
    var stats: seq<StatRow> := [];
    var movements: seq<Movement> := [];
    if |patched| > 0 {
      stats := statRows;
      movements := movementRows;
    }
    var minsPerPeriod := PeriodMinutes(esMini);
    var myTeam := RosterIds(roster);
    var isLocal := ComputeMatchIsLocal(patched, team);
    var plusMinus, seconds := CalculatePlusMinus(movements, myTeam, esMini, minsPerPeriod, isLocal);
    var finalStats := seq(|stats|, i requires 0 <= i < |stats| => WriteBack(stats[i], plusMinus, seconds));
    data := TeamData(patched, finalStats, movements);
  }

  /** A row of a player outside the roster, such as an opponent, keeps its
      time, and its plus/minus is the stored one or 0. */
  lemma OpponentRowKept(movements: seq<Movement>, roster: set<PlayerId>, esMini: bool, minsPerPeriod: int,
                        matchIsLocal: map<MatchId, bool>, s: StatRow)
    requires s.playerId !in roster
    ensures var r := WriteBack(s, PlusMinusTable(movements, roster, esMini, minsPerPeriod, matchIsLocal),
                               SecondsTable(movements, roster, minsPerPeriod));
            r == s.(masMenos := Some(if s.masMenos.Some? then s.masMenos.value else 0))
  {
    TableKeys(movements, roster, esMini, minsPerPeriod, matchIsLocal, s.matchId, s.playerId);
  }

  /** A row of a roster player the replay credits with time gets the
      replay's plus/minus, and its time becomes the "M:SS" text of the
      seconds the replay counted, which reads back as those seconds. */
  lemma CreditedRowRewritten(movements: seq<Movement>, roster: set<PlayerId>, esMini: bool, minsPerPeriod: int,
                             matchIsLocal: map<MatchId, bool>, s: StatRow)
    requires Credited(movements, roster, minsPerPeriod, s.matchId, s.playerId)
    ensures var secs := SecondsOf(MatchMovements(movements, s.matchId), s.playerId, minsPerPeriod);
            var r := WriteBack(s, PlusMinusTable(movements, roster, esMini, minsPerPeriod, matchIsLocal),
                               SecondsTable(movements, roster, minsPerPeriod));
            && r.masMenos == Some(PlusMinusOver(secs, MatchDeltas(movements, s.matchId, esMini, matchIsLocal)))
            && (PlayedSeconds(secs) > 0 ==> ParseTiempoJugado(r.tiempo) == PlayedSeconds(secs) as real / 60.0)
            && (PlayedSeconds(secs) > 0 ==> r.tiempo == Clock(FormatSeconds(PlayedSeconds(secs))))
            && (PlayedSeconds(secs) <= 0 ==> r.tiempo == s.tiempo)
  {
    TableKeys(movements, roster, esMini, minsPerPeriod, matchIsLocal, s.matchId, s.playerId);
    CreditedAppears(movements, roster, minsPerPeriod, s.matchId, s.playerId);
  }
}
