/** The calendar view: the competition's matches grouped by round, the
    rounds shown (all of them, or only those with a match still to play),
    the teams resting in each round, and the rules that label a player of
    the scouting report (colour of a percentage, archetype, defensive
    advice and the highlighted fact of the player card). */
module CalendarView {
  import opened Common
  import opened Model
  import opened Scouting

  // ---------------------------------------------------------------------
  // Rounds
  // ---------------------------------------------------------------------

  /** The matches of round `j`, in list order. */
  function RoundMatches(ms: seq<Match>, j: int): (rs: seq<Match>)
    ensures forall m :: m in rs <==> m in ms && m.round == j
  {
    if ms == [] then []
    else
      var rs := RoundMatches(ms[..|ms| - 1], j);
      var m := ms[|ms| - 1];
      if m.round == j then rs + [m] else rs
  }

  /** `matchesByJornada`: `acc` holds, for every round that is set (0
      stands for none), its matches in list order. */
  ghost predicate Grouped(acc: map<int, seq<Match>>, ms: seq<Match>)
  {
    && (forall j :: j in acc <==> j != 0 && RoundMatches(ms, j) != [])
    && (forall j :: j in acc ==> acc[j] == RoundMatches(ms, j))
  }

  /** One more match keeps `Grouped`. */
  lemma GroupedStep(acc: map<int, seq<Match>>, ms: seq<Match>, i: nat)
    requires i < |ms| && Grouped(acc, ms[..i])
    ensures var m := ms[i];
            var j := m.round;
            j != 0 ==> Grouped(acc[j := (if j in acc then acc[j] else []) + [m]], ms[..i + 1])
    ensures ms[i].round == 0 ==> Grouped(acc, ms[..i + 1])
  {
    var m := ms[i];
    assert ms[..i + 1][..i] == ms[..i];
  }

  /** The `reduce` that groups the matches by round, dropping those without
      one: every round that is set and has a match gets its matches, in
      list order. */
  method GroupByRound(ms: seq<Match>) returns (acc: map<int, seq<Match>>)
    ensures forall j :: j in acc <==> j != 0 && exists m :: m in ms && m.round == j
    ensures forall j :: j in acc ==> acc[j] == RoundMatches(ms, j)
  {
    acc := map[];
    var i := 0;
    while i < |ms|
      invariant 0 <= i <= |ms|
      invariant Grouped(acc, ms[..i])
    {
      GroupedStep(acc, ms, i);
      var m := ms[i];
      var j := m.round;
      if j != 0 {
        acc := acc[j := (if j in acc then acc[j] else []) + [m]];
      }
      i := i + 1;
    }
    assert ms[..i] == ms;
    forall j ensures RoundMatches(ms, j) != [] <==> exists m :: m in ms && m.round == j {
      var rs := RoundMatches(ms, j);
      assert |rs| == 0 || rs[0] in rs;
    }
  }

  /** The rounds of some matches, 0 left out. */
  function RoundsOf(ms: seq<Match>): (rs: seq<int>)
    ensures forall j :: j in rs <==> j != 0 && exists m :: m in ms && m.round == j
  {
    if ms == [] then []
    else
      var rs := RoundsOf(ms[..|ms| - 1]);
      var m := ms[|ms| - 1];
      assert forall x :: x in ms[..|ms| - 1] ==> x in ms;
      if m.round != 0 then rs + [m.round] else rs
  }

  /** `jornadas`: the rounds, ascending, each once. */
  function Rounds(ms: seq<Match>): (rs: seq<int>)
    ensures StrictlyIncreasing(rs)
    ensures forall j :: j in rs <==> j != 0 && exists m :: m in ms && m.round == j
  {
    SortedDistinct(RoundsOf(ms))
  }

  /** A round is finished when every one of its matches has a home score. */
  predicate Finished(round: seq<Match>)
  {
    forall m :: m in round ==> m.homePoints.Some?
  }

  /** `displayedJornadas`: every round when finished rounds are shown,
      otherwise the rounds with a match still to play, in order. */
  function DisplayedRounds(ms: seq<Match>, showFinished: bool): (shown: seq<int>)
    ensures StrictlyIncreasing(shown)
    ensures forall j :: j in shown <==>
              j in Rounds(ms) && (showFinished || exists m :: m in ms && m.round == j && m.homePoints.None?)
  {
    KeepRounds(Rounds(ms), ms, showFinished)
  }

  /** The filter over the rounds. */
  function KeepRounds(rs: seq<int>, ms: seq<Match>, showFinished: bool): (shown: seq<int>)
    requires StrictlyIncreasing(rs)
    ensures StrictlyIncreasing(shown)
    ensures forall j :: j in shown <==> j in rs && (showFinished || !Finished(RoundMatches(ms, j)))
    ensures forall j :: j in shown <==>
              j in rs && (showFinished || exists m :: m in ms && m.round == j && m.homePoints.None?)
  {
    if rs == [] then []
    else
      var j := rs[|rs| - 1];
      var init := rs[..|rs| - 1];
      assert StrictlyIncreasing(init);
      var shown := KeepRounds(init, ms, showFinished);
      assert forall x :: x in init ==> x < j;
      assert rs == init + [j];
      if showFinished || !Finished(RoundMatches(ms, j)) then
        forall i | 0 <= i < |shown|
          ensures shown[i] < j
        {
          assert shown[i] in shown;
        }
        shown + [j]
      else shown
  }

  /** The loop that fills `playingTeamIds` for a round. */
  method PlayingTeams(round: seq<Match>) returns (playing: set<TeamId>)
    ensures forall t :: t in playing <==> exists m :: m in round && (m.home == t || m.away == t)
  {
    playing := {};
    var i := 0;
    while i < |round|
      invariant 0 <= i <= |round|
      invariant forall t :: t in playing <==> exists m :: m in round[..i] && (m.home == t || m.away == t)
    {
      var m := round[i];
      assert round[..i + 1] == round[..i] + [m];
      playing := playing + {m.home, m.away};
      i := i + 1;
    }
    assert round[..i] == round;
  }

  /** The teams of a list outside a set, in order. */
  function Outside(teams: seq<TeamId>, playing: set<TeamId>): (rest: seq<TeamId>)
    ensures forall t :: t in rest <==> t in teams && t !in playing
  {
    if teams == [] then []
    else
      var rest := Outside(teams[..|teams| - 1], playing);
      var t := teams[|teams| - 1];
      if t !in playing then rest + [t] else rest
  }

  /** `restingTeams`: the teams that play no match of the round. */
  method RestingTeams(teams: seq<TeamId>, round: seq<Match>) returns (resting: seq<TeamId>)
    ensures forall t :: t in resting <==> t in teams && forall m :: m in round ==> m.home != t && m.away != t
  {
    var playing := PlayingTeams(round);
    resting := Outside(teams, playing);
  }

  // ---------------------------------------------------------------------
  // Labels of the scouting report
  // ---------------------------------------------------------------------

  datatype Color = Red | Amber | Green

  /** `getPctColor`: red below 40, amber below 65, green otherwise. */
  function PctColor(pct: real): (c: Color)
    ensures c == Red <==> pct < 40.0
    ensures c == Green <==> pct >= 65.0
  {
    if pct < 40.0 then Red else if pct < 65.0 then Amber else Green
  }

  function ColorRank(c: Color): int
  {
    match c
    case Red => 0
    case Amber => 1
    case Green => 2
  }

  /** A higher percentage never gets a worse colour. */
  lemma PctColorMonotone(a: real, b: real)
    requires a <= b
    ensures ColorRank(PctColor(a)) <= ColorRank(PctColor(b))
  {
  }

  datatype Archetype = Sniper | Penetrator | OffensiveStar | DefensiveSpecialist | Veteran | RotationPlayer

  /** Three-point attempts per game. */
  function ThreeVolume(p: PlayerReport): real
  {
    PerGame(p.t3Att as real, p.gamesPlayed)
  }

  /** Free-throw attempts per game. */
  function FreeThrowVolume(p: PlayerReport): real
  {
    PerGame(p.ftAtt as real, p.gamesPlayed)
  }

  /** Three-point percentage, over one attempt when there is none. */
  function ThreePct(p: PlayerReport): real
  {
    p.t3Made as real / (if p.t3Att != 0 then p.t3Att else 1) as real * 100.0
  }

  /** The archetype tests, in the order they are tried. */
  function ArchetypeTests(p: PlayerReport): seq<bool>
  {
    [ ThreeVolume(p) > 4.0 && ThreePct(p) > 30.0,
      FreeThrowVolume(p) > 4.0,
      p.ppg > 15.0,
      p.career.Some? && p.career.value.mpg > 25.0 && p.ppg < 6.0,
      p.career.Some? && p.career.value.gamesPlayed > 50 ]
  }

  const ArchetypeOrder: seq<Archetype> := [Sniper, Penetrator, OffensiveStar, DefensiveSpecialist, Veteran]

  /** The result of the first test that holds, or the default. */
  function FirstMatch<T>(tests: seq<bool>, results: seq<T>, default: T): (r: T)
    requires |tests| == |results|
    ensures forall i :: 0 <= i < |tests| && tests[i] && (forall k :: 0 <= k < i ==> !tests[k]) ==> r == results[i]
    ensures (forall k :: 0 <= k < |tests| ==> !tests[k]) ==> r == default
  {
    if tests == [] then default
    else if tests[0] then results[0]
    else
      var r := FirstMatch(tests[1..], results[1..], default);
      assert forall k :: 1 <= k < |tests| ==> tests[k] == tests[1..][k - 1];
      r
  }

  /** `getArchetype`. */
  function ArchetypeOf(p: PlayerReport): (a: Archetype)
  {
    var t3Vol := ThreeVolume(p);
    var ftVol := FreeThrowVolume(p);
    var t3Pct := ThreePct(p);
    if t3Vol > 4.0 && t3Pct > 30.0 then Sniper
    else if ftVol > 4.0 then Penetrator
    else if p.ppg > 15.0 then OffensiveStar
    else if p.career.Some? && p.career.value.mpg > 25.0 && p.ppg < 6.0 then DefensiveSpecialist
    else if p.career.Some? && p.career.value.gamesPlayed > 50 then Veteran
    else RotationPlayer
  }

  /** `getArchetype` is the first rule of its table that holds: sniper,
      penetrator, offensive star, defensive specialist, veteran, with
      rotation player as the default. */
  lemma ArchetypeIsFirstRule(p: PlayerReport)
    ensures ArchetypeOf(p) == FirstMatch(ArchetypeTests(p), ArchetypeOrder, RotationPlayer)
  {
    var tests := ArchetypeTests(p);
    var r := FirstMatch(tests, ArchetypeOrder, RotationPlayer);
    if tests[0] {
      assert r == ArchetypeOrder[0];
    } else if tests[1] {
      assert r == ArchetypeOrder[1];
    } else if tests[2] {
      assert r == ArchetypeOrder[2];
    } else if tests[3] {
      assert r == ArchetypeOrder[3];
    } else if tests[4] {
      assert r == ArchetypeOrder[4];
    } else {
      assert forall k :: 0 <= k < |tests| ==> !tests[k];
    }
  }

  const FoulHim := "Hacer falta: Sufre en TL."
  const DontFoul := "No regalar faltas: Seguro en TL."
  const DenyBall := "Caliente: Negar recepción."
  const CloseOut := "Puntear siempre: Tira de lejos."
  const WallOff := "Cerrar penetración: Peligro interior."
  const Sag := "Flotar: Priorizar ayudas."
  const Standard := "Defensa estándar."

  /** The advice the three rules push, most critical first: fouls, form,
      shot profile (the last always pushes one). */
  function AdviceList(p: PlayerReport): seq<string>
  {
    var t1Pct := p.t1Pct;
    var recentForm := p.last3PPG;
    var foul := if t1Pct < 55.0 && p.ftAtt > 5 then [FoulHim] else if t1Pct > 80.0 then [DontFoul] else [];
    var form := if recentForm > p.ppg + 4.0 then [DenyBall] else [];
    var t3AttPerGame := PerGame(p.t3Att as real, p.gamesPlayed);
    var shot := if t3AttPerGame > 4.0 then CloseOut
                else if t3AttPerGame < 2.0 then (if p.ppg > 8.0 then WallOff else Sag)
                else Standard;
    foul + form + [shot]
  }

  /** `getTacticalAdvice`: the first advice pushed. It is never empty; the
      free-throw rule wins over the others, and the form rule over the shot
      profile. */
  function TacticalAdvice(p: PlayerReport): (advice: string)
    ensures |advice| > 0
    ensures p.t1Pct < 55.0 && p.ftAtt > 5 ==> advice == FoulHim
    ensures !(p.t1Pct < 55.0 && p.ftAtt > 5) && p.t1Pct > 80.0 ==> advice == DontFoul
    ensures !(p.t1Pct < 55.0 && p.ftAtt > 5) && p.t1Pct <= 80.0 && p.last3PPG > p.ppg + 4.0 ==> advice == DenyBall
    ensures !(p.t1Pct < 55.0 && p.ftAtt > 5) && p.t1Pct <= 80.0 && p.last3PPG <= p.ppg + 4.0 ==>
              && (PerGame(p.t3Att as real, p.gamesPlayed) > 4.0 ==> advice == CloseOut)
              && (PerGame(p.t3Att as real, p.gamesPlayed) < 2.0 && p.ppg > 8.0 ==> advice == WallOff)
              && (PerGame(p.t3Att as real, p.gamesPlayed) < 2.0 && p.ppg <= 8.0 ==> advice == Sag)
              && (2.0 <= PerGame(p.t3Att as real, p.gamesPlayed) <= 4.0 ==> advice == Standard)
    ensures advice in AdviceList(p)
  {
    var list := AdviceList(p);
    list[0]
  }

  /** The highlighted fact of a player card. */
  datatype ContextKind = LinkedPlayer | PlusMinusStrength | ThreeStrength | FormHot | FreeThrowWeakness | SeasonTotal

  /** `getDynamicContext`: a parallel record that is the player's main
      context first, then a plus/minus of at least 6 per game over two or
      more games, then three-point volume, then a hot streak, then poor free
      throwing, and the season total otherwise. */
  function DynamicContext(p: PlayerReport): (k: ContextKind)
    ensures p.parallel.Some? && p.parallel.value.isPrimaryContext ==> k == LinkedPlayer
    ensures k == LinkedPlayer ==> p.parallel.Some? && p.parallel.value.isPrimaryContext
    ensures k == PlusMinusStrength ==> p.avgMasMenos >= 6.0 && p.gamesPlayed >= 2
    ensures k == SeasonTotal ==> !(p.ftAtt > 8 && p.t1Pct < 60.0)
  {
    if p.parallel.Some? && p.parallel.value.isPrimaryContext then LinkedPlayer
    else if p.avgMasMenos != 0.0 && p.avgMasMenos >= 6.0 && p.gamesPlayed >= 2 then PlusMinusStrength
    else
      var t3PerGame := PerGame(p.t3Made as real, p.gamesPlayed);
      if t3PerGame >= 1.0 || p.t3Made >= 5 then ThreeStrength
      else if p.last3PPG - p.ppg > 2.0 then FormHot
      else if p.ftAtt > 8 && p.t1Pct < 60.0 then FreeThrowWeakness
      else SeasonTotal
  }

  /** The context-card tests, in the order they are tried. */
  function ContextTests(p: PlayerReport): seq<bool>
  {
    [ p.parallel.Some? && p.parallel.value.isPrimaryContext,
      p.avgMasMenos != 0.0 && p.avgMasMenos >= 6.0 && p.gamesPlayed >= 2,
      PerGame(p.t3Made as real, p.gamesPlayed) >= 1.0 || p.t3Made >= 5,
      p.last3PPG - p.ppg > 2.0,
      p.ftAtt > 8 && p.t1Pct < 60.0 ]
  }

  const ContextOrder: seq<ContextKind> := [LinkedPlayer, PlusMinusStrength, ThreeStrength, FormHot, FreeThrowWeakness]

  /** The context card is the first rule that holds, in the order linked
      player, plus/minus, three-point shooting, hot form, free-throw
      weakness; the season total when none holds. */
  lemma ContextIsFirstRule(p: PlayerReport)
    ensures DynamicContext(p) == FirstMatch(ContextTests(p), ContextOrder, SeasonTotal)
  {
    var tests := ContextTests(p);
    var r := FirstMatch(tests, ContextOrder, SeasonTotal);
    if tests[0] {
      assert r == ContextOrder[0];
    } else if tests[1] {
      assert r == ContextOrder[1];
    } else if tests[2] {
      assert r == ContextOrder[2];
    } else if tests[3] {
      assert r == ContextOrder[3];
    } else if tests[4] {
      assert r == ContextOrder[4];
    } else {
      assert forall k :: 0 <= k < |tests| ==> !tests[k];
    }
  }

  /** A roster player who played more games in another competition of the
      season than here is shown as a linked player. */
  lemma MoreGamesElsewhereIsLinked(pid: PlayerId, stats: seq<StatRow>, moves: seq<Movement>, agg: Aggregates,
                                   history: map<PlayerId, CareerStats>, parallel: map<PlayerId, ParallelStats>)
    requires pid in parallel && parallel[pid].gamesPlayed > |PlayerRows(stats, pid)|
    ensures DynamicContext(PlayerLine(pid, stats, moves, agg, history, parallel)) == LinkedPlayer
  {
  }
}
