/** The league table of a competition (the `standings` memo of the
    standings view): a row per team with games played, won and lost,
    points for and against, their difference and classification points
    (2 for a win, 1 for a loss or a draw), sorted by points and then by the
    tie-break of the competition. */
module Standings {
  import opened Common
  import opened Model

  /** A row of the table (`TeamStanding`). The display name and logo are
      not modelled. */
  datatype Standing = Standing(teamId: TeamId, pj: int, pg: int, pp: int, pf: int, pc: int, diff: int, points: int)

  function Pj(s: Standing): int { s.pj }
  function Pf(s: Standing): int { s.pf }
  function Pc(s: Standing): int { s.pc }
  function Diff(s: Standing): int { s.diff }

  /** An empty row. */
  function Blank(t: TeamId): Standing
  {
    Standing(t, 0, 0, 0, 0, 0, 0, 0)
  }

  /** The teams of the table: the ids of the team list that are set (0
      stands for a missing id), each once, in order of first appearance, as
      the keys of a `Map` filled in list order. */
  function TableIds(teams: seq<TeamId>): (ids: seq<TeamId>)
    ensures forall t :: t in ids <==> t in teams && t != 0
    ensures forall i, j :: 0 <= i < j < |ids| ==> ids[i] != ids[j]
  {
    if teams == [] then []
    else
      var ids := TableIds(teams[..|teams| - 1]);
      var t := teams[|teams| - 1];
      assert forall x :: x in teams[..|teams| - 1] ==> x in teams;
      if t != 0 && t !in ids then ids + [t] else ids
  }

  /** A match enters the table when both scores are on record and both
      teams are in it. */
  predicate Counted(m: Match, ids: seq<TeamId>)
  {
    m.homePoints.Some? && m.awayPoints.Some? && m.home in ids && m.away in ids
  }

  /** One side of a counted match: a game played, the scores added, and a
      win worth 2 points or a loss or a draw worth 1. */
  function Side(r: Standing, mine: int, theirs: int): Standing
  {
    r.(pj := r.pj + 1, pf := r.pf + mine, pc := r.pc + theirs,
       pg := if mine > theirs then r.pg + 1 else r.pg,
       pp := if theirs > mine then r.pp + 1 else r.pp,
       points := if mine > theirs then r.points + 2 else r.points + 1)
  }

  /** A counted match applied to the row of a team: its home side when it
      is the home team, then its away side when it is the away team. */
  function Apply(r: Standing, m: Match): Standing
    requires m.homePoints.Some? && m.awayPoints.Some?
  {
    var h := m.homePoints.value;
    var a := m.awayPoints.value;
    var r1 := if r.teamId == m.home then Side(r, h, a) else r;
    if r.teamId == m.away then Side(r1, a, h) else r1
  }

  /** The row of team `t` after the matches, before the difference is
      filled in. */
  function RecordOf(ms: seq<Match>, ids: seq<TeamId>, t: TeamId): Standing
  {
    if ms == [] then Blank(t)
    else
      var r := RecordOf(ms[..|ms| - 1], ids, t);
      var m := ms[|ms| - 1];
      if Counted(m, ids) then Apply(r, m) else r
  }

  /** The row with its difference filled in. */
  function Finish(r: Standing): Standing
  {
    r.(diff := r.pf - r.pc)
  }

  /** The rows of some teams, in order. */
  function Records(ms: seq<Match>, ids: seq<TeamId>, keys: seq<TeamId>): (rs: seq<Standing>)
    ensures |rs| == |keys|
    ensures forall i :: 0 <= i < |keys| ==> rs[i] == Finish(RecordOf(ms, ids, keys[i]))
  {
    if keys == [] then []
    else Records(ms, ids, keys[..|keys| - 1]) + [Finish(RecordOf(ms, ids, keys[|keys| - 1]))]
  }

  /** `initialList`: the rows of every team of the table, in table
      order. */
  function InitialList(teams: seq<TeamId>, ms: seq<Match>): seq<Standing>
  {
    var ids := TableIds(teams);
    Records(ms, ids, ids)
  }

  /** The number of counted matches. */
  function CountedCount(ms: seq<Match>, ids: seq<TeamId>): int
  {
    if ms == [] then 0
    else CountedCount(ms[..|ms| - 1], ids) + (if Counted(ms[|ms| - 1], ids) then 1 else 0)
  }

  // ---------------------------------------------------------------------
  // Building the table
  // ---------------------------------------------------------------------

  /** The first `forEach`: one empty row per team, keyed by id. */
  method InitRows(teams: seq<TeamId>) returns (rows: map<TeamId, Standing>, order: seq<TeamId>)
    ensures order == TableIds(teams)
    ensures forall t :: t in rows <==> t in order
    ensures forall t :: t in rows ==> rows[t] == Blank(t)
  {
    rows, order := map[], [];
    var i := 0;
    while i < |teams|
      invariant 0 <= i <= |teams|
      invariant order == TableIds(teams[..i])
      invariant forall t :: t in rows <==> t in order
      invariant forall t :: t in rows ==> rows[t] == Blank(t)
    {
      assert teams[..i + 1][..i] == teams[..i];
      var t := teams[i];
      if t != 0 {
        if t !in rows {
          order := order + [t];
        }
        rows := rows[t := Blank(t)];
      }
      i := i + 1;
    }
    assert teams[..i] == teams;
  }

  /** `rows` holds, for every team of the table, its row after `ms`. */
  ghost predicate Accumulated(rows: map<TeamId, Standing>, ids: seq<TeamId>, ms: seq<Match>)
  {
    && (forall t :: t in rows <==> t in ids)
    && (forall t :: t in rows ==> rows[t] == RecordOf(ms, ids, t))
  }

  /** One more match keeps `Accumulated`. */
  lemma AccumulatedStep(rows: map<TeamId, Standing>, ids: seq<TeamId>, ms: seq<Match>, i: nat)
    requires i < |ms| && Accumulated(rows, ids, ms[..i])
    ensures var m := ms[i];
            Counted(m, ids) ==>
              var h := m.homePoints.value;
              var a := m.awayPoints.value;
              var rows1 := rows[m.home := Side(rows[m.home], h, a)];
              Accumulated(rows1[m.away := Side(rows1[m.away], a, h)], ids, ms[..i + 1])
    ensures !Counted(ms[i], ids) ==> Accumulated(rows, ids, ms[..i + 1])
  {
    var m := ms[i];
    assert ms[..i + 1][..i] == ms[..i];
    if Counted(m, ids) {
      var h := m.homePoints.value;
      var a := m.awayPoints.value;
      var rows1 := rows[m.home := Side(rows[m.home], h, a)];
      var rows2 := rows1[m.away := Side(rows1[m.away], a, h)];
      forall t | t in rows2 ensures rows2[t] == RecordOf(ms[..i + 1], ids, t) {
        PointsArePlayedPlusWon(ms[..i], ids, t);
      }
    }
  }

  /** The second `forEach`: every counted match updates the rows of its
      two teams. */
  method AccumulateMatches(rows0: map<TeamId, Standing>, ids: seq<TeamId>, ms: seq<Match>)
    returns (rows: map<TeamId, Standing>)
    requires forall t :: t in rows0 <==> t in ids
    requires forall t :: t in rows0 ==> rows0[t] == Blank(t)
    ensures Accumulated(rows, ids, ms)
  {
    rows := rows0;
    var i := 0;
    while i < |ms|
      invariant 0 <= i <= |ms|
      invariant Accumulated(rows, ids, ms[..i])
    {
      AccumulatedStep(rows, ids, ms, i);
      var m := ms[i];
      if Counted(m, ids) {
        var h := m.homePoints.value;
        var a := m.awayPoints.value;
        rows := rows[m.home := Side(rows[m.home], h, a)];
        rows := rows[m.away := Side(rows[m.away], a, h)];
      }
      i := i + 1;
    }
    assert ms[..i] == ms;
  }

  /** The table before sorting: every team's row with its difference, in
      table order. */
  method BuildTable(teams: seq<TeamId>, ms: seq<Match>) returns (list: seq<Standing>)
    ensures list == InitialList(teams, ms)
  {
    var rows0, order := InitRows(teams);
    var rows := AccumulateMatches(rows0, order, ms);
    list := [];
    var j := 0;
    while j < |order|
      invariant 0 <= j <= |order|
      invariant list == Records(ms, order, order[..j])
    {
      var t := order[j];
      assert t in order;
      assert order[..j + 1][..j] == order[..j];
      list := list + [Finish(rows[t])];
      j := j + 1;
    }
    assert order[..j] == order;
  }

  // ---------------------------------------------------------------------
  // What the table promises
  // ---------------------------------------------------------------------

  /** Classification points are games played plus games won: every game is
      worth at least 1 and a win 1 more. */
  lemma {:induction false} PointsArePlayedPlusWon(ms: seq<Match>, ids: seq<TeamId>, t: TeamId)
    ensures RecordOf(ms, ids, t).points == RecordOf(ms, ids, t).pj + RecordOf(ms, ids, t).pg
    ensures RecordOf(ms, ids, t).teamId == t
    decreases |ms|
  {
    if ms != [] {
      PointsArePlayedPlusWon(ms[..|ms| - 1], ids, t);
    }
  }

  /** A counted match between two different teams: the winner gains a
      game won and 2 points, the loser a game lost and 1 point; on a draw
      both gain 1 point and neither a win nor a loss. A match that is not
      counted changes no row. */
  lemma MatchResult(ms: seq<Match>, ids: seq<TeamId>, m: Match)
    requires m.home != m.away
    ensures var before := RecordOf(ms, ids, m.home);
            var after := RecordOf(ms + [m], ids, m.home);
            Counted(m, ids) ==>
              && after.pj == before.pj + 1
              && (m.homePoints.value > m.awayPoints.value ==> after.pg == before.pg + 1 && after.pp == before.pp && after.points == before.points + 2)
              && (m.homePoints.value < m.awayPoints.value ==> after.pg == before.pg && after.pp == before.pp + 1 && after.points == before.points + 1)
              && (m.homePoints.value == m.awayPoints.value ==> after.pg == before.pg && after.pp == before.pp && after.points == before.points + 1)
    ensures var before := RecordOf(ms, ids, m.away);
            var after := RecordOf(ms + [m], ids, m.away);
            Counted(m, ids) ==>
              && after.pj == before.pj + 1
              && (m.awayPoints.value > m.homePoints.value ==> after.pg == before.pg + 1 && after.pp == before.pp && after.points == before.points + 2)
              && (m.awayPoints.value < m.homePoints.value ==> after.pg == before.pg && after.pp == before.pp + 1 && after.points == before.points + 1)
              && (m.awayPoints.value == m.homePoints.value ==> after.pg == before.pg && after.pp == before.pp && after.points == before.points + 1)
    ensures !Counted(m, ids) ==> forall t :: RecordOf(ms + [m], ids, t) == RecordOf(ms, ids, t)
  {
    assert (ms + [m])[..|ms|] == ms;
    PointsArePlayedPlusWon(ms, ids, m.home);
    PointsArePlayedPlusWon(ms, ids, m.away);
  }

  /** The last match added to the rows of some distinct teams: when it is
      counted, the games played grow by one for each of its teams among
      them, and the points for and against by its scores; otherwise the
      rows stay. */
  lemma {:induction false} RecordsStep(ms: seq<Match>, ids: seq<TeamId>, keys: seq<TeamId>)
    requires ms != []
    requires forall i, j :: 0 <= i < j < |keys| ==> keys[i] != keys[j]
    ensures var m := ms[|ms| - 1];
            var init := ms[..|ms| - 1];
            Counted(m, ids) ==>
              var h := m.homePoints.value;
              var a := m.awayPoints.value;
              && SumOf(Records(ms, ids, keys), Pj) ==
                   SumOf(Records(init, ids, keys), Pj) + (if m.home in keys then 1 else 0) + (if m.away in keys then 1 else 0)
              && SumOf(Records(ms, ids, keys), Pf) ==
                   SumOf(Records(init, ids, keys), Pf) + (if m.home in keys then h else 0) + (if m.away in keys then a else 0)
              && SumOf(Records(ms, ids, keys), Pc) ==
                   SumOf(Records(init, ids, keys), Pc) + (if m.home in keys then a else 0) + (if m.away in keys then h else 0)
    ensures !Counted(ms[|ms| - 1], ids) ==> Records(ms, ids, keys) == Records(ms[..|ms| - 1], ids, keys)
    decreases |keys|
  {
    if keys != [] {
      var front := keys[..|keys| - 1];
      var k := keys[|keys| - 1];
      RecordsStep(ms, ids, front);
      var rs := Records(ms, ids, keys);
      var rs0 := Records(ms[..|ms| - 1], ids, keys);
      assert rs[..|rs| - 1] == Records(ms, ids, front);
      assert rs0[..|rs0| - 1] == Records(ms[..|ms| - 1], ids, front);
      assert forall x :: x in keys <==> x in front || x == k;
      assert forall i :: 0 <= i < |front| ==> front[i] == keys[i] != k;
      PointsArePlayedPlusWon(ms[..|ms| - 1], ids, k);
    }
  }

  /** Every counted match adds a game played to both of its teams. */
  lemma {:induction false} GamesPlayedTwicePerMatch(ms: seq<Match>, ids: seq<TeamId>)
    requires forall i, j :: 0 <= i < j < |ids| ==> ids[i] != ids[j]
    ensures SumOf(Records(ms, ids, ids), Pj) == 2 * CountedCount(ms, ids)
    ensures SumOf(Records(ms, ids, ids), Pf) == SumOf(Records(ms, ids, ids), Pc)
    decreases |ms|
  {
    if ms == [] {
      BlankSums(ids, ids);
    } else {
      GamesPlayedTwicePerMatch(ms[..|ms| - 1], ids);
      RecordsStep(ms, ids, ids);
    }
  }

  /** Before any match every row is empty. */
  lemma {:induction false} BlankSums(ids: seq<TeamId>, keys: seq<TeamId>)
    ensures SumOf(Records([], ids, keys), Pj) == 0
    ensures SumOf(Records([], ids, keys), Pf) == 0
    ensures SumOf(Records([], ids, keys), Pc) == 0
    decreases |keys|
  {
    if keys != [] {
      BlankSums(ids, keys[..|keys| - 1]);
      var rs := Records([], ids, keys);
      assert rs[..|rs| - 1] == Records([], ids, keys[..|keys| - 1]);
    }
  }

  /** The differences of a list of finished rows add up to the points for
      less the points against. */
  lemma {:induction false} DiffSum(rs: seq<Standing>)
    requires forall i :: 0 <= i < |rs| ==> rs[i].diff == rs[i].pf - rs[i].pc
    ensures SumOf(rs, Diff) == SumOf(rs, Pf) - SumOf(rs, Pc)
    decreases |rs|
  {
    if rs != [] {
      DiffSum(rs[..|rs| - 1]);
    }
  }

  /** The table as a whole: games played are twice the counted matches,
      points for equal points against, and the differences add up to 0. */
  lemma TableTotals(teams: seq<TeamId>, ms: seq<Match>)
    ensures var list := InitialList(teams, ms);
            var ids := TableIds(teams);
            && SumOf(list, Pj) == 2 * CountedCount(ms, ids)
            && SumOf(list, Pf) == SumOf(list, Pc)
            && SumOf(list, Diff) == 0
  {
    var ids := TableIds(teams);
    GamesPlayedTwicePerMatch(ms, ids);
    DiffSum(InitialList(teams, ms));
  }

  // ---------------------------------------------------------------------
  // Ordering
  // ---------------------------------------------------------------------

  /** The ids of the rows with a given number of points. */
  function TiedIds(list: seq<Standing>, points: int): (ids: seq<TeamId>)
    ensures forall t :: t in ids <==> exists s :: s in list && s.points == points && s.teamId == t
  {
    if list == [] then []
    else
      var ids := TiedIds(list[..|list| - 1], points);
      var s := list[|list| - 1];
      assert forall x :: x in list[..|list| - 1] ==> x in list;
      if s.points == points then ids + [s.teamId] else ids
  }

  /** The head-to-head record of a team among a group (`getMiniStats`). */
  datatype Mini = Mini(pts: int, pf: int, pc: int)

  function MiniSide(acc: Mini, mine: int, theirs: int): Mini
  {
    Mini(acc.pts + (if mine > theirs then 2 else 1), acc.pf + mine, acc.pc + theirs)
  }

  /** The matches with both scores between two teams of the group count,
      on the side of `target` (its home side when it plays both). */
  function MiniOf(ms: seq<Match>, tied: seq<TeamId>, target: TeamId): Mini
  {
    if ms == [] then Mini(0, 0, 0)
    else
      var acc := MiniOf(ms[..|ms| - 1], tied, target);
      var m := ms[|ms| - 1];
      if m.homePoints.None? || m.awayPoints.None? || m.home !in tied || m.away !in tied then acc
      else if m.home == target then MiniSide(acc, m.homePoints.value, m.awayPoints.value)
      else if m.away == target then MiniSide(acc, m.awayPoints.value, m.homePoints.value)
      else acc
  }

  /** `compareTeams`: negative when `a` goes first. Points first; then, in
      a competition that is not mini-basketball and with more than one team
      on those points, the head-to-head points, difference and points for
      among those teams; then the overall difference and points for. */
  function Compare(a: Standing, b: Standing, list: seq<Standing>, ms: seq<Match>, esMini: bool): int
  {
    if b.points != a.points then b.points - a.points
    else
      var tied := TiedIds(list, a.points);
      var ma := MiniOf(ms, tied, a.teamId);
      var mb := MiniOf(ms, tied, b.teamId);
      if !esMini && |tied| > 1 && mb.pts != ma.pts then mb.pts - ma.pts
      else if !esMini && |tied| > 1 && mb.pf - mb.pc != ma.pf - ma.pc then (mb.pf - mb.pc) - (ma.pf - ma.pc)
      else if !esMini && |tied| > 1 && mb.pf != ma.pf then mb.pf - ma.pf
      else if b.diff != a.diff then b.diff - a.diff
      else b.pf - a.pf
  }

  /** The criteria of a row, in the order they are applied. */
  datatype SortKey = SortKey(points: int, miniPts: int, miniDiff: int, miniPf: int, diff: int, pf: int)

  function KeyOf(t: Standing, list: seq<Standing>, ms: seq<Match>, esMini: bool): SortKey
  {
    var tied := TiedIds(list, t.points);
    var mi := MiniOf(ms, tied, t.teamId);
    if !esMini && |tied| > 1 then SortKey(t.points, mi.pts, mi.pf - mi.pc, mi.pf, t.diff, t.pf)
    else SortKey(t.points, 0, 0, 0, t.diff, t.pf)
  }

  /** `x` ranks at least as high as `y`: larger at the first criterion
      where they differ, or equal at all. */
  predicate KeyGe(x: SortKey, y: SortKey)
  {
    x.points > y.points || (x.points == y.points &&
    (x.miniPts > y.miniPts || (x.miniPts == y.miniPts &&
    (x.miniDiff > y.miniDiff || (x.miniDiff == y.miniDiff &&
    (x.miniPf > y.miniPf || (x.miniPf == y.miniPf &&
    (x.diff > y.diff || (x.diff == y.diff && x.pf >= y.pf)))))))))
  }

  /** `compareTeams` is the comparison of the criteria. */
  lemma CompareIsKeyOrder(a: Standing, b: Standing, list: seq<Standing>, ms: seq<Match>, esMini: bool)
    ensures Compare(a, b, list, ms, esMini) <= 0 <==> KeyGe(KeyOf(a, list, ms, esMini), KeyOf(b, list, ms, esMini))
  {
  }

  /** The order the sort uses: `a` may precede `b`. */
  function Ranks(list: seq<Standing>, ms: seq<Match>, esMini: bool): (Standing, Standing) -> bool
  {
    (a: Standing, b: Standing) => Compare(a, b, list, ms, esMini) <= 0
  }

  lemma RanksIsTotalPreorder(list: seq<Standing>, ms: seq<Match>, esMini: bool, s: seq<Standing>)
    ensures TotalPreorderOn(Ranks(list, ms, esMini), s)
  {
    var le := Ranks(list, ms, esMini);
    forall a, b | a in s && b in s ensures le(a, b) || le(b, a) {
      CompareIsKeyOrder(a, b, list, ms, esMini);
      CompareIsKeyOrder(b, a, list, ms, esMini);
    }
    forall a, b, c | a in s && b in s && c in s && le(a, b) && le(b, c) ensures le(a, c) {
      CompareIsKeyOrder(a, b, list, ms, esMini);
      CompareIsKeyOrder(b, c, list, ms, esMini);
      CompareIsKeyOrder(a, c, list, ms, esMini);
    }
  }

  /** The `standings` memo: the table sorted with `compareTeams`. The
      result holds the rows of the unsorted table, rearranged, with points
      never increasing down the table and every pair of rows in the order
      of the tie-break criteria. */
  method SortedTable(teams: seq<TeamId>, ms: seq<Match>, esMini: bool) returns (table: seq<Standing>)
    ensures multiset(table) == multiset(InitialList(teams, ms))
    ensures forall i, j :: 0 <= i < j < |table| ==> table[i].points >= table[j].points
    ensures var list := InitialList(teams, ms);
            forall i, j :: 0 <= i < j < |table| ==> KeyGe(KeyOf(table[i], list, ms, esMini), KeyOf(table[j], list, ms, esMini))
  {
    var list := BuildTable(teams, ms);
    RanksIsTotalPreorder(list, ms, esMini, list);
    table := SortWith(list, Ranks(list, ms, esMini));
    forall i, j | 0 <= i < j < |table|
      ensures KeyGe(KeyOf(table[i], list, ms, esMini), KeyOf(table[j], list, ms, esMini))
    {
      assert Ranks(list, ms, esMini)(table[i], table[j]);
      CompareIsKeyOrder(table[i], table[j], list, ms, esMini);
    }
  }
}
