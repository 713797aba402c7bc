/** The play-by-play engine: plus/minus and seconds on court per player and
    match, rebuilt from substitution events and period-end score snapshots.

    The specification is per player: a player's line is a left fold of
    `Step` over that player's own movements, in replay order, completed by
    the fallback for periods where the player shows up without any
    substitution (`SecondsOf`). The method `ReplayMatch` walks all the
    movements of a match at once, as the program does, and its loop
    invariants tie every player's share of the shared state to that
    per-player fold. */
module PlusMinus {
  import opened Common
  import opened Text
  import opened Model
  import opened Tables

  /** Movement kinds. */
  const ENTER := 112
  const EXIT := 115
  const SNAPSHOT := 116

  // ---------------------------------------------------------------------
  // Replay order
  // ---------------------------------------------------------------------

  /** The order in which the movements of a match are replayed: period
      ascending, then game clock descending (minutes, then seconds: the
      clock counts down), then id ascending. */
  predicate PlaysBefore(a: Movement, b: Movement)
  {
    if a.period != b.period then a.period < b.period
    else if a.minute != b.minute then a.minute > b.minute
    else if a.second != b.second then a.second > b.second
    else a.id <= b.id
  }

  lemma PlaysBeforeIsTotalPreorder(s: seq<Movement>)
    ensures TotalPreorderOn(PlaysBefore, s)
  {
  }

  /** The movements of a match in replay order. */
  function SortMovements(movs: seq<Movement>): (r: seq<Movement>)
    ensures multiset(r) == multiset(movs)
    ensures SortedBy(r, PlaysBefore)
    ensures forall i, j :: 0 <= i < j < |r| ==> r[i].period <= r[j].period
  {
    PlaysBeforeIsTotalPreorder(movs);
    SortWith(movs, PlaysBefore)
  }

  // ---------------------------------------------------------------------
  // Period-end snapshots and quarter deltas
  // ---------------------------------------------------------------------

  /** A score as `parseInt` reads it: either side may be `NaN` (`None`). */
  datatype Tally = Tally(l: Option<int>, v: Option<int>)

  /** `parts[i] || '0'`. */
  function PartOr0(parts: seq<string>, i: nat): string
  {
    if i < |parts| && parts[i] != "" then parts[i] else "0"
  }

  /** The score of a snapshot: `(marcador || '0-0').split('-')`, each side
      read by `parseInt`, a missing side being "0". The empty text is read
      as the 0-0 it stands for (`ReadMarcadorMissing`). */
  function ReadMarcador(text: string): Tally
  {
    if text == "" then Tally(Some(0), Some(0))
    else
      var parts := Split(text, '-');
      Tally(ParseInt(PartOr0(parts, 0)), ParseInt(PartOr0(parts, 1)))
  }

  /** A well-formed score text reads as its two numbers. */
  lemma ReadMarcadorNumbers(a: nat, b: nat)
    ensures ReadMarcador(NatToString(a) + "-" + NatToString(b)) == Tally(Some(a), Some(b))
  {
    var x, y := NatToString(a), NatToString(b);
    NoDashInDigits(x);
    NoDashInDigits(y);
    SplitScore(x, y);
    var parts := Split(x + "-" + y, '-');
    assert PartOr0(parts, 0) == x;
    assert PartOr0(parts, 1) == y;
    ParseIntNatToString(a);
    ParseIntNatToString(b);
  }

  lemma NoDashInDigits(x: string)
    requires forall i :: 0 <= i < |x| ==> IsDigit(x[i])
    ensures '-' !in x
  {
    forall i | 0 <= i < |x| ensures x[i] != '-' {
      assert IsDigit(x[i]);
    }
  }

  /** Two dash-free sides joined by a dash split back into the two. */
  lemma SplitScore(x: string, y: string)
    requires '-' !in x && '-' !in y
    ensures Split(x + "-" + y, '-') == [x, y]
  {
    assert [x, y][1..] == [y];
    assert Join([x, y], '-') == x + "-" + y;
    SplitJoin([x, y], '-');
  }

  /** A snapshot without a score reads as the text "0-0". */
  lemma ReadMarcadorMissing()
    ensures ReadMarcador("") == ReadMarcador("0-0")
  {
    var z := NatToString(0);
    assert z == "0";
    assert z + "-" + z == "0-0";
    ReadMarcadorNumbers(0, 0);
  }

  /** The period-end snapshots among the movements, in order. */
  function Snapshots(movs: seq<Movement>): (snaps: seq<Movement>)
    ensures forall m :: m in snaps <==> m in movs && m.kind == SNAPSHOT
  {
    if movs == [] then []
    else
      var rest := Snapshots(movs[..|movs| - 1]);
      var last := movs[|movs| - 1];
      assert movs == movs[..|movs| - 1] + [last];
      if last.kind == SNAPSHOT then rest + [last] else rest
  }

  function PeriodsOf(ms: seq<Movement>): (ps: seq<int>)
    ensures |ps| == |ms|
    ensures forall i :: 0 <= i < |ms| ==> ps[i] == ms[i].period
  {
    if ms == [] then [] else PeriodsOf(ms[..|ms| - 1]) + [ms[|ms| - 1].period]
  }

  /** `quarterScores`: for each period that has a snapshot, the score of
      the last snapshot of that period. */
  function QuarterScores(snaps: seq<Movement>): (scores: map<int, Tally>)
    ensures forall p :: p in scores <==> p in PeriodsOf(snaps)
  {
    if snaps == [] then map[]
    else
      var last := snaps[|snaps| - 1];
      assert PeriodsOf(snaps) == PeriodsOf(snaps[..|snaps| - 1]) + [last.period];
      QuarterScores(snaps[..|snaps| - 1])[last.period := ReadMarcador(last.marcador)]
  }

  /** The score of a period is the one of the last snapshot filed in it. */
  lemma QuarterScoresLast(snaps: seq<Movement>, i: int)
    requires 0 <= i < |snaps|
    requires forall j :: i < j < |snaps| ==> snaps[j].period != snaps[i].period
    ensures QuarterScores(snaps)[snaps[i].period] == ReadMarcador(snaps[i].marcador)
  {
    if i < |snaps| - 1 {
      QuarterScoresLast(snaps[..|snaps| - 1], i);
    }
  }

  /** `a - b`, `NaN` when either side is. */
  function Minus(a: Option<int>, b: Option<int>): Option<int>
  {
    if a.Some? && b.Some? then Some(a.value - b.value) else None
  }

  /** The points a team won a period by: the snapshot score, less the
      score of the previous period that has a snapshot (0-0 before the
      first) unless the category plays each period from zero (`esMini`),
      taken from the side of the team (`isLocal`). */
  function QuarterDelta(scores: map<int, Tally>, periods: seq<int>, p: int,
                        esMini: bool, isLocal: bool): Option<int>
    requires p in scores
    requires forall q :: q in periods ==> q in scores
  {
    var curr := scores[p];
    var prev := match MaxBelow(periods, p)
                case None => Tally(Some(0), Some(0))
                case Some(q) => scores[q];
    var l := if esMini then curr.l else Minus(curr.l, prev.l);
    var v := if esMini then curr.v else Minus(curr.v, prev.v);
    if isLocal then Minus(l, v) else Minus(v, l)
  }

  /** `quarterDeltas` for the snapshots of a match. */
  function QuarterDeltas(snaps: seq<Movement>, esMini: bool, isLocal: bool): (d: map<int, Option<int>>)
    ensures forall p :: p in d <==> p in PeriodsOf(snaps)
  {
    var scores := QuarterScores(snaps);
    map p | p in scores :: QuarterDelta(scores, PeriodsOf(snaps), p, esMini, isLocal)
  }

  /** `quarterDeltas[q] || 0`. */
  function DeltaOr0(deltas: map<int, Option<int>>, q: int): int
  {
    if q in deltas && deltas[q].Some? then deltas[q].value else 0
  }

  function Negate(x: Option<int>): Option<int>
  {
    if x.Some? then Some(-x.value) else None
  }

  /** The away view of a period is the home view with the sign flipped. */
  lemma AwayDeltaIsNegatedHome(scores: map<int, Tally>, periods: seq<int>, p: int, esMini: bool)
    requires p in scores
    requires forall q :: q in periods ==> q in scores
    ensures QuarterDelta(scores, periods, p, esMini, false) == Negate(QuarterDelta(scores, periods, p, esMini, true))
  {
  }

  /** Mini categories: each snapshot is the score of its own period. */
  lemma MiniDeltaIsSnapshot(scores: map<int, Tally>, periods: seq<int>, p: int)
    requires p in scores
    requires forall q :: q in periods ==> q in scores
    ensures QuarterDelta(scores, periods, p, true, true) == Minus(scores[p].l, scores[p].v)
  {
  }

  /** Without mini rules, the home delta of a period is the change of the
      margin since the previous period with a snapshot. */
  lemma RunningDelta(scores: map<int, Tally>, periods: seq<int>, ps: seq<int>, k: nat)
    requires StrictlyIncreasing(ps)
    requires forall q :: q in ps <==> q in periods
    requires forall q :: q in periods ==> q in scores
    requires k < |ps|
    requires forall q :: q in scores ==> scores[q].l.Some? && scores[q].v.Some?
    ensures QuarterDelta(scores, periods, ps[k], false, true) ==
            Some(Margin(scores[ps[k]]) - (if k == 0 then 0 else Margin(scores[ps[k - 1]])))
  {
    PreviousIsMaxBelow(periods, ps, k);
    if k > 0 {
      assert ps[k - 1] in periods;
    }
  }

  /** Cumulative snapshots 20-15 after the first period and 35-30 after
      the second: the home team won the first period by 5 and drew the
      second. */
  lemma CumulativeSnapshotsExample()
    ensures var scores := map[1 := Tally(Some(20), Some(15)), 2 := Tally(Some(35), Some(30))];
            QuarterDelta(scores, [1, 2], 1, false, true) == Some(5) &&
            QuarterDelta(scores, [1, 2], 2, false, true) == Some(0)
  {
    var scores := map[1 := Tally(Some(20), Some(15)), 2 := Tally(Some(35), Some(30))];
    assert StrictlyIncreasing([1, 2]);
    RunningDelta(scores, [1, 2], [1, 2], 0);
    RunningDelta(scores, [1, 2], [1, 2], 1);
  }

  /** The home margin of a score whose sides both parsed. */
  function Margin(t: Tally): int
    requires t.l.Some? && t.v.Some?
  {
    t.l.value - t.v.value
  }

  /** The sum of `quarterDeltas[q] || 0` over the periods `ps`. */
  function SumDeltas(ps: seq<int>, deltas: map<int, Option<int>>): int
  {
    if ps == [] then 0 else SumDeltas(ps[..|ps| - 1], deltas) + DeltaOr0(deltas, ps[|ps| - 1])
  }

  /** A margin for each of the periods `ps`, taken from their snapshots. */
  ghost predicate MarginsKnown(scores: map<int, Tally>, ps: seq<int>)
  {
    forall j :: 0 <= j < |ps| ==> ps[j] in scores && scores[ps[j]].l.Some? && scores[ps[j]].v.Some?
  }

  /** The margin of the snapshot of `ps[j]`. */
  ghost function MarginAt(scores: map<int, Tally>, ps: seq<int>, j: int): int
    requires MarginsKnown(scores, ps)
    requires 0 <= j < |ps|
  {
    Margin(scores[ps[j]])
  }

  /** The margin of the period before `ps[j]` in `ps`, 0 before the first. */
  ghost function MarginBefore(scores: map<int, Tally>, ps: seq<int>, j: int): int
    requires MarginsKnown(scores, ps)
    requires 0 <= j < |ps|
  {
    if j == 0 then 0 else MarginAt(scores, ps, j - 1)
  }

  /** `quarterDeltas[ps[j]] || 0`. */
  function DeltaAt(deltas: map<int, Option<int>>, ps: seq<int>, j: int): int
    requires 0 <= j < |ps|
  {
    DeltaOr0(deltas, ps[j])
  }

  /** The delta of each of the periods `ps` is the change of the margin
      since the period before it in `ps`. */
  ghost predicate RunningDeltas(scores: map<int, Tally>, deltas: map<int, Option<int>>, ps: seq<int>)
    requires MarginsKnown(scores, ps)
  {
    forall j {:trigger DeltaAt(deltas, ps, j)} :: 0 <= j < |ps| ==>
      DeltaAt(deltas, ps, j) == MarginAt(scores, ps, j) - MarginBefore(scores, ps, j)
  }

  /** Running deltas add up, up to `ps[k]`, to the margin of `ps[k]`. */
  lemma {:induction false} DeltasTelescope(scores: map<int, Tally>, deltas: map<int, Option<int>>, ps: seq<int>, k: nat)
    requires MarginsKnown(scores, ps)
    requires RunningDeltas(scores, deltas, ps)
    requires k < |ps|
    ensures SumDeltas(ps[..k + 1], deltas) == MarginAt(scores, ps, k)
  {
    var pre := ps[..k + 1];
    assert pre[..k] == ps[..k];
    assert SumDeltas(pre, deltas) == SumDeltas(ps[..k], deltas) + DeltaAt(deltas, ps, k);
    if k > 0 {
      DeltasTelescope(scores, deltas, ps, k - 1);
    } else {
      assert ps[..0] == [];
    }
  }

  /** `quarterDeltas` at one period with a snapshot. */
  lemma QuarterDeltaAt(snaps: seq<Movement>, q: int, esMini: bool, isLocal: bool)
    requires q in QuarterScores(snaps)
    ensures q in QuarterDeltas(snaps, esMini, isLocal)
    ensures QuarterDeltas(snaps, esMini, isLocal)[q] ==
            QuarterDelta(QuarterScores(snaps), PeriodsOf(snaps), q, esMini, isLocal)
  {
    var scores := QuarterScores(snaps);
    assert QuarterDeltas(snaps, esMini, isLocal) ==
           map p | p in scores :: QuarterDelta(scores, PeriodsOf(snaps), p, esMini, isLocal);
  }

  /** With every snapshot parsed, the home delta of the `j`-th period of a
      match, in ascending order, is the change of the margin since the
      period before it. */
  lemma MatchDeltaAt(snaps: seq<Movement>, j: int)
    requires forall q :: q in QuarterScores(snaps) ==>
               QuarterScores(snaps)[q].l.Some? && QuarterScores(snaps)[q].v.Some?
    requires 0 <= j < |SortedDistinct(PeriodsOf(snaps))|
    ensures var ps := SortedDistinct(PeriodsOf(snaps));
            var scores := QuarterScores(snaps);
            ps[j] in scores && (j > 0 ==> ps[j - 1] in scores) &&
            DeltaOr0(QuarterDeltas(snaps, false, true), ps[j]) ==
              Margin(scores[ps[j]]) - (if j == 0 then 0 else Margin(scores[ps[j - 1]]))
  {
    var periods := PeriodsOf(snaps);
    var ps := SortedDistinct(periods);
    var scores := QuarterScores(snaps);
    assert ps[j] in ps;
    if j > 0 {
      assert ps[j - 1] in ps;
    }
    QuarterDeltaAt(snaps, ps[j], false, true);
    RunningDelta(scores, periods, ps, j);
  }

  /** With every snapshot parsed, every period of a match has a margin. */
  lemma MatchMarginsKnown(snaps: seq<Movement>)
    requires forall q :: q in QuarterScores(snaps) ==>
               QuarterScores(snaps)[q].l.Some? && QuarterScores(snaps)[q].v.Some?
    ensures MarginsKnown(QuarterScores(snaps), SortedDistinct(PeriodsOf(snaps)))
  {
    var ps := SortedDistinct(PeriodsOf(snaps));
    var scores := QuarterScores(snaps);
    forall j | 0 <= j < |ps|
      ensures ps[j] in scores && scores[ps[j]].l.Some? && scores[ps[j]].v.Some?
    {
      MatchDeltaAt(snaps, j);
    }
  }

  /** With every snapshot parsed, the home deltas of a match are running
      deltas over its periods in ascending order. */
  lemma MatchDeltasRun(snaps: seq<Movement>)
    requires forall q :: q in QuarterScores(snaps) ==>
               QuarterScores(snaps)[q].l.Some? && QuarterScores(snaps)[q].v.Some?
    requires MarginsKnown(QuarterScores(snaps), SortedDistinct(PeriodsOf(snaps)))
    ensures RunningDeltas(QuarterScores(snaps), QuarterDeltas(snaps, false, true), SortedDistinct(PeriodsOf(snaps)))
  {
    var ps := SortedDistinct(PeriodsOf(snaps));
    var scores := QuarterScores(snaps);
    var deltas := QuarterDeltas(snaps, false, true);
    forall j | 0 <= j < |ps|
      ensures DeltaAt(deltas, ps, j) == MarginAt(scores, ps, j) - MarginBefore(scores, ps, j)
    {
      MatchDeltaAt(snaps, j);
    }
  }

  /** The last period with a snapshot. */
  function FinalPeriod(snaps: seq<Movement>): (p: int)
    requires snaps != []
    ensures p in PeriodsOf(snaps)
    ensures forall q :: q in PeriodsOf(snaps) ==> q <= p
  {
    var init := snaps[..|snaps| - 1];
    var last := snaps[|snaps| - 1].period;
    assert PeriodsOf(snaps) == PeriodsOf(init) + [last];
    if init == [] then last
    else
      var m := FinalPeriod(init);
      if last > m then last else m
  }

  /** The last of an ascending list is its largest element. */
  lemma LastIsLargest(ps: seq<int>, x: int)
    requires StrictlyIncreasing(ps)
    requires x in ps
    ensures x <= ps[|ps| - 1]
  {
    var k :| 0 <= k < |ps| && ps[k] == x;
    if k < |ps| - 1 {
      assert ps[k] < ps[|ps| - 1];
    }
  }

  /** The largest of some values is the last of them in ascending order. */
  lemma LargestIsLast(xs: seq<int>, ps: seq<int>, f: int)
    requires StrictlyIncreasing(ps)
    requires forall y :: y in ps <==> y in xs
    requires f in xs && forall q :: q in xs ==> q <= f
    ensures |ps| > 0 && ps[|ps| - 1] == f
  {
    assert f in ps;
    var last := ps[|ps| - 1];
    assert last in ps;
    LastIsLargest(ps, f);
  }

  /** Running deltas add up to the margin of the last period. */
  lemma DeltasSum(scores: map<int, Tally>, deltas: map<int, Option<int>>, ps: seq<int>)
    requires MarginsKnown(scores, ps)
    requires RunningDeltas(scores, deltas, ps)
    requires ps != []
    ensures SumDeltas(ps, deltas) == MarginAt(scores, ps, |ps| - 1)
  {
    DeltasTelescope(scores, deltas, ps, |ps| - 1);
    assert ps[..|ps|] == ps;
  }

  /** For the team at home, the deltas of all periods add up to the
      margin of the last snapshot. */
  lemma DeltasSumToFinalMargin(snaps: seq<Movement>)
    requires snaps != []
    requires forall q :: q in QuarterScores(snaps) ==>
               QuarterScores(snaps)[q].l.Some? && QuarterScores(snaps)[q].v.Some?
    ensures SumDeltas(SortedDistinct(PeriodsOf(snaps)), QuarterDeltas(snaps, false, true)) ==
            Margin(QuarterScores(snaps)[FinalPeriod(snaps)])
  {
    var ps := SortedDistinct(PeriodsOf(snaps));
    LargestIsLast(PeriodsOf(snaps), ps, FinalPeriod(snaps));
    MatchMarginsKnown(snaps);
    MatchDeltasRun(snaps);
    DeltasSum(QuarterScores(snaps), QuarterDeltas(snaps, false, true), ps);
  }

  // ---------------------------------------------------------------------
  // A player's line
  // ---------------------------------------------------------------------

  /** Where on the clock a player came on. */
  datatype Stamp = Stamp(period: int, minute: int, second: int)

  /** What the replay knows about one player: the open stint, if on court;
      seconds credited per period (a numeric record); and the periods in
      which the player has any movement, in order of first appearance. */
  datatype Line = Line(stint: Option<Stamp>, secs: Entries, periods: seq<int>)

  /** Credits `amount` seconds to every period from `from` up to, not
      including, `to`. */
  function CreditWhole(secs: Entries, from: int, to: int, amount: int): Entries
    decreases to - from
  {
    if from >= to then secs else CreditWhole(AddAt(secs, from, amount), from + 1, to, amount)
  }

  /** One movement of the player. An entry opens a stint at the movement's
      clock, replacing any open one. An exit closes the open stint: within
      one period it is credited the clock time that ran; across periods the
      entry period gets the time left at entry, every period in between a
      full period and the exit period the time played before the exit. An
      exit without an open stint credits the time played in its period
      before the exit. Every movement files its period. */
  function Step(line: Line, mov: Movement, minsPerPeriod: int): Line
  {
    var p := mov.period;
    var clock := mov.minute * 60 + mov.second;
    var full := minsPerPeriod * 60;
    var seen := line.(periods := AddMember(line.periods, p));
    if mov.kind == ENTER then seen.(stint := Some(Stamp(p, mov.minute, mov.second)))
    else if mov.kind == EXIT then
      match line.stint
      case Some(e) =>
        var entry := e.minute * 60 + e.second;
        var secs := if e.period == p then AddAt(line.secs, p, entry - clock)
                    else AddAt(CreditWhole(AddAt(line.secs, e.period, entry), e.period + 1, p, full), p, full - clock);
        seen.(stint := None, secs := secs)
      case None => seen.(secs := AddAt(line.secs, p, full - clock))
    else seen
  }

  function ReplayLine(movs: seq<Movement>, minsPerPeriod: int): Line
  {
    if movs == [] then Line(None, [], [])
    else Step(ReplayLine(movs[..|movs| - 1], minsPerPeriod), movs[|movs| - 1], minsPerPeriod)
  }

  /** The movements of one player, in the order of `movs`. */
  function PlayerMovements(movs: seq<Movement>, pid: PlayerId): (own: seq<Movement>)
    ensures |own| <= |movs|
    ensures forall m :: m in own ==> m in movs && m.playerId == pid
  {
    if movs == [] then []
    else
      var rest := PlayerMovements(movs[..|movs| - 1], pid);
      var last := movs[|movs| - 1];
      if last.playerId == pid then rest + [last] else rest
  }

  /** The line of one player after the movements of a match. */
  function LineOf(movs: seq<Movement>, pid: PlayerId, minsPerPeriod: int): Line
  {
    ReplayLine(PlayerMovements(movs, pid), minsPerPeriod)
  }

  /** Whether the match has a movement of the given kind for the player in
      the period. */
  function HasKindIn(movs: seq<Movement>, pid: PlayerId, p: int, kind: int): bool
  {
    exists i :: 0 <= i < |movs| && movs[i].playerId == pid && movs[i].period == p && movs[i].kind == kind
  }

  /** The fallback for one period: a player seen in a period without
      entering or leaving in it, and with no time recorded there, played
      the whole period. */
  function FillPeriod(secs: Entries, movs: seq<Movement>, pid: PlayerId, p: int, minsPerPeriod: int): Entries
  {
    if !HasKindIn(movs, pid, p, ENTER) && !HasKindIn(movs, pid, p, EXIT) && ValueOr0(secs, p) == 0
    then AddAt(secs, p, minsPerPeriod * 60)
    else secs
  }

  function Fill(secs: Entries, ps: seq<int>, movs: seq<Movement>, pid: PlayerId, minsPerPeriod: int): Entries
  {
    if ps == [] then secs
    else FillPeriod(Fill(secs, ps[..|ps| - 1], movs, pid, minsPerPeriod), movs, pid, ps[|ps| - 1], minsPerPeriod)
  }

  /** The seconds per period of a player in a match: the replay of the
      player's movements, completed by the fallback. */
  function SecondsOf(movs: seq<Movement>, pid: PlayerId, minsPerPeriod: int): Entries
  {
    var line := LineOf(movs, pid, minsPerPeriod);
    Fill(line.secs, line.periods, movs, pid, minsPerPeriod)
  }

  /** Seconds played: the sum over the periods with a positive count. */
  function PlayedSeconds(secs: Entries): int
  {
    if secs == [] then 0
    else PlayedSeconds(secs[..|secs| - 1]) + (if secs[|secs| - 1].1 > 0 then secs[|secs| - 1].1 else 0)
  }

  /** Plus/minus: the sum of the deltas of the periods with a positive
      count of seconds. */
  function PlusMinusOver(secs: Entries, deltas: map<int, Option<int>>): int
  {
    if secs == [] then 0
    else
      var e := secs[|secs| - 1];
      PlusMinusOver(secs[..|secs| - 1], deltas) + (if e.1 > 0 then DeltaOr0(deltas, e.0) else 0)
  }

  /** What one period entry adds to the seconds played. */
  function PositiveSeconds(e: (int, int)): int
  {
    if e.1 > 0 then e.1 else 0
  }

  /** What one period entry adds to the plus/minus. */
  function DeltaIfPlayed(deltas: map<int, Option<int>>): ((int, int)) -> int
  {
    (e: (int, int)) => if e.1 > 0 then DeltaOr0(deltas, e.0) else 0
  }

  lemma {:induction false} PlayedSecondsIsSum(secs: Entries)
    ensures PlayedSeconds(secs) == SumOf(secs, PositiveSeconds)
    decreases |secs|
  {
    if secs != [] {
      PlayedSecondsIsSum(secs[..|secs| - 1]);
    }
  }

  lemma {:induction false} PlusMinusOverIsSum(secs: Entries, deltas: map<int, Option<int>>)
    ensures PlusMinusOver(secs, deltas) == SumOf(secs, DeltaIfPlayed(deltas))
    decreases |secs|
  {
    if secs != [] {
      PlusMinusOverIsSum(secs[..|secs| - 1], deltas);
    }
  }

  /** The order in which a player's record holds its periods does not
      matter: the same entries in any order give the same seconds played
      and the same plus/minus. */
  lemma RecordOrderIrrelevant(a: Entries, b: Entries, deltas: map<int, Option<int>>)
    requires multiset(a) == multiset(b)
    ensures PlayedSeconds(a) == PlayedSeconds(b)
    ensures PlusMinusOver(a, deltas) == PlusMinusOver(b, deltas)
  {
    PlayedSecondsIsSum(a);
    PlayedSecondsIsSum(b);
    SumOfPermutation(a, b, PositiveSeconds);
    PlusMinusOverIsSum(a, deltas);
    PlusMinusOverIsSum(b, deltas);
    SumOfPermutation(a, b, DeltaIfPlayed(deltas));
  }

  // ---------------------------------------------------------------------
  // Facts about the per-player specification
  // ---------------------------------------------------------------------

  lemma {:induction false} PlayedSecondsNonNegative(secs: Entries)
    ensures PlayedSeconds(secs) >= 0
    decreases |secs|
  {
    if secs != [] {
      PlayedSecondsNonNegative(secs[..|secs| - 1]);
    }
  }

  /** A stint within one period is credited the clock time that ran. */
  lemma StintWithinPeriod(a: Movement, b: Movement, minsPerPeriod: int)
    requires a.kind == ENTER && b.kind == EXIT && a.period == b.period
    ensures ReplayLine([a, b], minsPerPeriod) ==
            Line(None, [(a.period, (a.minute * 60 + a.second) - (b.minute * 60 + b.second))], [a.period])
  {
    assert [a, b][..1] == [a];
    assert [a][..0] == [];
    assert ReplayLine([a], minsPerPeriod) == Line(Some(Stamp(a.period, a.minute, a.second)), [], [a.period]);
  }

  /** Sums of the seconds a stint credits across periods. */
  lemma {:induction false} CreditWholeSum(secs: Entries, from: int, to: int, amount: int)
    ensures Total(CreditWhole(secs, from, to, amount)) ==
            Total(secs) + (if from < to then (to - from) * amount else 0)
    decreases if from < to then to - from else 0
  {
    if from < to {
      var next := AddAt(secs, from, amount);
      AddAtTotal(secs, from, amount);
      CreditWholeSum(next, from + 1, to, amount);
      assert CreditWhole(secs, from, to, amount) == CreditWhole(next, from + 1, to, amount);
      MultiplySucc(to - (from + 1), amount);
    }
  }

  lemma MultiplySucc(n: int, a: int)
    ensures (n + 1) * a == a + n * a
  {
  }

  /** A stint that runs over several periods is credited, in all, the time
      left at entry, a full period for each period in between, and the time
      played in the exit period. */
  lemma StintAcrossPeriods(a: Movement, b: Movement, minsPerPeriod: int)
    requires a.kind == ENTER && b.kind == EXIT && a.period < b.period
    ensures var secs := ReplayLine([a, b], minsPerPeriod).secs;
            Total(secs) ==
            (a.minute * 60 + a.second) + (b.period - a.period - 1) * minsPerPeriod * 60
            + (minsPerPeriod * 60 - (b.minute * 60 + b.second))
  {
    assert [a, b][..1] == [a];
    assert [a][..0] == [];
    var full := minsPerPeriod * 60;
    var s1 := AddAt([], a.period, a.minute * 60 + a.second);
    var line := ReplayLine([a], minsPerPeriod);
    assert ReplayLine([a][..0], minsPerPeriod) == Line(None, [], []);
    assert line == Line(Some(Stamp(a.period, a.minute, a.second)), [], [a.period]);
    assert ReplayLine([a, b], minsPerPeriod) == Step(line, b, minsPerPeriod);
    assert Step(line, b, minsPerPeriod).secs ==
           AddAt(CreditWhole(s1, a.period + 1, b.period, full), b.period, full - (b.minute * 60 + b.second));
    AddAtTotal([], a.period, a.minute * 60 + a.second);
    CreditWholeSum(s1, a.period + 1, b.period, full);
    AddAtTotal(CreditWhole(s1, a.period + 1, b.period, full), b.period, full - (b.minute * 60 + b.second));
  }

  /** An exit with no open stint credits the time played in its period
      before the exit. */
  lemma ExitWithoutEntry(b: Movement, minsPerPeriod: int)
    requires b.kind == EXIT
    ensures ReplayLine([b], minsPerPeriod) ==
            Line(None, [(b.period, minsPerPeriod * 60 - (b.minute * 60 + b.second))], [b.period])
  {
    assert [b][..0] == [];
  }

  /** A movement that is neither an entry nor an exit only files its
      period. */
  lemma OtherMovementOnlyFilesPeriod(line: Line, mov: Movement, minsPerPeriod: int)
    requires mov.kind != ENTER && mov.kind != EXIT
    ensures Step(line, mov, minsPerPeriod) == line.(periods := AddMember(line.periods, mov.period))
  {
  }

  lemma {:induction false} NoSubstitutionsNoSeconds(movs: seq<Movement>, minsPerPeriod: int)
    requires forall i :: 0 <= i < |movs| ==> movs[i].kind != ENTER && movs[i].kind != EXIT
    ensures ReplayLine(movs, minsPerPeriod).secs == []
    ensures ReplayLine(movs, minsPerPeriod).stint == None
    ensures forall p :: p in ReplayLine(movs, minsPerPeriod).periods <==> p in PeriodsOf(movs)
    decreases |movs|
  {
    if movs != [] {
      NoSubstitutionsNoSeconds(movs[..|movs| - 1], minsPerPeriod);
      assert PeriodsOf(movs) == PeriodsOf(movs[..|movs| - 1]) + [movs[|movs| - 1].period];
    }
  }

  /** A player whose movements in a match are all in one period and
      include no substitution is credited that whole period. */
  lemma WholePeriodFallback(movs: seq<Movement>, pid: PlayerId, p: int, minsPerPeriod: int)
    requires PlayerMovements(movs, pid) != []
    requires forall i :: 0 <= i < |movs| && movs[i].playerId == pid ==>
               movs[i].period == p && movs[i].kind != ENTER && movs[i].kind != EXIT
    ensures SecondsOf(movs, pid, minsPerPeriod) == [(p, minsPerPeriod * 60)]
  {
    var own := PlayerMovements(movs, pid);
    var line := LineOf(movs, pid, minsPerPeriod);
    assert line.secs == [] && line.periods == [p] by {
      forall i | 0 <= i < |own| ensures own[i].kind != ENTER && own[i].kind != EXIT && own[i].period == p {
        assert own[i] in own;
      }
      NoSubstitutionsNoSeconds(own, minsPerPeriod);
      SinglePeriodReplay(own, p, minsPerPeriod);
    }
    assert !HasKindIn(movs, pid, p, ENTER) && !HasKindIn(movs, pid, p, EXIT);
    assert [p][..0] == [];
    assert Fill([], [p], movs, pid, minsPerPeriod) == FillPeriod([], movs, pid, p, minsPerPeriod);
  }

  lemma {:induction false} SinglePeriodReplay(movs: seq<Movement>, p: int, minsPerPeriod: int)
    requires movs != []
    requires forall i :: 0 <= i < |movs| ==> movs[i].period == p
    ensures ReplayLine(movs, minsPerPeriod).periods == [p]
    decreases |movs|
  {
    if |movs| > 1 {
      SinglePeriodReplay(movs[..|movs| - 1], p, minsPerPeriod);
    } else {
      assert movs[..0] == [];
    }
  }

  lemma {:induction false} ReplayPeriodsDistinct(movs: seq<Movement>, minsPerPeriod: int)
    ensures Distinct(ReplayLine(movs, minsPerPeriod).periods)
    ensures forall p :: p in ReplayLine(movs, minsPerPeriod).periods <==> p in PeriodsOf(movs)
    decreases |movs|
  {
    if movs != [] {
      ReplayPeriodsDistinct(movs[..|movs| - 1], minsPerPeriod);
      assert PeriodsOf(movs) == PeriodsOf(movs[..|movs| - 1]) + [movs[|movs| - 1].period];
    }
  }

  // ---------------------------------------------------------------------
  // The replay, as the program runs it
  // ---------------------------------------------------------------------

  lemma LineOfNone(movs: seq<Movement>, pid: PlayerId, minsPerPeriod: int)
    ensures LineOf(movs[..0], pid, minsPerPeriod) == Line(None, [], [])
  {
    assert movs[..0] == [];
  }

  /** One more movement changes the line of its own player only, by one
      `Step`. */
  lemma LineOfSnoc(movs: seq<Movement>, i: int, pid: PlayerId, minsPerPeriod: int)
    requires 0 <= i < |movs|
    ensures LineOf(movs[..i + 1], pid, minsPerPeriod) ==
            if movs[i].playerId == pid then Step(LineOf(movs[..i], pid, minsPerPeriod), movs[i], minsPerPeriod)
            else LineOf(movs[..i], pid, minsPerPeriod)
  {
    assert movs[..i + 1][..i] == movs[..i];
    var own := PlayerMovements(movs[..i], pid);
    if movs[i].playerId == pid {
      assert PlayerMovements(movs[..i + 1], pid) == own + [movs[i]];
      assert (own + [movs[i]])[..|own|] == own;
    }
  }

  /** A player without movements has neither periods nor seconds. */
  lemma NoPeriodsNoSeconds(movs: seq<Movement>, minsPerPeriod: int)
    ensures ReplayLine(movs, minsPerPeriod).periods == [] ==> ReplayLine(movs, minsPerPeriod).secs == []
  {
    if movs != [] {
      assert movs[|movs| - 1].period in ReplayLine(movs, minsPerPeriod).periods;
    }
  }

  /** `addSeconds`: adds to a player's seconds in a period, creating the
      player's record and the period's entry when they are missing. */
  function AddSeconds(pqm: map<PlayerId, Entries>, pid: PlayerId, p: int, secs: int): (r: map<PlayerId, Entries>)
    ensures pid in r && r == pqm[pid := r[pid]]
  {
    pqm[pid := AddAt(GetOr(pqm, pid, []), p, secs)]
  }

  /** How the shared replay state holds one player's line: the player is
      in `onCourt` exactly while a stint is open, `entryTime` holds where
      it opened, and the player's seconds and periods are the line's. */
  ghost predicate Tracks(onCourt: set<PlayerId>, entryTime: map<PlayerId, Stamp>,
                         pqm: map<PlayerId, Entries>, events: map<PlayerId, seq<int>>,
                         line: Line, pid: PlayerId)
  {
    && TracksTime(onCourt, entryTime, pqm, line, pid)
    && (pid in events <==> line.periods != [])
    && GetOr(events, pid, []) == line.periods
  }

  /** The part of `Tracks` about the stint and the seconds. */
  ghost predicate TracksTime(onCourt: set<PlayerId>, entryTime: map<PlayerId, Stamp>,
                             pqm: map<PlayerId, Entries>, line: Line, pid: PlayerId)
  {
    && (pid in onCourt <==> line.stint.Some?)
    && (pid in onCourt ==> pid in entryTime && entryTime[pid] == line.stint.value)
    && (pid in pqm <==> line.secs != [])
    && GetOr(pqm, pid, []) == line.secs
  }

  lemma QuarterScoresSnoc(snaps: seq<Movement>, k: int)
    requires 0 <= k < |snaps|
    ensures QuarterScores(snaps[..k + 1]) ==
            QuarterScores(snaps[..k])[snaps[k].period := ReadMarcador(snaps[k].marcador)]
  {
    var next := snaps[..k + 1];
    assert next[..|next| - 1] == snaps[..k];
    assert next[|next| - 1] == snaps[k];
  }

  lemma PrefixSnoc(s: seq<int>, k: int)
    requires 0 <= k < |s|
    ensures forall x :: x in s[..k + 1] <==> x in s[..k] || x == s[k]
  {
    assert s[..k + 1] == s[..k] + [s[k]];
  }

  /** "Quarter Deltas", the first step of the replay: `quarterDeltas`,
      from the snapshots in replay order. */
  method ComputeQuarterDeltas(movs: seq<Movement>, esMini: bool, isLocal: bool)
    returns (quarterDeltas: map<int, Option<int>>)
    ensures quarterDeltas == QuarterDeltas(Snapshots(movs), esMini, isLocal)
  {
    var snaps := Snapshots(movs);
    var quarterScores := ScoresOf(snaps);
    var periods := SortedDistinct(PeriodsOf(snaps));
    quarterDeltas := DeltasFromScores(quarterScores, PeriodsOf(snaps), periods, esMini, isLocal);
    DeltasMatch(quarterDeltas, quarterScores, PeriodsOf(snaps), esMini, isLocal);
  }

  /** A map holding the delta of every period with a snapshot. */
  lemma DeltasMatch(d: map<int, Option<int>>, scores: map<int, Tally>, filed: seq<int>, esMini: bool, isLocal: bool)
    requires forall q :: q in filed ==> q in scores
    requires forall q :: q in d <==> q in scores
    requires forall q :: q in d ==> d[q] == QuarterDelta(scores, filed, q, esMini, isLocal)
    ensures d == map p | p in scores :: QuarterDelta(scores, filed, p, esMini, isLocal)
  {
  }

  /** "Quarter Deltas", start: `quarterScores`, each snapshot overwriting
      the score of its period. */
  method ScoresOf(snaps: seq<Movement>) returns (quarterScores: map<int, Tally>)
    ensures quarterScores == QuarterScores(snaps)
  {
    quarterScores := map[];
    var k := 0;
    while k < |snaps|
      invariant 0 <= k <= |snaps|
      invariant quarterScores == QuarterScores(snaps[..k])
    {
      QuarterScoresSnoc(snaps, k);
      quarterScores := quarterScores[snaps[k].period := ReadMarcador(snaps[k].marcador)];
      k := k + 1;
    }
    assert snaps[..|snaps|] == snaps;
  }

  /** "Quarter Deltas", end: the delta of every period with a snapshot, in
      ascending order of periods (`periods`, the keys of `quarterScores`). */
  method DeltasFromScores(quarterScores: map<int, Tally>, ghost filed: seq<int>, periods: seq<int>,
                          esMini: bool, isLocal: bool)
    returns (quarterDeltas: map<int, Option<int>>)
    requires forall q :: q in filed ==> q in quarterScores
    requires StrictlyIncreasing(periods)
    requires forall q :: q in periods <==> q in filed
    ensures forall q :: q in quarterDeltas <==> q in filed
    ensures forall q :: q in quarterDeltas ==>
              q in quarterScores && quarterDeltas[q] == QuarterDelta(quarterScores, filed, q, esMini, isLocal)
  {
    quarterDeltas := map[];
    var k := 0;
    while k < |periods|
      invariant 0 <= k <= |periods|
      invariant forall q :: q in quarterDeltas <==> q in periods[..k]
      invariant forall q :: q in quarterDeltas ==>
                  q in quarterScores && quarterDeltas[q] == QuarterDelta(quarterScores, filed, q, esMini, isLocal)
    {
      var p := periods[k];
      var curr := quarterScores[p];
      var prev := if k > 0 then quarterScores[periods[k - 1]] else Tally(Some(0), Some(0));
      PreviousIsMaxBelow(filed, periods, k);
      var l, v := curr.l, curr.v;
      if !esMini {
        l := Minus(l, prev.l);
        v := Minus(v, prev.v);
      }
      var d := if isLocal then Minus(l, v) else Minus(v, l);
      assert d == QuarterDelta(quarterScores, filed, p, esMini, isLocal);
      quarterDeltas := quarterDeltas[p := d];
      PrefixSnoc(periods, k);
      k := k + 1;
    }
    assert periods[..|periods|] == periods;
  }

  /** Nothing the replay state says about player `q` differs between the
      two states. */
  ghost predicate SameFor(onCourt: set<PlayerId>, entryTime: map<PlayerId, Stamp>,
                          pqm: map<PlayerId, Entries>, events: map<PlayerId, seq<int>>,
                          onCourt': set<PlayerId>, entryTime': map<PlayerId, Stamp>,
                          pqm': map<PlayerId, Entries>, events': map<PlayerId, seq<int>>, q: PlayerId)
  {
    && (q in onCourt <==> q in onCourt')
    && (q in entryTime <==> q in entryTime') && (q in entryTime ==> entryTime[q] == entryTime'[q])
    && (q in pqm <==> q in pqm') && GetOr(pqm, q, []) == GetOr(pqm', q, [])
    && (q in events <==> q in events') && GetOr(events, q, []) == GetOr(events', q, [])
  }

  /** After one more movement the state tracks every player's line over
      the longer prefix, given that it tracks the mover's `Step` and is
      unchanged for everybody else. */
  lemma TracksNext(movs: seq<Movement>, i: int, next: seq<Movement>, minsPerPeriod: int,
                   onCourt: set<PlayerId>, entryTime: map<PlayerId, Stamp>,
                   pqm: map<PlayerId, Entries>, events: map<PlayerId, seq<int>>,
                   onCourt': set<PlayerId>, entryTime': map<PlayerId, Stamp>,
                   pqm': map<PlayerId, Entries>, events': map<PlayerId, seq<int>>)
    requires 0 <= i < |movs| && next == movs[..i + 1]
    requires forall q :: Tracks(onCourt, entryTime, pqm, events, LineOf(movs[..i], q, minsPerPeriod), q)
    requires Tracks(onCourt', entryTime', pqm', events',
                    Step(LineOf(movs[..i], movs[i].playerId, minsPerPeriod), movs[i], minsPerPeriod), movs[i].playerId)
    requires forall q :: q != movs[i].playerId ==>
               SameFor(onCourt, entryTime, pqm, events, onCourt', entryTime', pqm', events', q)
    ensures forall q :: Tracks(onCourt', entryTime', pqm', events', LineOf(next, q, minsPerPeriod), q)
  {
    forall q
      ensures Tracks(onCourt', entryTime', pqm', events', LineOf(next, q, minsPerPeriod), q)
    {
      LineOfSnoc(movs, i, q, minsPerPeriod);
      if q != movs[i].playerId {
        assert Tracks(onCourt, entryTime, pqm, events, LineOf(movs[..i], q, minsPerPeriod), q);
        assert SameFor(onCourt, entryTime, pqm, events, onCourt', entryTime', pqm', events', q);
      }
    }
  }

  /** The whole periods of a stint that spans several: every period from
      `from` up to, not including, `to` is credited a full period. */
  method CreditWholePeriods(pqm: map<PlayerId, Entries>, pid: PlayerId, from: int, to: int, full: int)
    returns (pqm': map<PlayerId, Entries>)
    requires pid in pqm
    ensures pqm' == pqm[pid := CreditWhole(pqm[pid], from, to, full)]
  {
    pqm' := pqm;
    assert pqm == pqm[pid := pqm[pid]];
    var q := from;
    while q < to
      invariant pid in pqm' && pqm' == pqm[pid := pqm'[pid]]
      invariant CreditWhole(pqm'[pid], q, to, full) == CreditWhole(pqm[pid], from, to, full)
    {
      pqm' := AddSeconds(pqm', pid, q, full);
      q := q + 1;
    }
  }

  /** The replay of one movement on the shared state: it does to the
      mover's line what `Step` does and leaves every other player alone. */
  method ApplyMovement(onCourt: set<PlayerId>, entryTime: map<PlayerId, Stamp>,
                       pqm: map<PlayerId, Entries>, events: map<PlayerId, seq<int>>,
                       mov: Movement, minsPerPeriod: int, ghost line: Line)
    returns (onCourt': set<PlayerId>, entryTime': map<PlayerId, Stamp>,
             pqm': map<PlayerId, Entries>, events': map<PlayerId, seq<int>>)
    requires Tracks(onCourt, entryTime, pqm, events, line, mov.playerId)
    ensures Tracks(onCourt', entryTime', pqm', events', Step(line, mov, minsPerPeriod), mov.playerId)
    ensures mov.playerId in events'
    ensures forall q :: q != mov.playerId ==>
              SameFor(onCourt, entryTime, pqm, events, onCourt', entryTime', pqm', events', q)
  {
    var pid := mov.playerId;
    var p := mov.period;
    onCourt', entryTime', pqm' := onCourt, entryTime, pqm;
    events' := events[pid := AddMember(GetOr(events, pid, []), p)];
    var m, s := mov.minute, mov.second;
    if mov.kind == ENTER {
      onCourt' := onCourt + {pid};
      entryTime' := entryTime[pid := Stamp(p, m, s)];
    } else if mov.kind == EXIT {
      onCourt', pqm' := ApplyExit(onCourt, entryTime, pqm, mov, minsPerPeriod, line);
    }
  }

  /** A substitution out: closes the open stint, or credits the time
      played before the exit when there is none. */
  method ApplyExit(onCourt: set<PlayerId>, entryTime: map<PlayerId, Stamp>, pqm: map<PlayerId, Entries>,
                   mov: Movement, minsPerPeriod: int, ghost line: Line)
    returns (onCourt': set<PlayerId>, pqm': map<PlayerId, Entries>)
    requires mov.kind == EXIT
    requires TracksTime(onCourt, entryTime, pqm, line, mov.playerId)
    ensures TracksTime(onCourt', entryTime, pqm', Step(line, mov, minsPerPeriod), mov.playerId)
    ensures onCourt' == onCourt - {mov.playerId}
    ensures forall q :: q != mov.playerId ==> (q in pqm <==> q in pqm') && GetOr(pqm, q, []) == GetOr(pqm', q, [])
  {
    var pid, p := mov.playerId, mov.period;
    var clock := mov.minute * 60 + mov.second;
    if pid in onCourt {
      var entry := entryTime[pid];
      if entry.period == p {
        pqm' := AddSeconds(pqm, pid, p, (entry.minute * 60 + entry.second) - clock);
      } else {
        pqm' := AddSeconds(pqm, pid, entry.period, entry.minute * 60 + entry.second);
        pqm' := CreditWholePeriods(pqm', pid, entry.period + 1, p, minsPerPeriod * 60);
        pqm' := AddSeconds(pqm', pid, p, (minsPerPeriod * 60) - clock);
      }
      onCourt' := onCourt - {pid};
    } else {
      pqm' := AddSeconds(pqm, pid, p, (minsPerPeriod * 60) - clock);
      onCourt' := onCourt;
    }
  }

  /** "Player Minutes", the second step of the replay: every movement, in
      replay order, updates the shared state of the match: the players on
      court, their entry times, their seconds per period and the periods
      they show up in. */
  method ReplayMinutes(movs: seq<Movement>, minsPerPeriod: int)
    returns (pqm: map<PlayerId, Entries>, events: map<PlayerId, seq<int>>, players: seq<PlayerId>)
    ensures Distinct(players)
    ensures forall pid :: pid in players <==> pid in events
    ensures forall pid :: pid in pqm ==> pid in events
    ensures forall pid :: pid in pqm <==> GetOr(pqm, pid, []) != []
    ensures forall pid :: GetOr(pqm, pid, []) == LineOf(movs, pid, minsPerPeriod).secs
    ensures forall pid :: GetOr(events, pid, []) == LineOf(movs, pid, minsPerPeriod).periods
  {
    var onCourt: set<PlayerId> := {};
    var entryTime: map<PlayerId, Stamp> := map[];
    pqm, events, players := map[], map[], [];
    forall pid ensures Tracks(onCourt, entryTime, pqm, events, LineOf(movs[..0], pid, minsPerPeriod), pid) {
      LineOfNone(movs, pid, minsPerPeriod);
    }
    var i := 0;
    while i < |movs|
      invariant 0 <= i <= |movs|
      invariant forall pid :: Tracks(onCourt, entryTime, pqm, events, LineOf(movs[..i], pid, minsPerPeriod), pid)
      invariant Distinct(players)
      invariant forall pid :: pid in players <==> pid in events
    {
      var pid := movs[i].playerId;
      if pid !in events {
        players := players + [pid];
      }
      ghost var onCourt0, entryTime0, pqm0, events0 := onCourt, entryTime, pqm, events;
      onCourt, entryTime, pqm, events :=
        ApplyMovement(onCourt, entryTime, pqm, events, movs[i], minsPerPeriod, LineOf(movs[..i], pid, minsPerPeriod));
      TracksNext(movs, i, movs[..i + 1], minsPerPeriod, onCourt0, entryTime0, pqm0, events0, onCourt, entryTime, pqm, events);
      forall q ensures q in players <==> q in events {
        if q != pid {
          assert SameFor(onCourt0, entryTime0, pqm0, events0, onCourt, entryTime, pqm, events, q);
        }
      }
      i := i + 1;
    }
    assert movs[..|movs|] == movs;
    forall pid
      ensures pid in pqm <==> GetOr(pqm, pid, []) != []
      ensures pid in pqm ==> pid in events
    {
      assert Tracks(onCourt, entryTime, pqm, events, LineOf(movs, pid, minsPerPeriod), pid);
      NoPeriodsNoSeconds(PlayerMovements(movs, pid), minsPerPeriod);
    }
  }

  /** "Player Minutes", end: the whole-period fallback for every player and
      every period the player shows up in. */
  method FillWholePeriods(movs: seq<Movement>, minsPerPeriod: int, pqm0: map<PlayerId, Entries>,
                          events: map<PlayerId, seq<int>>, players: seq<PlayerId>)
    returns (pqm: map<PlayerId, Entries>)
    requires Distinct(players)
    requires forall pid :: pid in players <==> pid in events
    requires forall pid :: pid in pqm0 <==> GetOr(pqm0, pid, []) != []
    requires forall pid :: GetOr(pqm0, pid, []) == LineOf(movs, pid, minsPerPeriod).secs
    requires forall pid :: GetOr(events, pid, []) == LineOf(movs, pid, minsPerPeriod).periods
    ensures forall pid :: pid in pqm <==> GetOr(pqm, pid, []) != []
    ensures forall pid :: GetOr(pqm, pid, []) == SecondsOf(movs, pid, minsPerPeriod)
    ensures forall pid :: pid in pqm ==> pid in players
  {
    pqm := pqm0;
    var j := 0;
    while j < |players|
      invariant 0 <= j <= |players|
      invariant forall pid :: pid in pqm <==> GetOr(pqm, pid, []) != []
      invariant forall pid :: GetOr(pqm, pid, []) ==
                  if pid in players[..j] then SecondsOf(movs, pid, minsPerPeriod)
                  else LineOf(movs, pid, minsPerPeriod).secs
    {
      var pid := players[j];
      var ps := events[pid];
      ghost var line := LineOf(movs, pid, minsPerPeriod);
      ghost var before := pqm;
      pqm := FillPlayer(movs, minsPerPeriod, pqm, pid, ps, line.secs);
      FilledOneMore(movs, minsPerPeriod, players, j, before, pqm);
      j := j + 1;
    }
    assert players[..|players|] == players;
    UnlistedNoSeconds(movs, minsPerPeriod, events, players);
  }

  /** One more player filled keeps the invariant of `FillWholePeriods`. */
  lemma FilledOneMore(movs: seq<Movement>, minsPerPeriod: int, players: seq<PlayerId>, j: nat,
                      pqm: map<PlayerId, Entries>, pqm': map<PlayerId, Entries>)
    requires j < |players| && Distinct(players)
    requires forall pid :: GetOr(pqm, pid, []) ==
               if pid in players[..j] then SecondsOf(movs, pid, minsPerPeriod)
               else LineOf(movs, pid, minsPerPeriod).secs
    requires GetOr(pqm', players[j], []) == SecondsOf(movs, players[j], minsPerPeriod)
    requires forall q :: q != players[j] ==> GetOr(pqm', q, []) == GetOr(pqm, q, [])
    ensures forall pid :: GetOr(pqm', pid, []) ==
              if pid in players[..j + 1] then SecondsOf(movs, pid, minsPerPeriod)
              else LineOf(movs, pid, minsPerPeriod).secs
  {
    assert players[..j + 1] == players[..j] + [players[j]];
  }

  /** A player who shows up in no period has no seconds. */
  lemma UnlistedNoSeconds(movs: seq<Movement>, minsPerPeriod: int, events: map<PlayerId, seq<int>>,
                          players: seq<PlayerId>)
    requires forall pid :: pid in players <==> pid in events
    requires forall pid :: GetOr(events, pid, []) == LineOf(movs, pid, minsPerPeriod).periods
    ensures forall pid :: pid !in players ==> SecondsOf(movs, pid, minsPerPeriod) == []
  {
    forall pid | pid !in players ensures SecondsOf(movs, pid, minsPerPeriod) == [] {
      NoPeriodsNoSeconds(PlayerMovements(movs, pid), minsPerPeriod);
    }
  }

  /** The whole-period fallback for one player over the periods `ps`. */
  method FillPlayer(movs: seq<Movement>, minsPerPeriod: int, pqm: map<PlayerId, Entries>,
                    pid: PlayerId, ps: seq<int>, ghost secs: Entries)
    returns (pqm': map<PlayerId, Entries>)
    requires GetOr(pqm, pid, []) == secs
    requires forall q :: q in pqm <==> GetOr(pqm, q, []) != []
    ensures GetOr(pqm', pid, []) == Fill(secs, ps, movs, pid, minsPerPeriod)
    ensures forall q :: q in pqm' <==> GetOr(pqm', q, []) != []
    ensures forall q :: q != pid ==> GetOr(pqm', q, []) == GetOr(pqm, q, [])
  {
    pqm' := pqm;
    var k := 0;
    while k < |ps|
      invariant 0 <= k <= |ps|
      invariant forall q :: q in pqm' <==> GetOr(pqm', q, []) != []
      invariant GetOr(pqm', pid, []) == Fill(secs, ps[..k], movs, pid, minsPerPeriod)
      invariant forall q :: q != pid ==> GetOr(pqm', q, []) == GetOr(pqm, q, [])
    {
      var p := ps[k];
      var recordedSecs := if pid in pqm' then ValueOr0(pqm'[pid], p) else 0;
      var hasEntry := HasKindIn(movs, pid, p, ENTER);
      var hasExit := HasKindIn(movs, pid, p, EXIT);
      if !hasEntry && !hasExit && recordedSecs == 0 {
        pqm' := AddSeconds(pqm', pid, p, minsPerPeriod * 60);
      }
      k := k + 1;
      assert ps[..k][..k - 1] == ps[..k - 1];
    }
    assert ps[..|ps|] == ps;
  }

  /** "Aggregate", the last step of the replay: for every roster player
      with a record, the seconds and the deltas of the periods with a
      positive count. */
  method Aggregate(pqm: map<PlayerId, Entries>, players: seq<PlayerId>, roster: set<PlayerId>,
                   quarterDeltas: map<int, Option<int>>)
    returns (plusMinus: map<PlayerId, int>, seconds: map<PlayerId, int>)
    ensures forall pid :: pid in plusMinus <==> pid in players && pid in roster && pid in pqm
    ensures seconds.Keys == plusMinus.Keys
    ensures forall pid :: pid in plusMinus ==>
              plusMinus[pid] == PlusMinusOver(pqm[pid], quarterDeltas) && seconds[pid] == PlayedSeconds(pqm[pid])
  {
    plusMinus, seconds := map[], map[];
    var j := 0;
    while j < |players|
      invariant 0 <= j <= |players|
      invariant forall pid :: pid in plusMinus <==> pid in players[..j] && pid in roster && pid in pqm
      invariant seconds.Keys == plusMinus.Keys
      invariant forall pid :: pid in plusMinus ==>
                  plusMinus[pid] == PlusMinusOver(pqm[pid], quarterDeltas) && seconds[pid] == PlayedSeconds(pqm[pid])
    {
      var pid := players[j];
      if pid in pqm && pid in roster {
        var entries := pqm[pid];
        var totalPlusMinus, totalSeconds := 0, 0;
        var k := 0;
        while k < |entries|
          invariant 0 <= k <= |entries|
          invariant totalPlusMinus == PlusMinusOver(entries[..k], quarterDeltas)
          invariant totalSeconds == PlayedSeconds(entries[..k])
        {
          var (q, secs) := entries[k];
          if secs > 0 {
            totalSeconds := totalSeconds + secs;
            totalPlusMinus := totalPlusMinus + DeltaOr0(quarterDeltas, q);
          }
          k := k + 1;
          assert entries[..k][..k - 1] == entries[..k - 1];
        }
        assert entries[..|entries|] == entries;
        seconds := seconds[pid := totalSeconds];
        plusMinus := plusMinus[pid := totalPlusMinus];
      }
      j := j + 1;
      assert players[..j] == players[..j - 1] + [pid];
    }
    assert players[..|players|] == players;
  }

  /** The replay of one match for the players of the roster: for each
      player whose replay credits any period, the plus/minus and the
      seconds played. */
  method ReplayMatch(matchMovs: seq<Movement>, roster: set<PlayerId>, esMini: bool,
                     minsPerPeriod: int, isLocal: bool)
    returns (plusMinus: map<PlayerId, int>, seconds: map<PlayerId, int>)
    ensures var movs := SortMovements(matchMovs);
            forall pid :: pid in plusMinus <==> pid in roster && SecondsOf(movs, pid, minsPerPeriod) != []
    ensures seconds.Keys == plusMinus.Keys
    ensures var movs := SortMovements(matchMovs);
            var deltas := QuarterDeltas(Snapshots(movs), esMini, isLocal);
            forall pid :: pid in plusMinus ==>
              && plusMinus[pid] == PlusMinusOver(SecondsOf(movs, pid, minsPerPeriod), deltas)
              && seconds[pid] == PlayedSeconds(SecondsOf(movs, pid, minsPerPeriod))
  {
    var movs := SortMovements(matchMovs);
    var quarterDeltas := ComputeQuarterDeltas(movs, esMini, isLocal);
    var pqm, events, players := ReplayMinutes(movs, minsPerPeriod);
    pqm := FillWholePeriods(movs, minsPerPeriod, pqm, events, players);
    plusMinus, seconds := Aggregate(pqm, players, roster, quarterDeltas);
  }

  // ---------------------------------------------------------------------
  // All matches
  // ---------------------------------------------------------------------

  /** The movements of one match, in the order of `movements`. */
  function ByMatch(movements: seq<Movement>, mid: MatchId): (own: seq<Movement>)
    ensures forall m :: m in own ==> m in movements && m.matchId == mid
  {
    if movements == [] then []
    else
      var rest := ByMatch(movements[..|movements| - 1], mid);
      var last := movements[|movements| - 1];
      if last.matchId == mid then rest + [last] else rest
  }

  /** The movements of one match in replay order. */
  function MatchMovements(movements: seq<Movement>, mid: MatchId): seq<Movement>
  {
    SortMovements(ByMatch(movements, mid))
  }

  /** The quarter deltas of one match, from the side of the team; a match
      whose side is unknown counts as away (`matchIsLocal[matchId]` is
      then `undefined`). */
  function MatchDeltas(movements: seq<Movement>, mid: MatchId, esMini: bool,
                       matchIsLocal: map<MatchId, bool>): map<int, Option<int>>
  {
    QuarterDeltas(Snapshots(MatchMovements(movements, mid)), esMini, GetOr(matchIsLocal, mid, false))
  }

  /** The (match, player) pairs that occur in the movements. */
  function Appearances(movements: seq<Movement>): set<(MatchId, PlayerId)>
  {
    set m | m in movements :: (m.matchId, m.playerId)
  }

  /** A pair gets a value when its player is on the roster and the replay
      of its match credits the player with some period. */
  predicate Credited(movements: seq<Movement>, roster: set<PlayerId>, minsPerPeriod: int, mid: MatchId, pid: PlayerId)
  {
    pid in roster && SecondsOf(MatchMovements(movements, mid), pid, minsPerPeriod) != []
  }

  /** The plus/minus of a (match, player) pair, when the pair is credited. */
  function PairPlusMinus(movements: seq<Movement>, roster: set<PlayerId>, esMini: bool, minsPerPeriod: int,
                         matchIsLocal: map<MatchId, bool>): (MatchId, PlayerId) -> Option<int>
  {
    (mid, pid) =>
      if Credited(movements, roster, minsPerPeriod, mid, pid)
      then Some(PlusMinusOver(SecondsOf(MatchMovements(movements, mid), pid, minsPerPeriod),
                              MatchDeltas(movements, mid, esMini, matchIsLocal)))
      else None
  }

  /** The seconds played of a (match, player) pair, when the pair is
      credited. */
  function PairSeconds(movements: seq<Movement>, roster: set<PlayerId>,
                       minsPerPeriod: int): (MatchId, PlayerId) -> Option<int>
  {
    (mid, pid) =>
      if Credited(movements, roster, minsPerPeriod, mid, pid)
      then Some(PlayedSeconds(SecondsOf(MatchMovements(movements, mid), pid, minsPerPeriod)))
      else None
  }

  /** `playerPlusMinus`: the plus/minus of every credited pair. */
  function PlusMinusTable(movements: seq<Movement>, roster: set<PlayerId>, esMini: bool,
                          minsPerPeriod: int, matchIsLocal: map<MatchId, bool>): map<(MatchId, PlayerId), int>
  {
    Table(Appearances(movements), PairPlusMinus(movements, roster, esMini, minsPerPeriod, matchIsLocal))
  }

  /** `playerSeconds`: the seconds played of every credited pair. */
  function SecondsTable(movements: seq<Movement>, roster: set<PlayerId>,
                        minsPerPeriod: int): map<(MatchId, PlayerId), int>
  {
    Table(Appearances(movements), PairSeconds(movements, roster, minsPerPeriod))
  }

  /** A player is credited with seconds only after a movement of their own. */
  lemma SecondsNeedMovement(movs: seq<Movement>, pid: PlayerId, minsPerPeriod: int)
    ensures SecondsOf(movs, pid, minsPerPeriod) != [] ==> exists m :: m in movs && m.playerId == pid
  {
    var own := PlayerMovements(movs, pid);
    if own == [] {
      assert LineOf(movs, pid, minsPerPeriod) == Line(None, [], []);
      assert SecondsOf(movs, pid, minsPerPeriod) == [];
    } else {
      assert own[0] in own;
    }
  }

  /** A credited pair occurs in the movements. */
  lemma CreditedAppears(movements: seq<Movement>, roster: set<PlayerId>, minsPerPeriod: int, mid: MatchId, pid: PlayerId)
    ensures Credited(movements, roster, minsPerPeriod, mid, pid) ==> (mid, pid) in Appearances(movements)
  {
    if Credited(movements, roster, minsPerPeriod, mid, pid) {
      SecondsNeedMovement(MatchMovements(movements, mid), pid, minsPerPeriod);
      var m :| m in MatchMovements(movements, mid) && m.playerId == pid;
      assert m in multiset(ByMatch(movements, mid));
      assert m in movements && (m.matchId, m.playerId) == (mid, pid);
    }
  }

  /** The tables hold exactly the credited pairs: nobody outside the roster,
      and nobody the replay of the match credits with no period, gets a
      plus/minus or a time. */
  lemma TableKeys(movements: seq<Movement>, roster: set<PlayerId>, esMini: bool, minsPerPeriod: int,
                  matchIsLocal: map<MatchId, bool>, mid: MatchId, pid: PlayerId)
    ensures (mid, pid) in PlusMinusTable(movements, roster, esMini, minsPerPeriod, matchIsLocal) <==>
            Credited(movements, roster, minsPerPeriod, mid, pid)
    ensures (mid, pid) in SecondsTable(movements, roster, minsPerPeriod) <==>
            Credited(movements, roster, minsPerPeriod, mid, pid)
  {
    CreditedAppears(movements, roster, minsPerPeriod, mid, pid);
  }

  /** A match without movements credits nobody. */
  lemma NoMovementsNoCredit(movements: seq<Movement>, roster: set<PlayerId>, minsPerPeriod: int, mid: MatchId, pid: PlayerId)
    requires ByMatch(movements, mid) == []
    ensures !Credited(movements, roster, minsPerPeriod, mid, pid)
  {
    assert MatchMovements(movements, mid) == [];
    assert LineOf([], pid, minsPerPeriod) == Line(None, [], []);
  }

  /** The replay of one match gives what the pair functions give for it. */
  lemma ReplayAgrees(movements: seq<Movement>, roster: set<PlayerId>, esMini: bool, minsPerPeriod: int,
                     matchIsLocal: map<MatchId, bool>, mid: MatchId, pm: map<PlayerId, int>, secs: map<PlayerId, int>)
    requires var movs := SortMovements(ByMatch(movements, mid));
             forall pid :: pid in pm <==> pid in roster && SecondsOf(movs, pid, minsPerPeriod) != []
    requires secs.Keys == pm.Keys
    requires var movs := SortMovements(ByMatch(movements, mid));
             var deltas := QuarterDeltas(Snapshots(movs), esMini, GetOr(matchIsLocal, mid, false));
             forall pid :: pid in pm ==>
               && pm[pid] == PlusMinusOver(SecondsOf(movs, pid, minsPerPeriod), deltas)
               && secs[pid] == PlayedSeconds(SecondsOf(movs, pid, minsPerPeriod))
    ensures var want := PairPlusMinus(movements, roster, esMini, minsPerPeriod, matchIsLocal);
            && (forall pid :: pid in pm <==> want(mid, pid).Some?)
            && (forall pid :: pid in pm ==> pm[pid] == want(mid, pid).value)
    ensures var want := PairSeconds(movements, roster, minsPerPeriod);
            && (forall pid :: pid in secs <==> want(mid, pid).Some?)
            && (forall pid :: pid in secs ==> secs[pid] == want(mid, pid).value)
  {
  }

  /** `ReplayMatch` on the movements of match `mid`, with the side of the
      team in that match, stated through the pair functions. */
  method ReplayOf(movements: seq<Movement>, own: seq<Movement>, roster: set<PlayerId>, esMini: bool,
                  minsPerPeriod: int, matchIsLocal: map<MatchId, bool>, mid: MatchId)
    returns (pm: map<PlayerId, int>, secs: map<PlayerId, int>)
    requires own == ByMatch(movements, mid)
    ensures var want := PairPlusMinus(movements, roster, esMini, minsPerPeriod, matchIsLocal);
            && (forall pid :: pid in pm <==> want(mid, pid).Some?)
            && (forall pid :: pid in pm ==> pm[pid] == want(mid, pid).value)
    ensures var want := PairSeconds(movements, roster, minsPerPeriod);
            && (forall pid :: pid in secs <==> want(mid, pid).Some?)
            && (forall pid :: pid in secs ==> secs[pid] == want(mid, pid).value)
  {
    pm, secs := ReplayMatch(own, roster, esMini, minsPerPeriod, GetOr(matchIsLocal, mid, false));
    ReplayAgrees(movements, roster, esMini, minsPerPeriod, matchIsLocal, mid, pm, secs);
  }

  /** Every credited pair occurs in the movements, in one of the matches
      that have movements. */
  lemma CreditedInMatches(movements: seq<Movement>, roster: set<PlayerId>, esMini: bool, minsPerPeriod: int,
                          matchIsLocal: map<MatchId, bool>, matchIds: seq<MatchId>)
    requires forall mid :: mid !in matchIds ==> ByMatch(movements, mid) == []
    ensures forall k: (MatchId, PlayerId) :: PairPlusMinus(movements, roster, esMini, minsPerPeriod, matchIsLocal)(k.0, k.1).Some? ==>
              k in Appearances(movements) && k.0 in matchIds
    ensures forall k: (MatchId, PlayerId) :: PairSeconds(movements, roster, minsPerPeriod)(k.0, k.1).Some? ==>
              k in Appearances(movements) && k.0 in matchIds
  {
    forall k: (MatchId, PlayerId) | Credited(movements, roster, minsPerPeriod, k.0, k.1)
      ensures k in Appearances(movements) && k.0 in matchIds
    {
      var (mid, pid) := k;
      CreditedAppears(movements, roster, minsPerPeriod, mid, pid);
      if mid !in matchIds {
        NoMovementsNoCredit(movements, roster, minsPerPeriod, mid, pid);
      }
    }
  }

  /** `calculatePlusMinusFromMovements`: the movements grouped by match,
      each match replayed on its own, and the results of all matches
      merged under (match, player) keys. */
  method CalculatePlusMinus(movements: seq<Movement>, roster: set<PlayerId>, esMini: bool,
                            minsPerPeriod: int, matchIsLocal: map<MatchId, bool>)
    returns (plusMinus: map<(MatchId, PlayerId), int>, seconds: map<(MatchId, PlayerId), int>)
    ensures plusMinus == PlusMinusTable(movements, roster, esMini, minsPerPeriod, matchIsLocal)
    ensures seconds == SecondsTable(movements, roster, minsPerPeriod)
  {
    ghost var pmOf := PairPlusMinus(movements, roster, esMini, minsPerPeriod, matchIsLocal);
    ghost var secsOf := PairSeconds(movements, roster, minsPerPeriod);
    var byMatch, matchIds := GroupByMatch(movements);
    plusMinus, seconds := map[], map[];
    var j := 0;
    while j < |matchIds|
      invariant 0 <= j <= |matchIds|
      invariant Agrees(plusMinus, matchIds[..j], pmOf)
      invariant Agrees(seconds, matchIds[..j], secsOf)
    {
      var mid := matchIds[j];
      var pm, secs := ReplayOf(movements, byMatch[mid], roster, esMini, minsPerPeriod, matchIsLocal, mid);
      MergeStep(plusMinus, matchIds[..j], mid, pm, pmOf);
      MergeStep(seconds, matchIds[..j], mid, secs, secsOf);
      plusMinus := plusMinus + Lift(mid, pm);
      seconds := seconds + Lift(mid, secs);
      assert matchIds[..j + 1] == matchIds[..j] + [mid];
      j := j + 1;
    }
    assert matchIds[..|matchIds|] == matchIds;
    CreditedInMatches(movements, roster, esMini, minsPerPeriod, matchIsLocal, matchIds);
    AgreesIsTable(plusMinus, matchIds, pmOf, Appearances(movements));
    AgreesIsTable(seconds, matchIds, secsOf, Appearances(movements));
  }

  /** `movementsByMatch`: the movements of every match, and the matches in
      order of first appearance. */
  method GroupByMatch(movements: seq<Movement>) returns (byMatch: map<MatchId, seq<Movement>>, matchIds: seq<MatchId>)
    ensures Distinct(matchIds)
    ensures forall mid :: mid in byMatch <==> mid in matchIds
    ensures forall mid :: mid in byMatch ==> byMatch[mid] == ByMatch(movements, mid)
    ensures forall mid :: mid !in matchIds ==> ByMatch(movements, mid) == []
  {
    byMatch, matchIds := map[], [];
    var i := 0;
    while i < |movements|
      invariant 0 <= i <= |movements|
      invariant Distinct(matchIds)
      invariant forall mid :: mid in byMatch <==> mid in matchIds
      invariant forall mid :: GetOr(byMatch, mid, []) == ByMatch(movements[..i], mid)
      invariant forall mid :: mid in byMatch ==> byMatch[mid] != []
    {
      var m := movements[i];
      if m.matchId !in byMatch {
        byMatch := byMatch[m.matchId := []];
        matchIds := matchIds + [m.matchId];
      }
      byMatch := byMatch[m.matchId := byMatch[m.matchId] + [m]];
      assert movements[..i + 1][..i] == movements[..i];
      i := i + 1;
    }
    assert movements[..|movements|] == movements;
  }
}
