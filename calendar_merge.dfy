/** `fetchCompeticionDetails`: the competition calendar merged with the
    matches on record, and the `cal_` ids that pending fixtures carry in
    the merged list (and that `deleteMatch` takes apart again). */
module CalendarMerge {
  import opened Common
  import opened Text
  import opened Model

  // ---------------------------------------------------------------------
  // Match ids as text
  // ---------------------------------------------------------------------

  /** `String(i)` for a whole number. */
  function IntToString(i: int): string
  {
    if i < 0 then "-" + NatToString(-i) else NatToString(i)
  }

  /** The prefix of the id of a pending fixture. */
  const CalendarPrefix := "cal_"

  /** `String(m.id)` in the merged list: a match on record keeps its id, a
      pending fixture is `cal_<calendar id>`. */
  function KeyText(k: MatchKey): string
  {
    match k
    case Real(id) => IntToString(id)
    case Pending(c) => CalendarPrefix + IntToString(c)
  }

  /** The two tables `deleteMatch` may delete from. */
  datatype StoredIn = Partidos | Calendario

  /** `deleteMatch`: an id with the `cal_` prefix names a calendar row, by
      the text after the prefix; any other id names a match. */
  function DeletionOf(text: string): (StoredIn, string)
  {
    if |text| >= |CalendarPrefix| && text[..|CalendarPrefix|] == CalendarPrefix
    then (Calendario, text[|CalendarPrefix|..])
    else (Partidos, text)
  }

  /** The text of a whole number reads back as that number. */
  lemma IntToStringParses(i: int)
    ensures ParseInt10(IntToString(i)) == Some(i)
    ensures IntToString(i) != [] && (IntToString(i)[0] == '-' || IsDigit(IntToString(i)[0]))
  {
    if i < 0 {
      var digits := NatToString(-i);
      var t := "-" + digits;
      assert !IsSpace(t[0]);
      assert TrimStart(t) == t;
      assert t[1..] == digits;
      assert SkipSign(t) == (true, digits);
      assert RunLength(digits, IsDigit) == |digits|;
      assert digits[..|digits|] == digits;
    } else {
      ParseIntNatToString(i);
    }
  }

  /** Deleting an entry of the merged list deletes the row it came from: the
      calendar row of a pending fixture, the match of a match on record. */
  lemma DeletionRoundTrip(k: MatchKey)
    ensures k.Real? ==> DeletionOf(KeyText(k)).0 == Partidos && ParseInt10(DeletionOf(KeyText(k)).1) == Some(k.id)
    ensures k.Pending? ==> DeletionOf(KeyText(k)).0 == Calendario && ParseInt10(DeletionOf(KeyText(k)).1) == Some(k.calendarId)
  {
    match k
    case Real(id) =>
      DeletionOfReal(id);
      IntToStringParses(id);
    case Pending(c) =>
      DeletionOfPending(c);
      IntToStringParses(c);
  }

  lemma DeletionOfReal(id: int)
    ensures DeletionOf(IntToString(id)) == (Partidos, IntToString(id))
  {
    IntToStringParses(id);
    var t := IntToString(id);
    assert |t| >= 4 ==> t[..4][0] == t[0];
  }

  lemma DeletionOfPending(c: int)
    ensures DeletionOf(CalendarPrefix + IntToString(c)) == (Calendario, IntToString(c))
  {
    var t := CalendarPrefix + IntToString(c);
    assert t[..4] == CalendarPrefix;
    assert t[4..] == IntToString(c);
  }

  // ---------------------------------------------------------------------
  // The merge
  // ---------------------------------------------------------------------

  /** `availableRealMatches.findIndex(..)`: the first match still available
      between the home and away teams of the fixture. */
  function MatchFor(available: seq<Match>, cal: CalendarEntry): (i: Option<nat>)
    ensures i.Some? ==> i.value < |available| && SameFixture(cal, available[i.value])
    ensures i.Some? ==> forall j :: 0 <= j < i.value ==> !SameFixture(cal, available[j])
    ensures i.None? ==> forall j :: 0 <= j < |available| ==> !SameFixture(cal, available[j])
  {
    if available == [] then None
    else if SameFixture(cal, available[0]) then Some(0)
    else
      match MatchFor(available[1..], cal)
      case None => None
      case Some(k) => Some(k + 1)
  }

  /** A match on record that fills a calendar slot: it takes the round of
      the slot and is marked as coming from the calendar. */
  function Taken(rm: Match, cal: CalendarEntry): Match
  {
    rm.(round := cal.round, fromCalendar := Some(true))
  }

  /** A calendar slot no match fills: a pending fixture known by its
      calendar id, with no score. */
  function PendingOf(cal: CalendarEntry): Match
  {
    Match(Pending(cal.id), cal.competitionId, cal.round, cal.home, cal.away, cal.date, None, None, Some(true))
  }

  /** A match on record that fills no calendar slot. */
  function Leftover(rm: Match): Match
  {
    rm.(fromCalendar := Some(false))
  }

  /** The leftover matches, each marked as not coming from the calendar. */
  function MarkLeftovers(s: seq<Match>): (r: seq<Match>)
    ensures |r| == |s|
    ensures forall i :: 0 <= i < |s| ==> r[i] == Leftover(s[i])
  {
    if s == [] then [] else MarkLeftovers(s[..|s| - 1]) + [Leftover(s[|s| - 1])]
  }

  function Remove(s: seq<Match>, i: nat): (r: seq<Match>)
    requires i < |s|
    ensures multiset(r) + multiset{s[i]} == multiset(s)
  {
    assert s == s[..i] + [s[i]] + s[i + 1..];
    s[..i] + s[i + 1..]
  }

  /** The items the calendar yields, slot by slot, and the matches left
      over once every slot has taken its match. */
  datatype Slotting = Slotting(items: seq<Match>, leftover: seq<Match>)

  function Slots(calendar: seq<CalendarEntry>, available: seq<Match>): (s: Slotting)
    ensures |s.items| == |calendar|
    decreases |calendar|
  {
    if calendar == [] then Slotting([], available)
    else
      var cal := calendar[0];
      match MatchFor(available, cal)
      case Some(i) =>
        var rest := Slots(calendar[1..], Remove(available, i));
        Slotting([Taken(available[i], cal)] + rest.items, rest.leftover)
      case None =>
        var rest := Slots(calendar[1..], available);
        Slotting([PendingOf(cal)] + rest.items, rest.leftover)
  }

  /** The order of the merged list: round ascending, then date ascending. */
  predicate RoundThenDate(a: Match, b: Match)
  {
    a.round < b.round || (a.round == b.round && a.date <= b.date)
  }

  lemma RoundThenDateIsTotalPreorder(s: seq<Match>)
    ensures TotalPreorderOn(RoundThenDate, s)
  {
  }

  /** The merged list: the slots of the calendar, then the leftover matches,
      sorted by round and date. */
  function Merged(played: seq<Match>, calendar: seq<CalendarEntry>): seq<Match>
  {
    var s := Slots(calendar, played);
    var all := s.items + MarkLeftovers(s.leftover);
    RoundThenDateIsTotalPreorder(all);
    SortWith(all, RoundThenDate)
  }

  /** The findIndex loop. */
  method FindMatchFor(available: seq<Match>, cal: CalendarEntry) returns (index: int)
    ensures -1 <= index < |available|
    ensures index == -1 <==> MatchFor(available, cal).None?
    ensures index != -1 ==> index == MatchFor(available, cal).value
  {
    index := 0;
    while index < |available|
      invariant 0 <= index <= |available|
      invariant forall j :: 0 <= j < index ==> !SameFixture(cal, available[j])
    {
      if SameFixture(cal, available[index]) {
        return;
      }
      index := index + 1;
    }
    index := -1;
  }

  /** The merge of `fetchCompeticionDetails`: each calendar fixture takes
      the first available match between the same teams, which is then no
      longer available, or becomes a pending fixture; the matches left over
      follow; the whole list is sorted by round and date. */
  method MergeCalendar(played: seq<Match>, calendar: seq<CalendarEntry>) returns (combined: seq<Match>)
    ensures combined == Merged(played, calendar)
  {
    var merged: seq<Match> := [];
    var available := played;
    var k := 0;
    while k < |calendar|
      invariant 0 <= k <= |calendar|
      invariant Slots(calendar, played) ==
                Slotting(merged + Slots(calendar[k..], available).items, Slots(calendar[k..], available).leftover)
    {
      var cal := calendar[k];
      assert calendar[k..][1..] == calendar[k + 1..];
      var i := FindMatchFor(available, cal);
      if i != -1 {
        merged := merged + [Taken(available[i], cal)];
        available := available[..i] + available[i + 1..];
      } else {
        merged := merged + [PendingOf(cal)];
      }
      k := k + 1;
    }
    assert calendar[k..] == [];
    var j := 0;
    while j < |available|
      invariant 0 <= j <= |available|
      invariant merged == Slots(calendar, played).items + MarkLeftovers(available[..j])
    {
      assert available[..j + 1][..j] == available[..j];
      merged := merged + [Leftover(available[j])];
      j := j + 1;
    }
    assert available[..j] == available;
    RoundThenDateIsTotalPreorder(merged);
    combined := SortWith(merged, RoundThenDate);
  }

  // ---------------------------------------------------------------------
  // What the merge promises
  // ---------------------------------------------------------------------

  /** The keys of the matches on record in a list, in order. */
  function RealKeys(s: seq<Match>): seq<MatchKey>
  {
    if s == [] then []
    else if s[0].key.Real? then [s[0].key] + RealKeys(s[1..])
    else RealKeys(s[1..])
  }

  lemma {:induction false} RealKeysAppend(a: seq<Match>, b: seq<Match>)
    ensures RealKeys(a + b) == RealKeys(a) + RealKeys(b)
    decreases |a|
  {
    if a == [] {
      assert a + b == b;
    } else {
      assert (a + b)[0] == a[0];
      assert (a + b)[1..] == a[1..] + b;
      RealKeysAppend(a[1..], b);
    }
  }

  lemma RealKeysOne(x: Match)
    ensures RealKeys([x]) == if x.key.Real? then [x.key] else []
  {
    assert [x][1..] == [];
  }

  /** Taking one element out of a list takes its key out of the keys. */
  lemma RealKeysRemove(s: seq<Match>, i: nat)
    requires i < |s|
    ensures multiset(RealKeys(s[..i] + s[i + 1..])) + multiset(RealKeys([s[i]])) == multiset(RealKeys(s))
  {
    var a, x, c := s[..i], [s[i]], s[i + 1..];
    assert s == (a + x) + c;
    RealKeysAppend(a + x, c);
    RealKeysAppend(a, x);
    RealKeysAppend(a, c);
    var ka, kx, kc := RealKeys(a), RealKeys(x), RealKeys(c);
    assert RealKeys(s) == (ka + kx) + kc;
    assert multiset(RealKeys(s)) == multiset(ka) + multiset(kx) + multiset(kc);
    assert multiset(RealKeys(a + c)) == multiset(ka) + multiset(kc);
  }

  /** Lists that are permutations of each other hold the same keys. */
  lemma {:induction false} RealKeysPermutation(a: seq<Match>, b: seq<Match>)
    requires multiset(a) == multiset(b)
    ensures multiset(RealKeys(a)) == multiset(RealKeys(b))
    decreases |a|
  {
    if a == [] {
      assert |b| == |multiset(b)| == 0;
    } else {
      assert a[0] in multiset(b);
      var j :| 0 <= j < |b| && b[j] == a[0];
      var b' := b[..j] + b[j + 1..];
      assert b == b[..j] + [b[j]] + b[j + 1..];
      assert multiset(b) == multiset(b[..j]) + multiset{b[j]} + multiset(b[j + 1..]);
      assert a == [a[0]] + a[1..];
      assert multiset(a) == multiset{a[0]} + multiset(a[1..]);
      assert multiset(b') == multiset(b[..j]) + multiset(b[j + 1..]);
      assert multiset(a[1..]) == multiset(a) - multiset{a[0]};
      assert multiset(b') == multiset(b) - multiset{b[j]};
      RealKeysPermutation(a[1..], b');
      RealKeysRemove(b, j);
      RealKeysAppend([a[0]], a[1..]);
    }
  }

  /** Every match available to the slots ends up either in a slot or among
      the leftovers, exactly once. */
  lemma {:induction false} SlotsKeepEveryMatch(calendar: seq<CalendarEntry>, available: seq<Match>)
    ensures var s := Slots(calendar, available);
            multiset(RealKeys(s.items)) + multiset(RealKeys(s.leftover)) == multiset(RealKeys(available))
    decreases |calendar|
  {
    if calendar != [] {
      var cal := calendar[0];
      match MatchFor(available, cal)
      case Some(i) =>
        var rest := Remove(available, i);
        SlotsKeepEveryMatch(calendar[1..], rest);
        var s := Slots(calendar[1..], rest);
        RealKeysAppend([Taken(available[i], cal)], s.items);
        RealKeysOne(Taken(available[i], cal));
        RealKeysOne(available[i]);
        RealKeysRemove(available, i);
      case None =>
        SlotsKeepEveryMatch(calendar[1..], available);
        var s := Slots(calendar[1..], available);
        RealKeysAppend([PendingOf(cal)], s.items);
        RealKeysOne(PendingOf(cal));
    }
  }

  /** The matches still available once a fixture has taken its match. */
  function AfterSlot(available: seq<Match>, cal: CalendarEntry): seq<Match>
  {
    match MatchFor(available, cal)
    case Some(i) => Remove(available, i)
    case None => available
  }

  /** The item a fixture yields from the matches still available. */
  function SlotOf(available: seq<Match>, cal: CalendarEntry): Match
  {
    match MatchFor(available, cal)
    case Some(i) => Taken(available[i], cal)
    case None => PendingOf(cal)
  }

  /** The matches still available when the slot of fixture `k` is filled:
      those on record, less the ones the earlier fixtures took. */
  function AvailableAt(calendar: seq<CalendarEntry>, available: seq<Match>, k: nat): seq<Match>
    requires k <= |calendar|
    decreases k
  {
    if k == 0 then available
    else AvailableAt(calendar[1..], AfterSlot(available, calendar[0]), k - 1)
  }

  /** One turn of the slot loop: the first fixture yields its item and the
      rest of the calendar goes on with what is still available. */
  lemma SlotsStep(calendar: seq<CalendarEntry>, available: seq<Match>)
    requires calendar != []
    ensures Slots(calendar, available).items ==
            [SlotOf(available, calendar[0])] + Slots(calendar[1..], AfterSlot(available, calendar[0])).items
    ensures Slots(calendar, available).leftover == Slots(calendar[1..], AfterSlot(available, calendar[0])).leftover
  {
  }

  lemma {:induction false} SlotAt(calendar: seq<CalendarEntry>, available: seq<Match>, k: nat)
    requires k < |calendar|
    ensures Slots(calendar, available).items[k] == SlotOf(AvailableAt(calendar, available, k), calendar[k])
    ensures AvailableAt(calendar, available, k + 1) == AfterSlot(AvailableAt(calendar, available, k), calendar[k])
    decreases k
  {
    SlotsStep(calendar, available);
    if k > 0 {
      SlotAt(calendar[1..], AfterSlot(available, calendar[0]), k - 1);
      assert calendar[1..][k - 1] == calendar[k];
    }
  }

  /** What is still available was available from the start. */
  lemma {:induction false} AvailableAtWithin(calendar: seq<CalendarEntry>, available: seq<Match>, k: nat)
    requires k <= |calendar|
    ensures forall rm :: rm in AvailableAt(calendar, available, k) ==> rm in available
    decreases k
  {
    if k > 0 {
      var rest := AfterSlot(available, calendar[0]);
      AvailableAtWithin(calendar[1..], rest, k - 1);
      forall rm | rm in rest ensures rm in available {
        assert rm in multiset(rest);
      }
    }
  }

  /** Fixture `k` takes the first match between the same teams among those
      still available at its turn, with the fixture's round, and is pending
      when none is left; the match it takes is then no longer available to
      the next fixture. */
  lemma SlotFirstFit(calendar: seq<CalendarEntry>, available: seq<Match>, k: nat)
    requires k < |calendar|
    ensures MatchFor(AvailableAt(calendar, available, k), calendar[k]).Some? ==>
              Slots(calendar, available).items[k] ==
              Taken(AvailableAt(calendar, available, k)[MatchFor(AvailableAt(calendar, available, k), calendar[k]).value],
                    calendar[k])
    ensures MatchFor(AvailableAt(calendar, available, k), calendar[k]).None? ==>
              Slots(calendar, available).items[k] == PendingOf(calendar[k])
    ensures AvailableAt(calendar, available, k + 1) == AfterSlot(AvailableAt(calendar, available, k), calendar[k])
  {
    SlotAt(calendar, available, k);
  }

  /** Each calendar fixture yields one item: a match on record between the
      same teams, with the round of the fixture, or a pending fixture with
      no score; and a fixture between teams that have no match on record is
      always pending. */
  lemma SlotItem(calendar: seq<CalendarEntry>, available: seq<Match>, k: nat)
    requires k < |calendar|
    ensures var item := Slots(calendar, available).items[k];
            || item == PendingOf(calendar[k])
            || exists rm :: rm in available && SameFixture(calendar[k], rm) && item == Taken(rm, calendar[k])
    ensures (forall rm :: rm in available ==> !SameFixture(calendar[k], rm)) ==>
              Slots(calendar, available).items[k] == PendingOf(calendar[k])
  {
    var avail := AvailableAt(calendar, available, k);
    SlotAt(calendar, available, k);
    AvailableAtWithin(calendar, available, k);
    match MatchFor(avail, calendar[k])
    case Some(i) =>
      assert avail[i] in avail;
    case None =>
  }

  /** Once every fixture has had its turn, what is still available is the
      list of leftover matches. */
  lemma {:induction false} LeftoverIsWhatRemains(calendar: seq<CalendarEntry>, available: seq<Match>)
    ensures AvailableAt(calendar, available, |calendar|) == Slots(calendar, available).leftover
    decreases |calendar|
  {
    if calendar != [] {
      SlotsStep(calendar, available);
      LeftoverIsWhatRemains(calendar[1..], AfterSlot(available, calendar[0]));
    }
  }

  /** The merged list holds every match on record exactly as often as the
      matches on record do. */
  lemma MergedKeepsEveryMatch(played: seq<Match>, calendar: seq<CalendarEntry>)
    ensures multiset(RealKeys(Merged(played, calendar))) == multiset(RealKeys(played))
  {
    var s := Slots(calendar, played);
    var marked := MarkLeftovers(s.leftover);
    var all := s.items + marked;
    RoundThenDateIsTotalPreorder(all);
    var sorted := SortWith(all, RoundThenDate);
    assert sorted == Merged(played, calendar);
    RealKeysPermutation(sorted, all);
    RealKeysAppend(s.items, marked);
    SlotsKeepEveryMatch(calendar, played);
    LeftoverKeys(s.leftover);
    assert multiset(RealKeys(all)) == multiset(RealKeys(s.items)) + multiset(RealKeys(s.leftover));
  }

  /** The merged list has one item per calendar fixture, each of them
      present, plus one per leftover match, in round-then-date order. */
  lemma MergedShape(played: seq<Match>, calendar: seq<CalendarEntry>)
    ensures |Merged(played, calendar)| == |calendar| + |Slots(calendar, played).leftover|
    ensures SortedBy(Merged(played, calendar), RoundThenDate)
    ensures forall k :: 0 <= k < |calendar| ==> Slots(calendar, played).items[k] in Merged(played, calendar)
  {
    var s := Slots(calendar, played);
    var marked := MarkLeftovers(s.leftover);
    var all := s.items + marked;
    RoundThenDateIsTotalPreorder(all);
    var sorted := SortWith(all, RoundThenDate);
    assert sorted == Merged(played, calendar);
    forall k | 0 <= k < |calendar| ensures s.items[k] in sorted {
      assert all[k] == s.items[k];
      assert all[k] in multiset(sorted);
    }
  }

  lemma {:induction false} LeftoverKeys(s: seq<Match>)
    ensures RealKeys(MarkLeftovers(s)) == RealKeys(s)
    decreases |s|
  {
    if s != [] {
      var n := |s| - 1;
      LeftoverKeys(s[..n]);
      assert s == s[..n] + [s[n]];
      RealKeysAppend(MarkLeftovers(s[..n]), [Leftover(s[n])]);
      RealKeysAppend(s[..n], [s[n]]);
      RealKeysOne(s[n]);
      RealKeysOne(Leftover(s[n]));
    }
  }
}
