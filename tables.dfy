/** Tables keyed by (match, player), filled one match at a time. */
module Tables {
  import opened Common
  import opened Model

  /** The map of the pairs of `domain` that `value` gives a value for. */
  function Table<V>(domain: set<(MatchId, PlayerId)>, value: (MatchId, PlayerId) -> Option<V>): map<(MatchId, PlayerId), V>
  {
    map k | k in domain && value(k.0, k.1).Some? :: value(k.0, k.1).value
  }

  /** A player's results in one match, re-keyed by (match, player). */
  function Lift<V>(mid: MatchId, r: map<PlayerId, V>): (lifted: map<(MatchId, PlayerId), V>)
    ensures forall k :: k in lifted <==> k.0 == mid && k.1 in r
    ensures forall pid :: pid in r ==> lifted[(mid, pid)] == r[pid]
  {
    map pid | pid in r :: (mid, pid) := r[pid]
  }

  /** `acc` holds, for the matches of `ids`, exactly the pairs `want`
      gives a value for, with that value. */
  ghost predicate Agrees<V(!new)>(acc: map<(MatchId, PlayerId), V>, ids: seq<MatchId>,
                                  want: (MatchId, PlayerId) -> Option<V>)
  {
    && (forall k :: k in acc <==> k.0 in ids && want(k.0, k.1).Some?)
    && (forall k :: k in acc ==> acc[k] == want(k.0, k.1).value)
  }

  /** Merging the results of one more match keeps `Agrees`. */
  lemma MergeStep<V(!new)>(acc: map<(MatchId, PlayerId), V>, ids: seq<MatchId>, mid: MatchId,
                           r: map<PlayerId, V>, want: (MatchId, PlayerId) -> Option<V>)
    requires Agrees(acc, ids, want)
    requires forall pid :: pid in r <==> want(mid, pid).Some?
    requires forall pid :: pid in r ==> r[pid] == want(mid, pid).value
    ensures Agrees(acc + Lift(mid, r), ids + [mid], want)
  {
    var lifted := Lift(mid, r);
    var acc' := acc + lifted;
    forall k: (MatchId, PlayerId)
      ensures k in acc' <==> k.0 in ids + [mid] && want(k.0, k.1).Some?
      ensures k in acc' ==> acc'[k] == want(k.0, k.1).value
    {
      var (m, p) := k;
      assert k in acc <==> m in ids && want(m, p).Some?;
      if m == mid {
        assert k in lifted <==> p in r;
        assert p in r <==> want(mid, p).Some?;
        assert m in ids + [mid];
        if p in r {
          assert acc'[k] == lifted[(mid, p)] == r[p];
        }
      } else {
        assert k !in lifted;
        assert m in ids + [mid] <==> m in ids;
      }
    }
  }

  /** Once every pair `want` gives a value for lies in `domain` and in a
      match of `ids`, a map that agrees with `want` is its table. */
  lemma AgreesIsTable<V(!new)>(acc: map<(MatchId, PlayerId), V>, ids: seq<MatchId>,
                               want: (MatchId, PlayerId) -> Option<V>, domain: set<(MatchId, PlayerId)>)
    requires Agrees(acc, ids, want)
    requires forall k: (MatchId, PlayerId) :: want(k.0, k.1).Some? ==> k in domain && k.0 in ids
    ensures acc == Table(domain, want)
  {
    var t := Table(domain, want);
    assert forall k :: k in acc <==> k in t;
    assert acc.Keys == t.Keys;
  }
}
