/** Small generic building blocks shared by the dashboard's modules: an
    optional value, left-to-right sums and filters over sequences, numeric
    records (`Record<number, number>`) kept as entry lists, ascending lists
    of distinct numbers (what `Object.keys(..).map(Number).sort((a, b) =>
    a - b)` yields in the program) and the sort that `Array.prototype.sort`
    performs with a consistent comparator. */
module Common {

  datatype Option<T> = None | Some(value: T)

  /** `m[k] || d`: the value stored under `k`, or `d` when there is none. */
  function GetOr<K, V>(m: map<K, V>, k: K, d: V): V
  {
    if k in m then m[k] else d
  }

  // ---------------------------------------------------------------------
  // Sums and filters, defined by their last element so that a loop that
  // walks a sequence from left to right keeps `acc == SumOf(s[..i], f)`.
  // ---------------------------------------------------------------------

  function SumOf<T>(s: seq<T>, f: T -> int): int
  {
    if s == [] then 0 else SumOf(s[..|s| - 1], f) + f(s[|s| - 1])
  }

  function RealSumOf<T>(s: seq<T>, f: T -> real): real
  {
    if s == [] then 0.0 else RealSumOf(s[..|s| - 1], f) + f(s[|s| - 1])
  }

  function Filter<T(!new)>(s: seq<T>, p: T -> bool): (r: seq<T>)
    ensures |r| <= |s|
    ensures forall x :: x in r <==> x in s && p(x)
  {
    if s == [] then []
    else if p(s[|s| - 1]) then Filter(s[..|s| - 1], p) + [s[|s| - 1]]
    else Filter(s[..|s| - 1], p)
  }

  /** The number of elements of `s` that satisfy `p`. */
  function CountOf<T(!new)>(s: seq<T>, p: T -> bool): nat
  {
    |Filter(s, p)|
  }

  lemma {:induction false} SumOfAppend<T>(a: seq<T>, b: seq<T>, f: T -> int)
    ensures SumOf(a + b, f) == SumOf(a, f) + SumOf(b, f)
    decreases |b|
  {
    if b == [] {
      assert a + b == a;
    } else {
      assert (a + b)[..|a + b| - 1] == a + b[..|b| - 1];
      SumOfAppend(a, b[..|b| - 1], f);
    }
  }

  lemma {:induction false} RealSumOfAppend<T>(a: seq<T>, b: seq<T>, f: T -> real)
    ensures RealSumOf(a + b, f) == RealSumOf(a, f) + RealSumOf(b, f)
    decreases |b|
  {
    if b == [] {
      assert a + b == a;
    } else {
      assert (a + b)[..|a + b| - 1] == a + b[..|b| - 1];
      RealSumOfAppend(a, b[..|b| - 1], f);
    }
  }

  lemma {:induction false} FilterAppend<T(!new)>(a: seq<T>, b: seq<T>, p: T -> bool)
    ensures Filter(a + b, p) == Filter(a, p) + Filter(b, p)
    decreases |b|
  {
    if b == [] {
      assert a + b == a;
    } else {
      assert (a + b)[..|a + b| - 1] == a + b[..|b| - 1];
      FilterAppend(a, b[..|b| - 1], p);
    }
  }

  /** Summing over a filter is summing the terms that pass it, zero otherwise. */
  lemma {:induction false} SumOfFilter<T(!new)>(s: seq<T>, p: T -> bool, f: T -> int)
    ensures SumOf(Filter(s, p), f) == SumOf(s, x => if p(x) then f(x) else 0)
    decreases |s|
  {
    if s != [] {
      SumOfFilter(s[..|s| - 1], p, f);
      if p(s[|s| - 1]) {
        SumOfAppend(Filter(s[..|s| - 1], p), [s[|s| - 1]], f);
        assert SumOf([s[|s| - 1]], f) == f(s[|s| - 1]) by {
          assert [s[|s| - 1]][..0] == [];
        }
      }
    }
  }

  /** Taking one element out of a sequence takes its value out of the sum. */
  lemma SumOfRemove<T>(b: seq<T>, j: nat, f: T -> int)
    requires j < |b|
    ensures SumOf(b, f) == SumOf(b[..j] + b[j + 1..], f) + f(b[j])
  {
    var front, back := b[..j + 1], b[j + 1..];
    assert b == front + back;
    SumOfAppend(front, back, f);
    assert front[..j] == b[..j];
    SumOfAppend(b[..j], back, f);
  }

  /** A sum does not depend on the order of the elements summed. */
  lemma {:induction false} SumOfPermutation<T>(a: seq<T>, b: seq<T>, f: T -> int)
    requires multiset(a) == multiset(b)
    ensures SumOf(a, f) == SumOf(b, f)
    decreases |a|
  {
    if a == [] {
      assert |b| == |multiset(b)| == 0;
    } else {
      var n := |a| - 1;
      var x := a[n];
      assert a == a[..n] + [x];
      assert multiset(a) == multiset(a[..n]) + multiset{x};
      assert x in multiset(b);
      var j :| 0 <= j < |b| && b[j] == x;
      var rest := b[..j] + b[j + 1..];
      assert multiset(rest) == multiset(b) - multiset{x} by {
        assert b == b[..j] + [x] + b[j + 1..];
        assert multiset(b) == multiset(b[..j]) + multiset{x} + multiset(b[j + 1..]);
      }
      SumOfPermutation(a[..n], rest, f);
      SumOfRemove(b, j, f);
    }
  }

  // ---------------------------------------------------------------------
  // A JavaScript record from numbers to numbers (`Record<number, number>`),
  // kept as its list of entries.
  // ---------------------------------------------------------------------

  type Entries = seq<(int, int)>

  /** The keys of a record, in the order the record holds them. */
  function Keys(r: Entries): seq<int>
  {
    if r == [] then [] else [r[0].0] + Keys(r[1..])
  }

  ghost predicate Distinct(s: seq<int>)
  {
    forall i, j :: 0 <= i < j < |s| ==> s[i] != s[j]
  }

  /** `r[k]`, or nothing when `k` is not a key. */
  function Lookup(r: Entries, k: int): (v: Option<int>)
    ensures v.Some? <==> k in Keys(r)
  {
    if r == [] then None
    else if r[0].0 == k then Some(r[0].1)
    else Lookup(r[1..], k)
  }

  /** `r[k] || 0`. */
  function ValueOr0(r: Entries, k: int): int
  {
    match Lookup(r, k)
    case Some(v) => v
    case None => 0
  }

  /** `r[k] = (r[k] || 0) + x`: updates the entry of `k` where it is, or
      appends a new one. */
  function AddAt(r: Entries, k: int, x: int): (r': Entries)
    ensures |r'| >= 1
  {
    if r == [] then [(k, x)]
    else if r[0].0 == k then [(k, r[0].1 + x)] + r[1..]
    else [r[0]] + AddAt(r[1..], k, x)
  }

  lemma {:induction false} AddAtLookup(r: Entries, k: int, x: int, j: int)
    ensures Lookup(AddAt(r, k, x), j) ==
            if j == k then Some(ValueOr0(r, k) + x) else Lookup(r, j)
    decreases |r|
  {
    if r == [] {
      assert AddAt(r, k, x) == [(k, x)];
    } else {
      var head := r[0];
      var rest := r[1..];
      if head.0 == k {
        var r' := AddAt(r, k, x);
        assert r' == [(k, head.1 + x)] + rest;
        assert r'[0].0 == k && r'[1..] == rest;
      } else {
        AddAtLookup(rest, k, x, j);
        var r' := AddAt(r, k, x);
        assert r' == [head] + AddAt(rest, k, x);
        assert r'[0] == head && r'[1..] == AddAt(rest, k, x);
      }
    }
  }

  /** A new key goes to the end; an existing key keeps its place. */
  lemma {:induction false} AddAtKeys(r: Entries, k: int, x: int)
    ensures Keys(AddAt(r, k, x)) == if k in Keys(r) then Keys(r) else Keys(r) + [k]
    decreases |r|
  {
    if r != [] && r[0].0 != k {
      AddAtKeys(r[1..], k, x);
      assert AddAt(r, k, x)[1..] == AddAt(r[1..], k, x);
    }
  }

  lemma AddAtDistinct(r: Entries, k: int, x: int)
    requires Distinct(Keys(r))
    ensures Distinct(Keys(AddAt(r, k, x)))
  {
    AddAtKeys(r, k, x);
  }

  /** The sum of the values of a record. */
  function Total(r: Entries): int
  {
    if r == [] then 0 else r[0].1 + Total(r[1..])
  }

  /** Adding `x` under one key adds `x` to the sum of the values. */
  lemma {:induction false} AddAtTotal(r: Entries, k: int, x: int)
    ensures Total(AddAt(r, k, x)) == Total(r) + x
    decreases |r|
  {
    if r != [] && r[0].0 != k {
      AddAtTotal(r[1..], k, x);
      assert AddAt(r, k, x)[1..] == AddAt(r[1..], k, x);
    } else if r != [] {
      assert AddAt(r, k, x)[1..] == r[1..];
    }
  }

  // ---------------------------------------------------------------------
  // Ascending lists of numbers.
  // ---------------------------------------------------------------------

  ghost predicate StrictlyIncreasing(s: seq<int>)
  {
    forall i, j :: 0 <= i < j < |s| ==> s[i] < s[j]
  }

  /** Adds `x` to the end of a list of distinct values unless it is there
      already (`Set.prototype.add`, which keeps insertion order). */
  function AddMember(s: seq<int>, x: int): (r: seq<int>)
    ensures forall y :: y in r <==> y in s || y == x
  {
    if x in s then s else s + [x]
  }

  /** Puts `x` into an ascending list of distinct numbers. */
  function InsertAscending(x: int, s: seq<int>): (r: seq<int>)
    requires StrictlyIncreasing(s)
    ensures StrictlyIncreasing(r)
    ensures forall y :: y in r <==> y == x || y in s
  {
    if s == [] then [x]
    else if x < s[0] then [x] + s
    else if x == s[0] then s
    else
      var t := InsertAscending(x, s[1..]);
      assert forall y :: y in t ==> s[0] < y;
      var r := [s[0]] + t;
      forall i, j | 0 <= i < j < |r|
        ensures r[i] < r[j]
      {
        var b := r[j];
        assert b == t[j - 1] && b in t;
        if i > 0 {
          assert r[i] == t[i - 1];
        }
      }
      r
  }

  /** The distinct values of `xs` in ascending order: what
      `Object.keys(record).map(Number).sort((a, b) => a - b)` gives for a
      record whose numeric keys are the values of `xs`. */
  function SortedDistinct(xs: seq<int>): (r: seq<int>)
    ensures StrictlyIncreasing(r)
    ensures forall y :: y in r <==> y in xs
  {
    if xs == [] then []
    else InsertAscending(xs[|xs| - 1], SortedDistinct(xs[..|xs| - 1]))
  }

  /** The largest value of `xs` below `p`, if any. */
  function MaxBelow(xs: seq<int>, p: int): (r: Option<int>)
    ensures r.None? <==> forall y :: y in xs ==> y >= p
    ensures r.Some? ==> r.value in xs && r.value < p && forall x :: x in xs && x < p ==> x <= r.value
  {
    if xs == [] then None
    else
      var pre, x := xs[..|xs| - 1], xs[|xs| - 1];
      assert xs == pre + [x];
      assert forall y :: y in xs <==> y in pre || y == x;
      var rest := MaxBelow(pre, p);
      if x >= p then
        assert (forall y :: y in xs ==> y >= p) ==> (forall y :: y in pre ==> y >= p);
        assert rest.None? ==> forall y :: y in xs ==> y >= p;
        rest
      else if rest.Some? && rest.value >= x then rest
      else Some(x)
  }

  /** In an ascending list holding exactly the values of `xs`, the value
      before `ps[i]` is the largest value of `xs` below it. */
  lemma PreviousIsMaxBelow(xs: seq<int>, ps: seq<int>, i: int)
    requires StrictlyIncreasing(ps)
    requires forall y :: y in ps <==> y in xs
    requires 0 <= i < |ps|
    ensures MaxBelow(xs, ps[i]) == if i == 0 then None else Some(ps[i - 1])
  {
    var r := MaxBelow(xs, ps[i]);
    if i == 0 {
      forall x | x in xs ensures x >= ps[0] {
        var k :| 0 <= k < |ps| && ps[k] == x;
      }
    } else {
      assert ps[i - 1] in xs;
      var k :| 0 <= k < |ps| && ps[k] == r.value;
      assert ps[i - 1] <= ps[k] < ps[i];
    }
  }

  // ---------------------------------------------------------------------
  // Insertion sort under a comparator that is a total preorder on the
  // elements being sorted.
  // ---------------------------------------------------------------------

  ghost predicate TotalPreorderOn<T(!new)>(le: (T, T) -> bool, s: seq<T>)
  {
    && (forall a, b :: a in s && b in s ==> le(a, b) || le(b, a))
    && (forall a, b, c :: a in s && b in s && c in s && le(a, b) && le(b, c) ==> le(a, c))
  }

  ghost predicate SortedBy<T>(s: seq<T>, le: (T, T) -> bool)
  {
    forall i, j :: 0 <= i < j < |s| ==> le(s[i], s[j])
  }

  lemma TotalPreorderOnSub<T(!new)>(le: (T, T) -> bool, s: seq<T>, t: seq<T>)
    requires TotalPreorderOn(le, s)
    requires forall x :: x in t ==> x in s
    ensures TotalPreorderOn(le, t)
  {
  }

  /** Puts `x` in front of the first element it may precede. */
  function Insert<T(!new)>(x: T, s: seq<T>, le: (T, T) -> bool): (r: seq<T>)
    requires SortedBy(s, le)
    requires TotalPreorderOn(le, [x] + s)
    ensures multiset(r) == multiset([x] + s)
    ensures SortedBy(r, le)
  {
    if s == [] || le(x, s[0]) then
      InsertFront(x, s, le);
      [x] + s
    else
      TotalPreorderOnSub(le, [x] + s, [x] + s[1..]);
      var t := Insert(x, s[1..], le);
      InsertBehind(x, s, t, le);
      [s[0]] + t
  }

  lemma InsertFront<T(!new)>(x: T, s: seq<T>, le: (T, T) -> bool)
    requires SortedBy(s, le)
    requires TotalPreorderOn(le, [x] + s)
    requires s == [] || le(x, s[0])
    ensures SortedBy([x] + s, le)
  {
    forall i, j | 0 <= i < j < |[x] + s| ensures le(([x] + s)[i], ([x] + s)[j]) {
      if i == 0 && j > 1 {
        assert x in [x] + s && s[0] in [x] + s && s[j - 1] in [x] + s;
        assert le(s[0], s[j - 1]);
      }
    }
  }

  lemma InsertBehind<T(!new)>(x: T, s: seq<T>, t: seq<T>, le: (T, T) -> bool)
    requires s != [] && !le(x, s[0])
    requires SortedBy(s, le) && SortedBy(t, le)
    requires TotalPreorderOn(le, [x] + s)
    requires multiset(t) == multiset([x] + s[1..])
    ensures multiset([s[0]] + t) == multiset([x] + s)
    ensures SortedBy([s[0]] + t, le)
  {
    assert s == [s[0]] + s[1..];
    assert x in [x] + s && s[0] in [x] + s;
    assert le(s[0], x);
    forall j | 0 <= j < |t| ensures le(s[0], t[j]) {
      assert t[j] in multiset([x] + s[1..]);
      if t[j] != x {
        assert t[j] in s[1..];
        var k :| 1 <= k < |s| && s[k] == t[j];
      }
    }
    assert multiset([s[0]] + t) == multiset([s[0]]) + multiset(t);
  }

  /** `Array.prototype.sort` with a comparator that is consistent on the
      elements: the result is a sorted permutation of the input. */
  function SortWith<T(!new)>(s: seq<T>, le: (T, T) -> bool): (r: seq<T>)
    requires TotalPreorderOn(le, s)
    ensures multiset(r) == multiset(s)
    ensures |r| == |s|
    ensures SortedBy(r, le)
  {
    if s == [] then []
    else
      TotalPreorderOnSub(le, s, s[1..]);
      var t := SortWith(s[1..], le);
      assert forall y :: y in t ==> y in s by {
        forall y | y in t ensures y in s {
          assert y in multiset(t);
        }
      }
      assert s == [s[0]] + s[1..];
      Insert(s[0], t, le)
  }
}
