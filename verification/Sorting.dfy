/** The contract of Go's sort.SliceStable and sort.Slice, as a function: a stable insertion sort. */
module Sorting {

  /** Insert after every element that does not have to come later. */
  function InsertBy<T>(sorted: seq<T>, x: T, before: (T, T) -> bool): seq<T> {
    if sorted == [] || !before(x, sorted[|sorted| - 1]) then sorted + [x]
    else InsertBy(sorted[..|sorted| - 1], x, before) + [sorted[|sorted| - 1]]
  }

  function SortBy<T>(xs: seq<T>, before: (T, T) -> bool): seq<T> {
    if xs == [] then [] else InsertBy(SortBy(xs[..|xs| - 1], before), xs[|xs| - 1], before)
  }

  /** A strict weak order: what Go asks of a less function. */
  ghost predicate StrictWeak<T(!new)>(before: (T, T) -> bool) {
    && (forall x :: !before(x, x))
    && (forall x, y, z :: before(x, y) && before(y, z) ==> before(x, z))
    && (forall x, y, z :: before(x, z) ==> before(x, y) || before(y, z))
  }

  ghost predicate Sorted<T>(xs: seq<T>, before: (T, T) -> bool) {
    forall i, j :: 0 <= i < j < |xs| ==> !before(xs[j], xs[i])
  }

  lemma {:induction false} InsertContents<T>(xs: seq<T>, x: T, before: (T, T) -> bool)
    ensures multiset(InsertBy(xs, x, before)) == multiset(xs) + multiset{x}
  {
    if xs != [] && before(x, xs[|xs| - 1]) {
      InsertContents(xs[..|xs| - 1], x, before);
      SplitLast(xs);
    }
  }

  lemma SplitLast<T>(xs: seq<T>)
    requires xs != []
    ensures xs == xs[..|xs| - 1] + [xs[|xs| - 1]]
    ensures multiset(xs) == multiset(xs[..|xs| - 1]) + multiset{xs[|xs| - 1]}
  {
    assert xs == xs[..|xs| - 1] + [xs[|xs| - 1]];
  }

  lemma {:induction false} InsertSorted<T(!new)>(xs: seq<T>, x: T, before: (T, T) -> bool)
    requires StrictWeak(before) && Sorted(xs, before)
    ensures Sorted(InsertBy(xs, x, before), before)
  {
    if xs != [] {
      var init, last := xs[..|xs| - 1], xs[|xs| - 1];
      if before(x, last) {
        InsertSorted(init, x, before);
        var ins := InsertBy(init, x, before);
        forall i | 0 <= i < |ins| ensures !before(last, ins[i]) {
          InsertMembers(init, x, before, ins[i]);
        }
      } else {
        forall i | 0 <= i < |xs| ensures !before(x, xs[i]) {
          var y := xs[i];
          assert before(x, y) ==> before(x, last) || before(last, y);
        }
      }
    }
  }

  lemma {:induction false} SortSorts<T(!new)>(xs: seq<T>, before: (T, T) -> bool)
    requires StrictWeak(before)
    ensures Sorted(SortBy(xs, before), before)
    ensures multiset(SortBy(xs, before)) == multiset(xs)
    ensures |SortBy(xs, before)| == |xs|
  {
    if xs != [] {
      SortSorts(xs[..|xs| - 1], before);
      InsertSorted(SortBy(xs[..|xs| - 1], before), xs[|xs| - 1], before);
      InsertContents(SortBy(xs[..|xs| - 1], before), xs[|xs| - 1], before);
      SplitLast(xs);
    }
    assert |SortBy(xs, before)| == |multiset(SortBy(xs, before))|;
  }

  function Filter<T>(xs: seq<T>, keep: T -> bool): seq<T> {
    if xs == [] then []
    else Filter(xs[..|xs| - 1], keep) + if keep(xs[|xs| - 1]) then [xs[|xs| - 1]] else []
  }

  lemma {:induction false} FilterConcat<T>(a: seq<T>, b: seq<T>, keep: T -> bool)
    ensures Filter(a + b, keep) == Filter(a, keep) + Filter(b, keep)
    decreases |b|
  {
    if b == [] {
      assert a + b == a;
    } else {
      assert (a + b)[..|a + b| - 1] == a + b[..|b| - 1];
      FilterConcat(a, b[..|b| - 1], keep);
    }
  }

  lemma {:induction false} FilterIn<T>(xs: seq<T>, keep: T -> bool, x: T)
    ensures x in Filter(xs, keep) <==> x in xs && keep(x)
  {
    if xs != [] {
      FilterIn(xs[..|xs| - 1], keep, x);
    }
  }

  /** Filtering twice is filtering for both. */
  lemma {:induction false} FilterNarrows<T>(xs: seq<T>, wide: T -> bool, also: T -> bool, narrow: T -> bool)
    requires forall x :: x in xs ==> (narrow(x) <==> wide(x) && also(x))
    ensures Filter(xs, narrow) == Filter(Filter(xs, wide), also)
  {
    if xs != [] {
      var init, last := xs[..|xs| - 1], xs[|xs| - 1];
      FilterNarrows(init, wide, also, narrow);
      assert last in xs;
      var f := Filter(init, wide);
      FilterConcat(f, if wide(last) then [last] else [], also);
      assert [last][..0] == [];
    }
  }

  lemma {:induction false} FilterAgrees<T>(xs: seq<T>, p: T -> bool, q: T -> bool)
    requires forall x :: x in xs ==> p(x) == q(x)
    ensures Filter(xs, p) == Filter(xs, q)
  {
    if xs != [] {
      assert xs[|xs| - 1] in xs;
      FilterAgrees(xs[..|xs| - 1], p, q);
    }
  }

  lemma {:induction false} FilterSnoc<T>(xs: seq<T>, x: T, keep: T -> bool)
    ensures Filter(xs + [x], keep) == Filter(xs, keep) + if keep(x) then [x] else []
  {
    assert (xs + [x])[..|xs|] == xs;
  }

  /** The n-th of those kept stands at `y`: what is kept before it stood before `y`, and what after, after. */
  ghost predicate StandsAt<T>(xs: seq<T>, keep: T -> bool, own: seq<T>, n: nat, y: nat)
    requires n < |own|
  {
    && y < |xs| && xs[y] == own[n] && keep(xs[y])
    && own[..n] == Filter(xs[..y], keep) && own[n + 1..] == Filter(xs[y + 1..], keep)
  }

  lemma {:induction false} StandsAsBefore<T>(xs: seq<T>, x: T, keep: T -> bool, own: seq<T>, more: seq<T>, n: nat,
          y: nat)
    requires n < |own| && StandsAt(xs, keep, own, n, y) && more == if keep(x) then [x] else []
    ensures StandsAt(xs + [x], keep, own + more, n, y)
  {
    FilterSnoc(xs[y + 1..], x, keep);
    assert (xs + [x])[..y] == xs[..y] && (xs + [x])[y + 1..] == xs[y + 1..] + [x];
    assert (own + more)[..n] == own[..n] && (own + more)[n + 1..] == own[n + 1..] + more;
  }

  lemma {:induction false} StandsLast<T>(xs: seq<T>, x: T, keep: T -> bool)
    requires keep(x)
    ensures |Filter(xs + [x], keep)| == |Filter(xs, keep)| + 1
    ensures StandsAt(xs + [x], keep, Filter(xs + [x], keep), |Filter(xs, keep)|, |xs|)
  {
    FilterSnoc(xs, x, keep);
    assert (xs + [x])[..|xs|] == xs && (xs + [x])[|xs| + 1..] == [];
  }

  lemma {:induction false} FilterAt<T>(xs: seq<T>, keep: T -> bool, n: nat) returns (y: nat)
    requires n < |Filter(xs, keep)|
    ensures StandsAt(xs, keep, Filter(xs, keep), n, y)
    decreases |xs|
  {
    var init, last := xs[..|xs| - 1], xs[|xs| - 1];
    assert xs == init + [last];
    FilterSnoc(init, last, keep);
    if n < |Filter(init, keep)| {
      y := FilterAt(init, keep, n);
      StandsAsBefore(init, last, keep, Filter(init, keep), if keep(last) then [last] else [], n, y);
    } else {
      y := |init|;
      StandsLast(init, last, keep);
    }
  }

  /** Stability: elements no two of which the order separates keep their relative order. */
  lemma {:induction false} SortStable<T>(xs: seq<T>, before: (T, T) -> bool, group: T -> bool)
    requires forall x, y :: x in xs && y in xs && group(x) && group(y) ==> !before(x, y)
    ensures Filter(SortBy(xs, before), group) == Filter(xs, group)
  {
    if xs != [] {
      var init, last := xs[..|xs| - 1], xs[|xs| - 1];
      SortStable(init, before, group);
      forall y | y in SortBy(init, before) && group(y) && group(last) ensures !before(last, y) {
        SortMembers(init, before, y);
        assert y in xs && last in xs;
      }
      InsertStable(SortBy(init, before), last, before, group);
    }
  }

  lemma {:induction false} InsertStable<T>(xs: seq<T>, x: T, before: (T, T) -> bool, group: T -> bool)
    requires group(x) ==> forall y :: y in xs && group(y) ==> !before(x, y)
    ensures Filter(InsertBy(xs, x, before), group) == Filter(xs, group) + if group(x) then [x] else []
  {
    if xs == [] || !before(x, xs[|xs| - 1]) {
      assert (xs + [x])[..|xs|] == xs;
    } else {
      var init, last := xs[..|xs| - 1], xs[|xs| - 1];
      InsertStable(init, x, before, group);
      var ins := InsertBy(init, x, before);
      assert (ins + [last])[..|ins|] == ins;
    }
  }

  lemma {:induction false} SortMembers<T>(xs: seq<T>, before: (T, T) -> bool, x: T)
    ensures x in SortBy(xs, before) <==> x in xs
  {
    if xs != [] {
      SortMembers(xs[..|xs| - 1], before, x);
      InsertMembers(SortBy(xs[..|xs| - 1], before), xs[|xs| - 1], before, x);
    }
  }

  lemma {:induction false} InsertMembers<T>(xs: seq<T>, x: T, before: (T, T) -> bool, y: T)
    ensures y in InsertBy(xs, x, before) <==> y == x || y in xs
  {
    if xs != [] && before(x, xs[|xs| - 1]) {
      InsertMembers(xs[..|xs| - 1], x, before, y);
    }
  }

  lemma LastIsShared<T(!new)>(xs: seq<T>, ys: seq<T>, before: (T, T) -> bool)
    requires xs != [] && ys != [] && multiset(xs) == multiset(ys)
    requires Sorted(xs, before) && Sorted(ys, before)
    requires forall x, y :: x in xs && y in xs && x != y ==> before(x, y) || before(y, x)
    ensures xs[|xs| - 1] == ys[|ys| - 1]
  {
    var x, y := xs[|xs| - 1], ys[|ys| - 1];
    assert x in multiset(ys) && y in multiset(xs);
    var i :| 0 <= i < |ys| && ys[i] == x;
    var j :| 0 <= j < |xs| && xs[j] == y;
  }

  lemma CancelOne<T>(a: multiset<T>, b: multiset<T>, x: T)
    requires a + multiset{x} == b + multiset{x}
    ensures a == b
  {
    assert a == (a + multiset{x}) - multiset{x};
    assert b == (b + multiset{x}) - multiset{x};
  }

  /** When distinct elements are always separated, order and contents determine the sequence; this is
      why a listing cannot depend on the iteration order of the map it was built from. */
  lemma {:induction false} SortedIsUnique<T(!new)>(xs: seq<T>, ys: seq<T>, before: (T, T) -> bool)
    requires multiset(xs) == multiset(ys) && Sorted(xs, before) && Sorted(ys, before)
    requires forall x, y :: x in xs && y in xs && x != y ==> before(x, y) || before(y, x)
    ensures xs == ys
    decreases |xs|
  {
    assert |xs| == |multiset(xs)| == |multiset(ys)| == |ys|;
    if xs != [] {
      LastIsShared(xs, ys, before);
      var a, b := xs[..|xs| - 1], ys[..|ys| - 1];
      SplitLast(xs);
      SplitLast(ys);
      CancelOne(multiset(a), multiset(b), xs[|xs| - 1]);
      forall u, v | u in a && v in a && u != v ensures before(u, v) || before(v, u) {
        assert u in xs && v in xs;
      }
      SortedIsUnique(a, b, before);
    }
  }

  function Map<T, U>(f: T -> U, xs: seq<T>): (ys: seq<U>)
    ensures |ys| == |xs| && forall i :: 0 <= i < |xs| ==> ys[i] == f(xs[i])
  {
    if xs == [] then [] else Map(f, xs[..|xs| - 1]) + [f(xs[|xs| - 1])]
  }

  /** Sorting by a key that a projection keeps commutes with the projection. */
  lemma {:induction false} SortMap<T(!new)>(xs: seq<T>, f: T -> T, before: (T, T) -> bool)
    requires forall x, y :: before(f(x), f(y)) == before(x, y)
    ensures SortBy(Map(f, xs), before) == Map(f, SortBy(xs, before))
  {
    if xs != [] {
      var init, last := xs[..|xs| - 1], xs[|xs| - 1];
      SortMap(init, f, before);
      assert Map(f, xs)[..|xs| - 1] == Map(f, init);
      InsertMap(SortBy(init, before), last, f, before);
    }
  }

  lemma {:induction false} InsertMap<T(!new)>(xs: seq<T>, x: T, f: T -> T, before: (T, T) -> bool)
    requires forall x, y :: before(f(x), f(y)) == before(x, y)
    ensures InsertBy(Map(f, xs), f(x), before) == Map(f, InsertBy(xs, x, before))
  {
    if xs != [] && before(x, xs[|xs| - 1]) {
      assert Map(f, xs)[..|xs| - 1] == Map(f, xs[..|xs| - 1]);
      InsertMap(xs[..|xs| - 1], x, f, before);
    }
  }

  // ---------------------------------------------------------------------------------------------
  // Byte order on identifiers, as Go compares strings
  // ---------------------------------------------------------------------------------------------

  predicate Less(a: string, b: string) {
    if b == "" then false
    else if a == "" then true
    else a[0] < b[0] || (a[0] == b[0] && Less(a[1..], b[1..]))
  }

  /** Strings compare at the first place where they differ, and a string comes before what it begins. */
  lemma {:induction false} LessIff(a: string, b: string)
    ensures Less(a, b) <==> exists k: nat :: k <= |a| && k < |b| && a[..k] == b[..k] && (k == |a| || a[k] < b[k])
  {
    if Less(a, b) {
      var k := WhereLess(a, b);
    } else if k: nat :| k <= |a| && k < |b| && a[..k] == b[..k] && (k == |a| || a[k] < b[k]) {
      LessAt(a, b, k);
    }
  }

  lemma {:induction false} WhereLess(a: string, b: string) returns (k: nat)
    requires Less(a, b)
    ensures k <= |a| && k < |b| && a[..k] == b[..k] && (k == |a| || a[k] < b[k])
  {
    if a == "" || a[0] < b[0] {
      k := 0;
    } else {
      var n := WhereLess(a[1..], b[1..]);
      k := n + 1;
      assert a[..k] == [a[0]] + a[1..][..n] && b[..k] == [b[0]] + b[1..][..n];
    }
  }

  lemma {:induction false} LessAt(a: string, b: string, k: nat)
    requires k <= |a| && k < |b| && a[..k] == b[..k] && (k == |a| || a[k] < b[k])
    ensures Less(a, b)
  {
    if k > 0 {
      assert a[0] == a[..k][0] == b[..k][0] == b[0];
      assert a[1..][..k - 1] == a[..k][1..] && b[1..][..k - 1] == b[..k][1..];
      LessAt(a[1..], b[1..], k - 1);
    }
  }

  lemma {:induction false} LessIsTotal(a: string, b: string)
    ensures a != b ==> Less(a, b) || Less(b, a)
    ensures !(Less(a, b) && Less(b, a))
    ensures a == b ==> !Less(a, b)
  {
    if a != "" && b != "" {
      LessIsTotal(a[1..], b[1..]);
      assert a[0] == b[0] && a[1..] == b[1..] ==> a == [a[0]] + a[1..] == b;
    }
  }

  lemma {:induction false} LessIsTransitive(a: string, b: string, c: string)
    requires Less(a, b) && Less(b, c)
    ensures Less(a, c)
  {
    if a != "" && b != "" && c != "" && a[0] == b[0] == c[0] {
      LessIsTransitive(a[1..], b[1..], c[1..]);
    }
  }
}
