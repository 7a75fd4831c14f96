/** Tables that counters are accumulated in: one entry added to at a time, and the sorted listing of a map. */
module Tables {
  import opened Sorting

  /** One entry added to, with `plus` adding entries. */
  function Bump<T>(m: map<string, T>, k: string, q: T, plus: (T, T) -> T): map<string, T> {
    m[k := if k in m then plus(m[k], q) else q]
  }

  /** Every entry of `b` added to `a`. */
  function Merge<T>(a: map<string, T>, b: map<string, T>, plus: (T, T) -> T): map<string, T> {
    map k | k in a.Keys + b.Keys ::
      if k in a && k in b then plus(a[k], b[k]) else if k in a then a[k] else b[k]
  }

  ghost predicate Associative<T(!new)>(plus: (T, T) -> T) {
    forall x, y, z :: plus(plus(x, y), z) == plus(x, plus(y, z))
  }

  lemma MergeBump<T(!new)>(a: map<string, T>, b: map<string, T>, k: string, q: T, plus: (T, T) -> T)
    requires Associative(plus)
    ensures Merge(a, Bump(b, k, q, plus), plus) == Bump(Merge(a, b, plus), k, q, plus)
  {
  }

  lemma MergeNothing<T>(a: map<string, T>, plus: (T, T) -> T)
    ensures Merge(a, map[], plus) == a
  {
  }

  function Add(x: int, y: int): int {
    x + y
  }

  /** Every entry turned into what `f` makes of it. */
  ghost function Mapped<T, U>(m: map<string, T>, f: (string, T) --> U): (r: map<string, U>)
    requires forall k :: k in m ==> f.requires(k, m[k])
    ensures r.Keys == m.Keys && forall k :: k in m ==> r[k] == f(k, m[k])
  {
    if m == map[] then map[]
    else
      var k :| k in m;
      Mapped(m - {k}, f)[k := f(k, m[k])]
  }

  /** Go's range over a map, filling another. */
  method MapEach<T, U>(m: map<string, T>, f: (string, T) --> U) returns (r: map<string, U>)
    requires forall k :: k in m ==> f.requires(k, m[k])
    ensures r == Mapped(m, f)
  {
    var left := m.Keys;
    r := map[];
    while left != {}
      invariant left <= m.Keys && r.Keys == m.Keys - left
      invariant forall k :: k in r ==> r[k] == f(k, m[k])
      decreases |left|
    {
      var k :| k in left;
      r, left := r[k := f(k, m[k])], left - {k};
    }
  }

  // ---------------------------------------------------------------------------------------------
  // Listing a map by key
  // ---------------------------------------------------------------------------------------------

  /** Some element of a set that has one. */
  lemma Some<T>(s: set<T>) returns (x: T)
    requires s != {}
    ensures x in s
  {
    x :| x in s;
  }

  predicate Least(k: string, keys: set<string>) {
    k in keys && forall j :: j in keys ==> j == k || Less(k, j)
  }

  lemma {:induction false} LeastExists(keys: set<string>) returns (k: string)
    requires keys != {}
    ensures Least(k, keys)
    decreases |keys|
  {
    var some :| some in keys;
    var rest := keys - {some};
    if rest == {} {
      assert forall j :: j in keys ==> j == some || j in rest;
      k := some;
    } else {
      var least := LeastExists(rest);
      LessIsTotal(some, least);
      k := if Less(some, least) then some else least;
      forall j | j in keys ensures j == k || Less(k, j) {
        if j != some && k == some && j != least {
          LessIsTransitive(some, least, j);
        }
      }
    }
  }

  /** The keys in ascending byte order. */
  ghost function Ascending(keys: set<string>): (ks: seq<string>)
    decreases |keys|
  {
    if keys == {} then []
    else
      assert exists k :: Least(k, keys) by { var _ := LeastExists(keys); }
      var k :| Least(k, keys);
      [k] + Ascending(keys - {k})
  }

  lemma {:induction false} AscendingHolds(keys: set<string>)
    ensures forall k :: k in Ascending(keys) <==> k in keys
    ensures forall i, j :: 0 <= i < j < |Ascending(keys)| ==> Less(Ascending(keys)[i], Ascending(keys)[j])
    decreases |keys|
  {
    if keys != {} {
      assert exists k :: Least(k, keys) by { var _ := LeastExists(keys); }
      var k := Ascending(keys)[0];
      AscendingHolds(keys - {k});
    }
  }

  ghost function At<T>(m: map<string, T>, ks: seq<string>): (rows: seq<T>)
    requires forall k :: k in ks ==> k in m
    ensures |rows| == |ks| && forall i :: 0 <= i < |ks| ==> rows[i] == m[ks[i]]
  {
    seq(|ks|, i requires 0 <= i < |ks| => m[ks[i]])
  }

  /** The entries of a map, by ascending key. */
  ghost function Rows<T>(m: map<string, T>): (rows: seq<T>) {
    AscendingHolds(m.Keys);
    At(m, Ascending(m.Keys))
  }

  /** Every entry is filed under its own key. */
  ghost predicate Keyed<T>(m: map<string, T>, key: T -> string) {
    forall k :: k in m ==> key(m[k]) == k
  }

  /** `r` is the entry of one of these keys. */
  predicate EntryOf<T(==)>(m: map<string, T>, keys: set<string>, key: T -> string, r: T) {
    key(r) in keys && key(r) in m && m[key(r)] == r
  }

  ghost predicate Ordered<T>(xs: seq<T>, key: T -> string) {
    forall i, j :: 0 <= i < j < |xs| ==> Less(key(xs[i]), key(xs[j]))
  }

  ghost predicate Apart<T>(xs: seq<T>, key: T -> string) {
    forall i, j :: 0 <= i < j < |xs| ==> key(xs[i]) != key(xs[j])
  }

  ghost predicate SameMembers<T(!new)>(xs: seq<T>, ys: seq<T>) {
    forall r :: r in xs <==> r in ys
  }

  lemma RowsAreSorted<T>(m: map<string, T>, key: T -> string)
    requires Keyed(m, key)
    ensures Ordered(Rows(m), key)
    ensures forall r :: r in Rows(m) <==> EntryOf(m, m.Keys, key, r)
  {
    AscendingHolds(m.Keys);
    var ks := Ascending(m.Keys);
    assert forall i :: 0 <= i < |ks| ==> ks[i] in m;
    forall r | key(r) in m && m[key(r)] == r ensures r in Rows(m) {
      var i :| 0 <= i < |ks| && ks[i] == key(r);
      assert Rows(m)[i] == r;
    }
  }

  /** A listing sorted by key is the only one with its contents, however it was gathered. */
  lemma {:induction false} ListingIsUnique<T(!new)>(xs: seq<T>, ys: seq<T>, key: T -> string)
    requires Ordered(xs, key) && Ordered(ys, key) && SameMembers(xs, ys)
    ensures xs == ys
    decreases |xs|
  {
    assert ys != [] ==> ys[0] in xs;
    if xs != [] {
      assert xs[0] in ys;
      assert ys[0] in xs;
      var i :| 0 <= i < |ys| && ys[i] == xs[0];
      var j :| 0 <= j < |xs| && xs[j] == ys[0];
      LessIsTotal(key(xs[0]), key(ys[0]));
      assert i == 0;
      LessIsTotal(key(xs[0]), key(xs[0]));
      forall r ensures r in xs[1..] <==> r in ys[1..] {
        RestWithout(xs, key, r);
        RestWithout(ys, key, r);
      }
      ListingIsUnique(xs[1..], ys[1..], key);
    }
  }

  lemma RestWithout<T(!new)>(xs: seq<T>, key: T -> string, r: T)
    requires xs != [] && Ordered(xs, key)
    ensures r in xs[1..] <==> r in xs && r != xs[0]
  {
    if r in xs[1..] {
      var i :| 0 <= i < |xs[1..]| && xs[1..][i] == r;
      assert xs[i + 1] == r;
      LessIsTotal(key(xs[0]), key(r));
    }
    if r in xs && r != xs[0] {
      var i :| 0 <= i < |xs| && xs[i] == r;
      assert xs[1..][i - 1] == r;
    }
  }

  /** Go's range over a map: every entry once, in no particular order. */
  method Gather<T(!new,==)>(m: map<string, T>, key: T -> string) returns (rows: seq<T>)
    requires Keyed(m, key)
    ensures SameMembers(rows, Rows(m)) && Apart(rows, key)
  {
    RowsAreSorted(m, key);
    var left := m.Keys;
    rows := [];
    while left != {}
      invariant left <= m.Keys
      invariant forall r :: r in rows <==> EntryOf(m, m.Keys - left, key, r)
      invariant Apart(rows, key)
      decreases |left|
    {
      var k :| k in left;
      ghost var was := rows;
      rows, left := rows + [m[k]], left - {k};
      forall r ensures r in rows <==> EntryOf(m, m.Keys - left, key, r) {
        assert r in rows <==> r in was || r == m[k];
      }
      forall i | 0 <= i < |was| ensures key(was[i]) != k {
        assert was[i] in was;
      }
    }
  }

  lemma SortKeepsMembers<T(!new)>(xs: seq<T>, before: (T, T) -> bool, ys: seq<T>)
    requires SameMembers(xs, ys)
    ensures SameMembers(SortBy(xs, before), ys)
  {
    forall r ensures r in SortBy(xs, before) <==> r in ys {
      SortMembers(xs, before, r);
    }
  }

  lemma SortingAGathering<T(!new)>(m: map<string, T>, key: T -> string, gathered: seq<T>, before: (T, T) -> bool)
    requires Keyed(m, key) && forall a, b :: before(a, b) == Less(key(a), key(b))
    requires SameMembers(gathered, Rows(m)) && Apart(gathered, key)
    ensures SortBy(gathered, before) == Rows(m)
  {
    SortedStrictly(gathered, key, before);
    SortKeepsMembers(gathered, before, Rows(m));
    RowsAreSorted(m, key);
    ListingIsUnique(SortBy(gathered, before), Rows(m), key);
  }

  /** The listing Go gathers and then sorts is determined, whatever order it was gathered in. */
  method SortedRows<T(!new,==)>(m: map<string, T>, key: T -> string) returns (rows: seq<T>)
    requires Keyed(m, key)
    ensures rows == Rows(m)
  {
    rows := Gather(m, key);
    var before := (a, b) => Less(key(a), key(b));
    SortingAGathering(m, key, rows, before);
    rows := SortBy(rows, before);
  }

  lemma KeyOrderIsStrict<T(!new)>(key: T -> string, before: (T, T) -> bool)
    requires forall a, b :: before(a, b) == Less(key(a), key(b))
    ensures StrictWeak(before)
  {
    forall x, y, z
      ensures !before(x, x) && (before(x, y) && before(y, z) ==> before(x, z))
      ensures before(x, z) ==> before(x, y) || before(y, z)
    {
      LessIsTotal(key(x), key(x));
      LessIsTotal(key(x), key(y));
      LessIsTotal(key(y), key(z));
      if before(x, y) && before(y, z) {
        LessIsTransitive(key(x), key(y), key(z));
      }
      if before(x, z) && before(y, x) {
        LessIsTransitive(key(y), key(x), key(z));
      }
    }
  }

  lemma SortedStrictly<T(!new)>(xs: seq<T>, key: T -> string, before: (T, T) -> bool)
    requires forall a, b :: before(a, b) == Less(key(a), key(b))
    requires Apart(xs, key)
    ensures Ordered(SortBy(xs, before), key)
  {
    KeyOrderIsStrict(key, before);
    SortSorts(xs, before);
    var ys := SortBy(xs, before);
    DistinctKeys(xs, ys, key);
    forall i, j | 0 <= i < j < |ys| ensures Less(key(ys[i]), key(ys[j])) {
      LessIsTotal(key(ys[i]), key(ys[j]));
    }
  }

  /** Distinctness of keys survives reordering. */
  lemma DistinctKeys<T(!new)>(xs: seq<T>, ys: seq<T>, key: T -> string)
    requires multiset(xs) == multiset(ys) && Apart(xs, key)
    ensures Apart(ys, key)
  {
    forall i, j | 0 <= i < j < |ys| ensures key(ys[i]) != key(ys[j]) {
      if key(ys[i]) == key(ys[j]) {
        assert ys[i] in multiset(xs) && ys[j] in multiset(xs);
        var a :| 0 <= a < |xs| && xs[a] == ys[i];
        var b :| 0 <= b < |xs| && xs[b] == ys[j];
        assert a == b;
        TwoCopies(ys, i, j);
        OneCopy(xs, a);
      }
    }
  }

  lemma TwoCopies<T>(ys: seq<T>, i: nat, j: nat)
    requires i < j < |ys| && ys[i] == ys[j]
    ensures multiset(ys)[ys[i]] >= 2
  {
    assert ys == ys[..j] + ys[j..];
    assert ys[i] == ys[..j][i] && ys[j] == ys[j..][0];
    assert multiset(ys) == multiset(ys[..j]) + multiset(ys[j..]);
    assert ys[i] in multiset(ys[..j]) && ys[j] in multiset(ys[j..]);
  }

  lemma OneCopy<T>(xs: seq<T>, a: nat)
    requires a < |xs| && forall i :: 0 <= i < |xs| && i != a ==> xs[i] != xs[a]
    ensures multiset(xs)[xs[a]] == 1
  {
    assert xs == xs[..a] + [xs[a]] + xs[a + 1..];
    assert multiset(xs) == multiset(xs[..a]) + multiset{xs[a]} + multiset(xs[a + 1..]);
    assert xs[a] !in xs[..a] && xs[a] !in xs[a + 1..];
    assert xs[a] !in multiset(xs[..a]) && xs[a] !in multiset(xs[a + 1..]);
  }
}
