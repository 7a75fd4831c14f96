/** What a longer log can only add: turns and captured content. This is why two counts suffice to check
    a partition against the day it was written from (pruneDay in internal/compact/prune.go). */
module Growth {
  import opened Events
  import opened Fold
  import opened TurnFacts
  import Replay
  import Sorting

  // ---------------------------------------------------------------------------------------------
  // The turns of a log
  // ---------------------------------------------------------------------------------------------

  /** The keys of the turns a log folds into, in order of first appearance. */
  function KeysOf(es: seq<Event>): seq<string> {
    FoldFrom(START, es).order
  }

  lemma {:induction false} KeysGrow(a: seq<Event>, log: seq<Event>)
    requires a <= log
    ensures KeysOf(a) <= KeysOf(log)
    decreases |log|
  {
    if |a| < |log| {
      KeysGrow(a, log[..|log| - 1]);
    } else {
      assert a == log;
    }
  }

  lemma {:induction false} AttachKeepsFacts(owners: map<string, Turn>, order: seq<string>, results: seq<Event>,
          k: string)
    requires (forall j :: j in order ==> j in owners) && k in owners
    ensures Attach(owners, order, results)[k].facts == owners[k].facts
  {
    if results != [] {
      AttachKeepsFacts(owners, order, results[..|results| - 1], k);
    }
  }

  /** One turn per key: the finished turns carry exactly the keys, each once. */
  lemma TurnsCarryKeys(es: seq<Event>)
    ensures |TurnsOf(es)| == |KeysOf(es)|
    ensures multiset(Sorting.Map(KeyOfTurn, TurnsOf(es))) == multiset(KeysOf(es))
  {
    FoldKeepsOrder(START, es);
    var s := FoldFrom(START, es);
    var all := Collect(Attach(s.byTurn, s.order, s.results), s.order);
    forall i | 0 <= i < |all| ensures KeyOfTurn(all[i]) == s.order[i] {
      FoldKeepsKeys(es, s.order[i]);
      AttachKeepsFacts(s.byTurn, s.order, s.results, s.order[i]);
    }
    assert Sorting.Map(KeyOfTurn, all) == s.order;
    StartsAreOrdered();
    Sorting.SortSorts(all, StartsBefore);
    MapOfPermutation(KeyOfTurn, all, TurnsOf(es));
  }

  lemma StartsAreOrdered()
    ensures Sorting.StrictWeak(StartsBefore)
  {
  }

  lemma {:induction false} MapContents<T, U>(f: T -> U, xs: seq<T>, x: T)
    ensures Sorting.Map(f, xs + [x]) == Sorting.Map(f, xs) + [f(x)]
  {
    assert (xs + [x])[..|xs|] == xs;
  }

  /** Mapping commutes with reordering. */
  lemma {:induction false} MapOfPermutation<T, U>(f: T -> U, xs: seq<T>, ys: seq<T>)
    requires multiset(xs) == multiset(ys)
    ensures multiset(Sorting.Map(f, xs)) == multiset(Sorting.Map(f, ys))
    decreases |xs|
  {
    if xs == [] {
      assert |ys| == |multiset(ys)| == 0;
    } else {
      var x := xs[|xs| - 1];
      assert x in multiset(ys);
      var i :| 0 <= i < |ys| && ys[i] == x;
      var rest := ys[..i] + ys[i + 1..];
      assert ys == ys[..i] + [x] + ys[i + 1..];
      Sorting.SplitLast(xs);
      Sorting.CancelOne(multiset(xs[..|xs| - 1]), multiset(rest), x);
      MapOfPermutation(f, xs[..|xs| - 1], rest);
      MapOfSplit(f, ys[..i], x, ys[i + 1..]);
    }
  }

  lemma {:induction false} MapConcat<T, U>(f: T -> U, a: seq<T>, b: seq<T>)
    ensures Sorting.Map(f, a + b) == Sorting.Map(f, a) + Sorting.Map(f, b)
  {
    var m := Sorting.Map(f, a + b);
    assert forall i :: 0 <= i < |m| ==> m[i] == (Sorting.Map(f, a) + Sorting.Map(f, b))[i];
  }

  lemma MapOfSplit<T, U>(f: T -> U, a: seq<T>, x: T, b: seq<T>)
    ensures multiset(Sorting.Map(f, a + [x] + b)) == multiset(Sorting.Map(f, a + b)) + multiset{f(x)}
  {
    MapConcat(f, a + [x], b);
    MapContents(f, a, x);
    MapConcat(f, a, b);
  }

  /** A log and a prefix of it that fold into equally many turns fold into turns of the same keys. */
  lemma SameCountSameKeys(a: seq<Event>, log: seq<Event>)
    requires a <= log && |TurnsOf(a)| == |TurnsOf(log)|
    ensures KeysOf(a) == KeysOf(log)
    ensures multiset(Sorting.Map(KeyOfTurn, TurnsOf(a))) == multiset(Sorting.Map(KeyOfTurn, TurnsOf(log)))
  {
    TurnsCarryKeys(a);
    TurnsCarryKeys(log);
    KeysGrow(a, log);
  }

  // ---------------------------------------------------------------------------------------------
  // The captured content of a log
  // ---------------------------------------------------------------------------------------------

  /** Every content reference that some turns hold. */
  function Blobs(turns: seq<Turn>): multiset<string> {
    if turns == [] then multiset{}
    else Blobs(turns[..|turns| - 1]) + multiset(turns[|turns| - 1].contentBlobs)
  }

  function BlobsUnder(byTurn: map<string, Turn>, order: seq<string>): multiset<string>
    requires forall k :: k in order ==> k in byTurn
  {
    if order == [] then multiset{}
    else BlobsUnder(byTurn, order[..|order| - 1]) + multiset(byTurn[order[|order| - 1]].contentBlobs)
  }

  /** References of tool results whose call some turn made. */
  function BlobsAttached(byTurn: map<string, Turn>, order: seq<string>, results: seq<Event>): multiset<string>
    requires forall k :: k in order ==> k in byTurn
  {
    if results == [] then multiset{}
    else
      var ev := results[|results| - 1];
      BlobsAttached(byTurn, order, results[..|results| - 1])
      + if Owner(byTurn, order, ev.toolUseID).Some? && ev.contentBlob != "" then multiset{ev.contentBlob}
        else multiset{}
  }

  /** Every content reference a log's turns will hold. */
  function BlobsOfState(s: State): multiset<string>
    requires forall k :: k in s.order ==> k in s.byTurn
  {
    BlobsUnder(s.byTurn, s.order) + BlobsAttached(s.byTurn, s.order, s.results)
  }

  lemma {:induction false} BlobsOfInsert(turns: seq<Turn>, t: Turn)
    ensures Blobs(Sorting.InsertBy(turns, t, StartsBefore)) == Blobs(turns) + multiset(t.contentBlobs)
  {
    if turns == [] || !StartsBefore(t, turns[|turns| - 1]) {
      assert (turns + [t])[..|turns|] == turns;
    } else {
      BlobsOfInsert(turns[..|turns| - 1], t);
      var ins := Sorting.InsertBy(turns[..|turns| - 1], t, StartsBefore);
      assert (ins + [turns[|turns| - 1]])[..|ins|] == ins;
    }
  }

  lemma {:induction false} BlobsOfSort(turns: seq<Turn>)
    ensures Blobs(Sorting.SortBy(turns, StartsBefore)) == Blobs(turns)
  {
    if turns != [] {
      BlobsOfSort(turns[..|turns| - 1]);
      BlobsOfInsert(Sorting.SortBy(turns[..|turns| - 1], StartsBefore), turns[|turns| - 1]);
    }
  }

  lemma {:induction false} BlobsOfCollect(byTurn: map<string, Turn>, order: seq<string>)
    requires forall k :: k in order ==> k in byTurn
    ensures Blobs(Collect(byTurn, order)) == BlobsUnder(byTurn, order)
  {
    if order != [] {
      var all := Collect(byTurn, order);
      BlobsOfCollect(byTurn, order[..|order| - 1]);
      assert all[..|all| - 1] == Collect(byTurn, order[..|order| - 1]);
    }
  }

  lemma {:induction false} BlobsUnderSame(a: map<string, Turn>, b: map<string, Turn>, order: seq<string>)
    requires forall k :: k in order ==> k in a && k in b && a[k].contentBlobs == b[k].contentBlobs
    ensures BlobsUnder(a, order) == BlobsUnder(b, order)
  {
    if order != [] {
      BlobsUnderSame(a, b, order[..|order| - 1]);
    }
  }

  lemma MoreOfOne(all: multiset<string>, a: seq<string>, b: seq<string>)
    ensures all + multiset(a + b) == all + multiset(a) + multiset(b)
  {
  }

  /** Replacing one turn by one that holds more. */
  lemma {:induction false} BlobsUnderUpdate(byTurn: map<string, Turn>, order: seq<string>, key: string, t: Turn,
          more: seq<string>)
    requires forall k :: k in order ==> k in byTurn
    requires forall i, j :: 0 <= i < j < |order| ==> order[i] != order[j]
    requires key in byTurn && t.contentBlobs == byTurn[key].contentBlobs + more
    ensures BlobsUnder(byTurn[key := t], order)
         == BlobsUnder(byTurn, order) + if key in order then multiset(more) else multiset{}
  {
    if order != [] {
      var init, last := order[..|order| - 1], order[|order| - 1];
      if last == key {
        BlobsUnderSame(byTurn, byTurn[key := t], init);
        MoreOfOne(BlobsUnder(byTurn, init), byTurn[key].contentBlobs, more);
      } else {
        BlobsUnderUpdate(byTurn, init, key, t, more);
        assert key in order <==> key in init;
      }
    }
  }

  lemma {:induction false} OwnerIsListed(byTurn: map<string, Turn>, order: seq<string>, id: string)
    requires forall k :: k in order ==> k in byTurn
    ensures Owner(byTurn, order, id).Some? ==> Owner(byTurn, order, id).value in order
    ensures Owner(byTurn, order, id).Some? <==> id != "" && exists k :: k in order && Calls(byTurn[k], id)
  {
    if order != [] && id != "" {
      var init, last := order[..|order| - 1], order[|order| - 1];
      OwnerIsListed(byTurn, init, id);
      assert last in order && forall k :: k in order ==> k in init || k == last;
      assert Calls(byTurn[last], id)
          <==> exists i :: 0 <= i < |byTurn[last].toolCalls| && byTurn[last].toolCalls[i].id == id;
    }
  }

  predicate Calls(t: Turn, id: string) {
    exists c :: c in t.toolCalls && c.id == id
  }

  lemma {:induction false} BlobsOfAttach(byTurn: map<string, Turn>, order: seq<string>, results: seq<Event>)
    requires forall k :: k in order ==> k in byTurn
    requires forall i, j :: 0 <= i < j < |order| ==> order[i] != order[j]
    ensures BlobsUnder(Attach(byTurn, order, results), order)
         == BlobsUnder(byTurn, order) + BlobsAttached(byTurn, order, results)
  {
    if results != [] {
      var init, ev := results[..|results| - 1], results[|results| - 1];
      BlobsOfAttach(byTurn, order, init);
      var rest := Attach(byTurn, order, init);
      var owner := Owner(byTurn, order, ev.toolUseID);
      if owner.Some? && ev.contentBlob != "" {
        OwnerIsListed(byTurn, order, ev.toolUseID);
        var t := rest[owner.value];
        BlobsUnderUpdate(rest, order, owner.value, t.(contentBlobs := t.contentBlobs + [ev.contentBlob]),
          [ev.contentBlob]);
      }
    }
  }

  lemma BlobsOfTurns(es: seq<Event>)
    ensures WellOrdered(FoldFrom(START, es)) && Blobs(TurnsOf(es)) == BlobsOfState(FoldFrom(START, es))
  {
    FoldKeepsOrder(START, es);
    var s := FoldFrom(START, es);
    var attached := Attach(s.byTurn, s.order, s.results);
    BlobsOfSort(Collect(attached, s.order));
    BlobsOfCollect(attached, s.order);
    BlobsOfAttach(s.byTurn, s.order, s.results);
  }

  // ---------------------------------------------------------------------------------------------
  // Growth
  // ---------------------------------------------------------------------------------------------

  lemma {:induction false} MergeKeepsIds(calls: seq<ToolCall>, more: seq<ToolCall>)
    ensures |MergeCalls(calls, more)| >= |calls|
    ensures forall i :: 0 <= i < |calls| ==> MergeCalls(calls, more)[i].id == calls[i].id
    decreases |more|
  {
    if more != [] {
      MergeKeepsIds(calls, more[..|more| - 1]);
    }
  }

  lemma ApplyKeepsCalls(t: Turn, ev: Event, id: string)
    requires Calls(t, id)
    ensures Calls(Apply(t, ev), id)
  {
    MergeKeepsIds(t.toolCalls, CallsOf(ev));
    var i :| 0 <= i < |t.toolCalls| && t.toolCalls[i].id == id;
    assert Apply(t, ev).toolCalls[i] in Apply(t, ev).toolCalls;
  }

  /** An owner, once there is one, stays; it may become another turn. */
  lemma StepKeepsOwners(s: State, ev: Event, id: string)
    requires WellOrdered(s) && Owner(s.byTurn, s.order, id).Some?
    requires WellOrdered(Step(s, ev))
    ensures Owner(Step(s, ev).byTurn, Step(s, ev).order, id).Some?
  {
    var u := Step(s, ev);
    OwnerIsListed(s.byTurn, s.order, id);
    OwnerIsListed(u.byTurn, u.order, id);
    var k :| k in s.order && Calls(s.byTurn[k], id);
    if !IsResult(ev) && TurnKey(ev) == k {
      ApplyKeepsCalls(s.byTurn[k], ev, id);
    }
    assert k in u.order && Calls(u.byTurn[k], id);
  }

  lemma {:induction false} AttachedGrows(s: State, ev: Event, results: seq<Event>)
    requires WellOrdered(s) && WellOrdered(Step(s, ev))
    ensures BlobsAttached(s.byTurn, s.order, results) <= BlobsAttached(Step(s, ev).byTurn, Step(s, ev).order, results)
    decreases |results|
  {
    if results != [] {
      AttachedGrows(s, ev, results[..|results| - 1]);
      if Owner(s.byTurn, s.order, results[|results| - 1].toolUseID).Some? {
        StepKeepsOwners(s, ev, results[|results| - 1].toolUseID);
      }
    }
  }

  lemma UnderGrows(s: State, ev: Event)
    requires WellOrdered(s) && WellOrdered(Step(s, ev))
    ensures BlobsUnder(s.byTurn, s.order) <= BlobsUnder(Step(s, ev).byTurn, Step(s, ev).order)
  {
    if !IsResult(ev) {
      var key, u := TurnKey(ev), Step(s, ev);
      if key in s.byTurn {
        BlobsUnderUpdate(s.byTurn, s.order, key, u.byTurn[key], BlobsOf(ev));
      } else {
        assert u.order[..|u.order| - 1] == s.order;
        BlobsUnderSame(s.byTurn, u.byTurn, s.order);
      }
    }
  }

  lemma StepGrows(s: State, ev: Event)
    requires WellOrdered(s) && WellOrdered(Step(s, ev))
    ensures BlobsOfState(s) <= BlobsOfState(Step(s, ev))
  {
    var u := Step(s, ev);
    UnderGrows(s, ev);
    AttachedGrows(s, ev, s.results);
    if IsResult(ev) {
      assert u.results[..|u.results| - 1] == s.results;
    }
  }

  /** One more event takes no content away. */
  lemma OneMoreGrows(es: seq<Event>, ev: Event)
    ensures Blobs(TurnsOf(es)) <= Blobs(TurnsOf(es + [ev]))
  {
    BlobsOfTurns(es);
    BlobsOfTurns(es + [ev]);
    FoldSnoc(START, es, ev);
    StepGrows(FoldFrom(START, es), ev);
  }

  lemma {:induction false} GrowsByOne(f: seq<Event> -> multiset<string>, a: seq<Event>, log: seq<Event>)
    requires a <= log && forall es: seq<Event>, ev: Event :: f(es) <= f(es + [ev])
    ensures f(a) <= f(log)
    decreases |log|
  {
    if |a| < |log| {
      GrowsByOne(f, a, log[..|log| - 1]);
      assert log == log[..|log| - 1] + [log[|log| - 1]];
    } else {
      assert a == log;
    }
  }

  lemma BlobsGrow(a: seq<Event>, log: seq<Event>)
    requires a <= log
    ensures Blobs(TurnsOf(a)) <= Blobs(TurnsOf(log))
  {
    var f := (es: seq<Event>) => Blobs(TurnsOf(es));
    forall es: seq<Event>, ev: Event ensures f(es) <= f(es + [ev]) {
      OneMoreGrows(es, ev);
    }
    GrowsByOne(f, a, log);
  }

  lemma SameSizeIsSame<T>(a: multiset<T>, b: multiset<T>)
    requires a <= b && |a| == |b|
    ensures a == b
  {
    assert b == a + (b - a);
    assert |b| == |a| + |b - a|;
    assert b - a == multiset{};
  }

  /** A log and a prefix of it whose turns hold equally many content references hold the same ones. */
  lemma SameCountSameContent(a: seq<Event>, log: seq<Event>)
    requires a <= log && |Blobs(TurnsOf(a))| == |Blobs(TurnsOf(log))|
    ensures Blobs(TurnsOf(a)) == Blobs(TurnsOf(log))
  {
    BlobsGrow(a, log);
    SameSizeIsSame(Blobs(TurnsOf(a)), Blobs(TurnsOf(log)));
  }
}
