/** One day of a log as both ends of the wire can see it: measurements only, without identities. */
module Slices {
  import opened Events
  import opened Forward
  import opened Sightings
  import Collect
  import Replay
  import Sorting
  import TurnFacts

  function OnDay(day: Day): Event -> bool {
    (ev: Event) => ev.kind != Content && DayOf(ev.timestamp) == day
  }

  /** The shippable events of one day, in log order. */
  function Shown(es: seq<Event>, day: Day): seq<Event> {
    Sorting.Filter(es, OnDay(day))
  }

  /** The same without identities. */
  function Slice(es: seq<Event>, day: Day): seq<Event> {
    TurnFacts.EraseAll(Shown(es, day))
  }

  lemma {:induction false} EraseConcat(a: seq<Event>, b: seq<Event>)
    ensures TurnFacts.EraseAll(a + b) == TurnFacts.EraseAll(a) + TurnFacts.EraseAll(b)
  {
  }

  lemma SliceConcat(a: seq<Event>, b: seq<Event>, day: Day)
    ensures Slice(a + b, day) == Slice(a, day) + Slice(b, day)
  {
    Sorting.FilterConcat(a, b, OnDay(day));
    EraseConcat(Shown(a, day), Shown(b, day));
  }

  lemma SliceHas(es: seq<Event>, day: Day, ev: Event)
    requires ev in es && OnDay(day)(ev)
    ensures TurnFacts.EraseEvent(ev) in Slice(es, day)
  {
    Sorting.FilterIn(es, OnDay(day), ev);
    var i :| 0 <= i < |Shown(es, day)| && Shown(es, day)[i] == ev;
    assert Slice(es, day)[i] == TurnFacts.EraseEvent(ev);
  }

  lemma SliceFrom(es: seq<Event>, day: Day, x: Event) returns (ev: Event)
    requires x in Slice(es, day)
    ensures ev in es && OnDay(day)(ev) && x == TurnFacts.EraseEvent(ev)
  {
    var i :| 0 <= i < |Slice(es, day)| && Slice(es, day)[i] == x;
    ev := Shown(es, day)[i];
    Sorting.FilterIn(es, OnDay(day), ev);
  }

  lemma {:induction false} SliceOfLanded(batch: seq<Event>, now: Instant, stamp: Identity, day: Day)
    requires forall ev :: ev in batch ==> Collect.Plausible(ev, now)
    ensures Slice(Collect.Landed(batch, now, stamp), day) == Slice(batch, day)
    decreases |batch|
  {
    if batch != [] {
      var init, ev := batch[..|batch| - 1], batch[|batch| - 1];
      SplitLast(batch);
      assert ev in batch;
      SliceOfLanded(init, now, stamp, day);
      OneMoreLanded(init, Collect.Landed(init, now, stamp), ev, stamp, day);
    }
  }

  lemma OneMoreLanded(init: seq<Event>, landed: seq<Event>, ev: Event, stamp: Identity, day: Day)
    requires Slice(landed, day) == Slice(init, day)
    ensures Slice(landed + [ev.(identity := stamp)], day) == Slice(init + [ev], day)
  {
    SliceConcat(landed, [ev.(identity := stamp)], day);
    SliceConcat(init, [ev], day);
    OneStamped(ev, stamp, day);
  }

  lemma OneStamped(ev: Event, stamp: Identity, day: Day)
    ensures Slice([ev.(identity := stamp)], day) == Slice([ev], day)
  {
    Sorting.FilterSnoc([], ev, OnDay(day));
    Sorting.FilterSnoc([], ev.(identity := stamp), OnDay(day));
    assert [] + [ev] == [ev] && [] + [ev.(identity := stamp)] == [ev.(identity := stamp)];
  }

  // ---------------------------------------------------------------------------------------------
  // Logs over a list of events
  // ---------------------------------------------------------------------------------------------

  /** Events as they come from a transcript: dated, told apart by their keys, recognised when seen again. */
  predicate Observed(es: seq<Event>) {
    && (forall i, j :: 0 <= i < j < |es| ==> KeyOf(es[i]) != KeyOf(es[j]))
    && (forall ev :: ev in es ==> ev.timestamp > ZERO_TIME && (ev.kind != Content ==> Replay.Replayable(ev)))
  }

  lemma SameKeySame(es: seq<Event>, a: Event, b: Event)
    requires Observed(es) && a in es && b in es && KeyOf(a) == KeyOf(b)
    ensures a == b
  {
  }

  lemma SliceMeasures(es: seq<Event>, day: Day)
    requires Observed(es)
    ensures Measurements(Slice(es, day)) && forall x :: x in Slice(es, day) ==> x.kind != Content
  {
    forall x | x in Slice(es, day) ensures Replay.Replayable(x) && Replay.Dated(x) && x.kind != Content {
      var ev := SliceFrom(es, day, x);
    }
  }

  /** Erased, in the same order, and only so. */
  lemma ErasedBefore(es: seq<Event>, a: Event, b: Event)
    requires Before(TurnFacts.EraseAll(es), a, b)
    ensures exists x, y :: Before(es, x, y) && a == TurnFacts.EraseEvent(x) && b == TurnFacts.EraseEvent(y)
  {
    var i, j := PlacesBefore(TurnFacts.EraseAll(es), a, b);
    assert Before(es, es[i], es[j]);
  }

  lemma SliceBefore(es: seq<Event>, day: Day, a: Event, b: Event) returns (x: Event, y: Event)
    requires Before(Slice(es, day), a, b)
    ensures Before(es, x, y) && OnDay(day)(x) && OnDay(day)(y)
    ensures a == TurnFacts.EraseEvent(x) && b == TurnFacts.EraseEvent(y)
  {
    ErasedBefore(Shown(es, day), a, b);
    x, y :| Before(Shown(es, day), x, y) && a == TurnFacts.EraseEvent(x) && b == TurnFacts.EraseEvent(y);
    FilterKeepsOrder(es, OnDay(day), x, y);
  }

  lemma SliceDistinct(es: seq<Event>, day: Day)
    requires Observed(es)
    ensures Distinct(Slice(es, day))
  {
    var own := Slice(es, day);
    forall i, j | 0 <= i < j < |own| ensures own[i] != own[j] {
      assert Before(own, own[i], own[j]);
      var x, y := SliceBefore(es, day, own[i], own[j]);
      var m, n := PlacesBefore(es, x, y);
    }
  }

  predicate ToldApart(es: seq<Event>) {
    forall a, b :: a in es && b in es && KeyOf(a) == KeyOf(b) ==> a == b
  }

  lemma ErasedIntroduced(es: seq<Event>, seen: seq<Event>, x: nat, a: Event)
    requires ToldApart(es) && x < |seen| && Introduced(es, seen[..x], seen[x])
    requires Before(TurnFacts.EraseAll(es), a, TurnFacts.EraseEvent(seen[x]))
    ensures a in TurnFacts.EraseAll(seen)[..x]
  {
    var i, j := PlacesBefore(TurnFacts.EraseAll(es), a, TurnFacts.EraseEvent(seen[x]));
    assert KeyOf(es[j]) == KeyOf(seen[x]) && es[j] == seen[x];
    assert Before(es, es[i], seen[x]);
    var y := InPrefix(seen, x, es[i]);
    assert TurnFacts.EraseAll(seen)[..x][y] == a;
  }

  lemma EraseIntroduces(es: seq<Event>, ws: seq<Event>)
    requires ToldApart(es) && Introduces(es, ws)
    ensures Introduces(TurnFacts.EraseAll(es), TurnFacts.EraseAll(ws))
  {
    var list, own := TurnFacts.EraseAll(es), TurnFacts.EraseAll(ws);
    forall x | 0 <= x < |own| ensures Introduced(list, own[..x], own[x]) {
      assert Introduced(es, ws[..x], ws[x]);
      var i :| 0 <= i < |es| && es[i] == ws[x];
      assert list[i] == own[x];
      forall a | Before(list, a, own[x]) ensures a in own[..x] {
        ErasedIntroduced(es, ws, x, a);
      }
    }
  }

  lemma SliceIntroduces(es: seq<Event>, ws: seq<Event>, day: Day)
    requires Observed(es) && Introduces(es, ws)
    ensures Introduces(Slice(es, day), Slice(ws, day))
  {
    FilterIntroduces(es, ws, OnDay(day));
    forall ev ensures ev in Shown(es, day) ==> ev in es {
      Sorting.FilterIn(es, OnDay(day), ev);
    }
    EraseIntroduces(Shown(es, day), Shown(ws, day));
  }

  lemma {:induction false} ErasedTail(ws: seq<Event>, n: nat)
    requires n <= |ws|
    ensures TurnFacts.EraseAll(ws)[n..] == TurnFacts.EraseAll(ws[n..])
  {
  }

  lemma ErasedSucceeded(es: seq<Event>, ev: Event, rest: seq<Event>, due: Event -> bool, erasedDue: Event -> bool)
    requires ToldApart(es) && ev in es && Succeeded(es, rest, ev, due)
    requires forall x :: x in es && erasedDue(TurnFacts.EraseEvent(x)) ==> due(x)
    ensures Succeeded(TurnFacts.EraseAll(es), TurnFacts.EraseAll(rest), TurnFacts.EraseEvent(ev), erasedDue)
  {
    var list, erased := TurnFacts.EraseAll(es), TurnFacts.EraseEvent(ev);
    forall b | Before(list, erased, b) && SameTurn(erased, b) && erasedDue(b) ensures b in TurnFacts.EraseAll(rest) {
      var i, j := PlacesBefore(list, erased, b);
      assert KeyOf(es[i]) == KeyOf(ev) && es[i] == ev && es[j] in es;
      assert Before(es, ev, es[j]);
      ErasedIn(rest, es[j]);
    }
  }

  lemma {:induction false} EraseFollowed(es: seq<Event>, ws: seq<Event>, due: Event -> bool, erasedDue: Event -> bool)
    requires ToldApart(es) && Introduces(es, ws) && Followed(es, ws, due)
    requires forall ev :: ev in es && erasedDue(TurnFacts.EraseEvent(ev)) ==> due(ev)
    ensures Followed(TurnFacts.EraseAll(es), TurnFacts.EraseAll(ws), erasedDue)
  {
    var list, own := TurnFacts.EraseAll(es), TurnFacts.EraseAll(ws);
    forall x | 0 <= x < |own| ensures Succeeded(list, own[x + 1..], own[x], erasedDue) {
      assert Succeeded(es, ws[x + 1..], ws[x], due) && Introduced(es, ws[..x], ws[x]);
      ErasedSucceeded(es, ws[x], ws[x + 1..], due, erasedDue);
      ErasedTail(ws, x + 1);
    }
  }

  lemma ErasedIn(es: seq<Event>, ev: Event)
    requires ev in es
    ensures TurnFacts.EraseEvent(ev) in TurnFacts.EraseAll(es)
  {
    var i :| 0 <= i < |es| && es[i] == ev;
    assert TurnFacts.EraseAll(es)[i] == TurnFacts.EraseEvent(ev);
  }

  lemma SliceFollowed(es: seq<Event>, ws: seq<Event>, day: Day, due: Event -> bool, erasedDue: Event -> bool)
    requires Observed(es) && Introduces(es, ws) && Followed(es, ws, due)
    requires forall ev :: ev in es && OnDay(day)(ev) && erasedDue(TurnFacts.EraseEvent(ev)) ==> due(ev)
    ensures Followed(Slice(es, day), Slice(ws, day), erasedDue)
  {
    FilterIntroduces(es, ws, OnDay(day));
    FilterFollowed(es, ws, OnDay(day), due);
    forall ev ensures ev in Shown(es, day) <==> ev in es && OnDay(day)(ev) {
      Sorting.FilterIn(es, OnDay(day), ev);
    }
    EraseFollowed(Shown(es, day), Shown(ws, day), due, erasedDue);
  }
}
