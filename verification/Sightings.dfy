/** When a log that shows events again folds like the events themselves, whatever they hold: when events first
    appear in their order, and no event of a turn is shown again without those that come after it. */
module Sightings {
  import opened Events
  import opened Fold
  import opened Forward
  import opened Replay
  import Sorting

  // ---------------------------------------------------------------------------------------------
  // Logs over a list of events
  // ---------------------------------------------------------------------------------------------

  predicate Distinct(es: seq<Event>) {
    forall i, j :: 0 <= i < j < |es| ==> es[i] != es[j]
  }

  ghost predicate Before(es: seq<Event>, a: Event, b: Event) {
    exists i, j :: 0 <= i < j < |es| && es[i] == a && es[j] == b
  }

  predicate SameTurn(a: Event, b: Event) {
    TurnKey(a) == TurnKey(b)
  }

  ghost predicate Introduced(es: seq<Event>, seen: seq<Event>, ev: Event) {
    ev in es && forall a :: Before(es, a, ev) ==> a in seen
  }

  /** Every event of the log is one of `es`, and whatever comes before it there was shown before. */
  ghost predicate Introduces(es: seq<Event>, ws: seq<Event>) {
    forall x :: 0 <= x < |ws| ==> Introduced(es, ws[..x], ws[x])
  }

  ghost predicate Succeeded(es: seq<Event>, rest: seq<Event>, ev: Event, due: Event -> bool) {
    forall b :: Before(es, ev, b) && SameTurn(ev, b) && due(b) ==> b in rest
  }

  /** Wherever an event is shown, what comes after it in its turn and is due is shown later. */
  ghost predicate Followed(es: seq<Event>, ws: seq<Event>, due: Event -> bool) {
    forall x :: 0 <= x < |ws| ==> Succeeded(es, ws[x + 1..], ws[x], due)
  }

  function Always(): Event -> bool {
    ev => true
  }

  predicate ShowsAll(es: seq<Event>, ws: seq<Event>) {
    forall ev :: ev in es ==> ev in ws
  }

  predicate Measurements(es: seq<Event>) {
    AllReplayable(es) && forall ev :: ev in es ==> Dated(ev)
  }

  lemma InPrefix<T>(xs: seq<T>, n: nat, x: T) returns (i: nat)
    requires n <= |xs| && x in xs[..n]
    ensures i < n && xs[i] == x
  {
    i :| 0 <= i < n && xs[..n][i] == x;
  }

  lemma NotYet(es: seq<Event>, n: nat)
    requires Distinct(es) && n < |es|
    ensures es[n] in es && es[n] !in es[..n]
  {
  }

  lemma OnePlace(es: seq<Event>, i: nat, j: nat)
    requires Distinct(es) && i < |es| && j < |es| && es[i] == es[j]
    ensures i == j
  {
  }

  // ---------------------------------------------------------------------------------------------
  // One turn
  // ---------------------------------------------------------------------------------------------

  lemma {:induction false} FoldTurnConcat(t: Turn, a: seq<Event>, b: seq<Event>)
    ensures FoldTurn(t, a + b) == FoldTurn(FoldTurn(t, a), b)
    decreases |b|
  {
    if b == [] {
      assert a + b == a;
    } else {
      assert (a + b)[..|a + b| - 1] == a + b[..|b| - 1];
      FoldTurnConcat(t, a, b[..|b| - 1]);
    }
  }

  /** Events shown before and after add nothing in between. */
  lemma {:induction false} ShownAround(t: Turn, before: seq<Event>, between: seq<Event>, after: seq<Event>)
    requires Measurements(before) && forall ev :: ev in between ==> ev in before && ev in after
    ensures FoldTurn(FoldTurn(FoldTurn(t, before), between), after) == FoldTurn(FoldTurn(t, before), after)
    decreases |between|
  {
    if between != [] {
      var init, last := between[..|between| - 1], between[|between| - 1];
      assert last in between;
      ShownAround(t, before, init, after);
      FoldTurnConcat(t, before, init);
      FoldTurnMiddle(t, before + init, last, after);
    }
  }

  lemma CutBlock(es: seq<Event>, m: nat, p: nat)
    requires m < p <= |es|
    ensures es[..p] == es[..m] + es[m..p] && es[m..p] == [es[m]] + es[m + 1..p]
  {
  }

  /** An event of the first `p` is shown again, and those after it are still to come: showing it adds nothing. */
  lemma SkipRepeat(t: Turn, es: seq<Event>, p: nat, m: nat, rest: seq<Event>)
    requires Measurements(es) && m < p <= |es| && forall j :: m < j < p ==> es[j] in rest
    ensures FoldTurn(FoldTurn(t, es[..p] + [es[m]]), rest) == FoldTurn(FoldTurn(t, es[..p]), rest)
  {
    var block, others := es[m..p], es[m + 1..p];
    var shown := es[..p] + [es[m]];
    CutBlock(es, m, p);
    forall ev | ev in others ensures ev in shown && ev in rest {
      var i :| 0 <= i < |others| && others[i] == ev;
      assert es[..p][m + 1 + i] == ev;
    }
    ShownAround(t, shown, others, rest);
    FoldTurnConcat(t, es[..p], [es[m]]);
    FoldTurnConcat(FoldTurn(t, es[..p]), [es[m]], others);
    FoldTurnConcat(t, es[..m], block);
    FoldTurnTwice(FoldTurn(t, es[..m]), block);
  }

  /** How far a log agrees with the events. */
  function Agree(es: seq<Event>, ws: seq<Event>): (p: nat)
    ensures p <= |es| && p <= |ws| && es[..p] == ws[..p]
    ensures p == |es| || p == |ws| || es[p] != ws[p]
  {
    if es == [] || ws == [] || es[0] != ws[0] then 0
    else
      var p := Agree(es[1..], ws[1..]);
      assert es[..p + 1] == [es[0]] + es[1..][..p] && ws[..p + 1] == [ws[0]] + ws[1..][..p];
      p + 1
  }

  /** What follows the part that agrees is an event of that part. */
  lemma RepeatAt(es: seq<Event>, ws: seq<Event>, p: nat) returns (m: nat)
    requires Distinct(es) && Introduces(es, ws) && p < |ws| && p <= |es| && es[..p] == ws[..p]
    requires p == |es| || es[p] != ws[p]
    ensures m < p && ws[p] == es[m]
  {
    assert Introduced(es, ws[..p], ws[p]);
    m :| 0 <= m < |es| && es[m] == ws[p];
    if p < m {
      NotYet(es, p);
      assert Before(es, es[p], ws[p]);
    }
  }

  function Without(ws: seq<Event>, p: nat): seq<Event>
    requires p < |ws|
  {
    ws[..p] + ws[p + 1..]
  }

  lemma WithoutStillIntroduces(es: seq<Event>, ws: seq<Event>, p: nat)
    requires Introduces(es, ws) && p < |ws| && ws[p] in ws[..p]
    ensures Introduces(es, Without(ws, p))
  {
    var us := Without(ws, p);
    forall x | 0 <= x < |us| ensures Introduced(es, us[..x], us[x]) {
      if x < p {
        assert us[..x] == ws[..x];
      } else {
        assert us[x] == ws[x + 1] && ws[..x + 1] == ws[..p] + [ws[p]] + ws[p + 1..x + 1];
        assert us[..x] == ws[..p] + ws[p + 1..x + 1];
        assert Introduced(es, ws[..x + 1], ws[x + 1]);
      }
    }
  }

  /** What follows an event is not the repeat that is left out, unless it stands before it as well. */
  lemma StillFollowed(es: seq<Event>, ws: seq<Event>, p: nat, m: nat, x: nat, b: Event)
    requires Distinct(es) && m < p < |ws| && p <= |es| && es[..p] == ws[..p] && ws[p] == es[m]
    requires x < p && Before(es, ws[x], b) && b in ws[x + 1..]
    ensures b in ws[x + 1..p] + ws[p + 1..]
  {
    assert ws[x + 1..] == ws[x + 1..p] + [ws[p]] + ws[p + 1..];
    if b == ws[p] {
      var i, j :| 0 <= i < j < |es| && es[i] == ws[x] && es[j] == b;
      assert es[..p][x] == ws[x] && es[..p][m] == ws[m];
      OnePlace(es, i, x);
      OnePlace(es, j, m);
      assert ws[x + 1..p][m - x - 1] == b;
    }
  }

  lemma WithoutStillFollowed(es: seq<Event>, ws: seq<Event>, p: nat, m: nat)
    requires Distinct(es) && Followed(es, ws, Always()) && m < p < |ws| && p <= |es|
    requires es[..p] == ws[..p] && ws[p] == es[m]
    ensures Followed(es, Without(ws, p), Always())
  {
    var us := Without(ws, p);
    forall x | 0 <= x < |us| ensures Succeeded(es, us[x + 1..], us[x], Always()) {
      if x < p {
        assert us[x + 1..] == ws[x + 1..p] + ws[p + 1..];
        assert Succeeded(es, ws[x + 1..], ws[x], Always());
        forall b | Before(es, us[x], b) && SameTurn(us[x], b) ensures b in us[x + 1..] {
          StillFollowed(es, ws, p, m, x, b);
        }
      } else {
        assert us[x + 1..] == ws[x + 2..];
        assert Succeeded(es, ws[x + 2..], ws[x + 1], Always());
      }
    }
  }

  lemma WithoutStillCovers(es: seq<Event>, ws: seq<Event>, p: nat)
    requires ShowsAll(es, ws) && p < |ws| && ws[p] in ws[..p]
    ensures ShowsAll(es, Without(ws, p))
  {
    assert ws == ws[..p] + [ws[p]] + ws[p + 1..];
  }

  predicate OneTurn(es: seq<Event>) {
    forall a, b :: a in es && b in es ==> SameTurn(a, b)
  }

  /** What comes after the repeated event, up to where the log agrees, is still to come. */
  lemma StillToCome(es: seq<Event>, ws: seq<Event>, p: nat, m: nat)
    requires OneTurn(es) && Followed(es, ws, Always()) && m < p < |ws| && p <= |es| && ws[p] == es[m]
    ensures forall j :: m < j < p ==> es[j] in ws[p + 1..]
  {
    assert Succeeded(es, ws[p + 1..], ws[p], Always());
    forall j | m < j < p ensures es[j] in ws[p + 1..] {
      assert Before(es, es[m], es[j]);
    }
  }

  /** All that is asked of such a log. */
  ghost predicate InOrder(es: seq<Event>, ws: seq<Event>) {
    Introduces(es, ws) && Followed(es, ws, Always()) && ShowsAll(es, ws)
  }

  lemma OneRepeatLess(t: Turn, es: seq<Event>, ws: seq<Event>, p: nat)
    requires Distinct(es) && OneTurn(es) && Measurements(es) && InOrder(es, ws)
    requires p < |ws| && p <= |es| && es[..p] == ws[..p] && (p == |es| || es[p] != ws[p])
    ensures InOrder(es, Without(ws, p)) && FoldTurn(t, ws) == FoldTurn(t, Without(ws, p))
  {
    var m := RepeatAt(es, ws, p);
    assert ws[p] == ws[..p][m];
    WithoutStillIntroduces(es, ws, p);
    WithoutStillFollowed(es, ws, p, m);
    WithoutStillCovers(es, ws, p);
    StillToCome(es, ws, p, m);
    SkipRepeat(t, es, p, m, ws[p + 1..]);
    WithAndWithout(t, ws, p);
  }

  lemma WithAndWithout(t: Turn, ws: seq<Event>, p: nat)
    requires p < |ws|
    ensures FoldTurn(t, ws) == FoldTurn(FoldTurn(t, ws[..p] + [ws[p]]), ws[p + 1..])
    ensures FoldTurn(t, Without(ws, p)) == FoldTurn(FoldTurn(t, ws[..p]), ws[p + 1..])
  {
    InThree(ws, p);
    FoldTurnConcat(t, ws[..p], ws[p + 1..]);
    FoldTurnConcat(t, ws[..p] + [ws[p]], ws[p + 1..]);
  }

  lemma InThree(ws: seq<Event>, p: nat)
    requires p < |ws|
    ensures ws == (ws[..p] + [ws[p]]) + ws[p + 1..]
  {
  }

  lemma {:induction false} TurnFolds(t: Turn, es: seq<Event>, ws: seq<Event>)
    requires Distinct(es) && OneTurn(es) && Measurements(es) && InOrder(es, ws)
    ensures FoldTurn(t, ws) == FoldTurn(t, es)
    decreases |ws|
  {
    var p := Agree(es, ws);
    if p == |ws| {
      AllAgreed(es, ws);
    } else {
      OneRepeatLess(t, es, ws, p);
      TurnFolds(t, es, Without(ws, p));
    }
  }

  lemma AllAgreed(es: seq<Event>, ws: seq<Event>)
    requires Distinct(es) && ShowsAll(es, ws) && |ws| <= |es| && es[..|ws|] == ws
    ensures es == ws
  {
    if |ws| < |es| {
      NotYet(es, |ws|);
    }
  }

  // ---------------------------------------------------------------------------------------------
  // All turns
  // ---------------------------------------------------------------------------------------------

  function OfTurn(k: string): Event -> bool {
    (ev: Event) => !IsResult(ev) && TurnKey(ev) == k
  }

  lemma {:induction false} OnlyIsFilter(es: seq<Event>, k: string)
    ensures Only(es, k) == Sorting.Filter(es, OfTurn(k))
  {
    if es != [] {
      OnlyIsFilter(es[..|es| - 1], k);
    }
  }

  lemma FilterKeepsOrder(es: seq<Event>, keep: Event -> bool, a: Event, b: Event)
    requires Before(Sorting.Filter(es, keep), a, b)
    ensures Before(es, a, b) && keep(a) && keep(b)
  {
    var own := Sorting.Filter(es, keep);
    var i, j := PlacesBefore(own, a, b);
    var y := Sorting.FilterAt(es, keep, j);
    assert a == own[..j][i];
    Sorting.FilterIn(es[..y], keep, a);
    var x := InPrefix(es, y, a);
  }

  lemma PlacesBefore(es: seq<Event>, a: Event, b: Event) returns (i: nat, j: nat)
    requires Before(es, a, b)
    ensures i < j < |es| && es[i] == a && es[j] == b
  {
    var m, n :| 0 <= m < n < |es| && es[m] == a && es[n] == b;
    i, j := m, n;
  }

  lemma FilterDistinct(es: seq<Event>, keep: Event -> bool)
    requires Distinct(es)
    ensures Distinct(Sorting.Filter(es, keep))
  {
    var own := Sorting.Filter(es, keep);
    forall i, j | 0 <= i < j < |own| ensures own[i] != own[j] {
      assert Before(own, own[i], own[j]);
      FilterKeepsOrder(es, keep, own[i], own[j]);
      var x, y := PlacesBefore(es, own[i], own[j]);
    }
  }

  lemma FilterIntroduces(es: seq<Event>, ws: seq<Event>, keep: Event -> bool)
    requires Introduces(es, ws)
    ensures Introduces(Sorting.Filter(es, keep), Sorting.Filter(ws, keep))
  {
    var own := Sorting.Filter(ws, keep);
    forall x | 0 <= x < |own| ensures Introduced(Sorting.Filter(es, keep), own[..x], own[x]) {
      var y := Sorting.FilterAt(ws, keep, x);
      assert Introduced(es, ws[..y], ws[y]);
      Sorting.FilterIn(es, keep, own[x]);
      forall a | Before(Sorting.Filter(es, keep), a, own[x]) ensures a in own[..x] {
        FilterKeepsOrder(es, keep, a, own[x]);
        Sorting.FilterIn(ws[..y], keep, a);
      }
    }
  }

  lemma FilterFollowed(es: seq<Event>, ws: seq<Event>, keep: Event -> bool, due: Event -> bool)
    requires Followed(es, ws, due)
    ensures Followed(Sorting.Filter(es, keep), Sorting.Filter(ws, keep), due)
  {
    var own := Sorting.Filter(ws, keep);
    forall x | 0 <= x < |own| ensures Succeeded(Sorting.Filter(es, keep), own[x + 1..], own[x], due) {
      var y := Sorting.FilterAt(ws, keep, x);
      assert Succeeded(es, ws[y + 1..], ws[y], due);
      forall b | Before(Sorting.Filter(es, keep), own[x], b) && SameTurn(own[x], b) && due(b)
        ensures b in own[x + 1..]
      {
        FilterKeepsOrder(es, keep, own[x], b);
        Sorting.FilterIn(ws[y + 1..], keep, b);
      }
    }
  }

  /** How many of the events a log has shown. */
  ghost predicate Reached(es: seq<Event>, ws: seq<Event>, r: nat) {
    && r <= |es|
    && (forall ev :: ev in ws <==> ev in es[..r])
    && FoldFrom(START, ws).order == FoldFrom(START, es[..r]).order
    && (forall k: string :: k in FoldFrom(START, ws).byTurn <==> k in FoldFrom(START, es[..r]).byTurn)
  }

  lemma NothingReached(es: seq<Event>)
    ensures Reached(es, [], 0)
  {
  }

  lemma ReachedAgain(es: seq<Event>, ws: seq<Event>, r: nat, ev: Event)
    requires Reached(es, ws, r) && ev in ws && !IsResult(ev)
    ensures Reached(es, ws + [ev], r)
  {
    KnownKey(ws, ev);
    assert (ws + [ev])[..|ws|] == ws;
  }

  lemma ReachedNext(es: seq<Event>, ws: seq<Event>, r: nat)
    requires Reached(es, ws, r) && r < |es| && !IsResult(es[r])
    ensures Reached(es, ws + [es[r]], r + 1)
  {
    assert (ws + [es[r]])[..|ws|] == ws;
    assert es[..r + 1] == es[..r] + [es[r]] && es[..r + 1][..r] == es[..r];
  }

  /** An event that may come next is one that was shown, or the first that was not. */
  lemma NextIs(es: seq<Event>, ws: seq<Event>, r: nat, ev: Event)
    requires Distinct(es) && Reached(es, ws, r) && Introduced(es, ws, ev)
    ensures ev in ws || (r < |es| && ev == es[r])
  {
    var j :| 0 <= j < |es| && es[j] == ev;
    if j < r {
      assert es[..r][j] == ev;
    } else if r < j {
      NotYet(es, r);
      assert Before(es, es[r], ev);
    }
  }

  lemma IntroducesInit(es: seq<Event>, ws: seq<Event>)
    requires ws != [] && Introduces(es, ws)
    ensures Introduces(es, ws[..|ws| - 1]) && Introduced(es, ws[..|ws| - 1], ws[|ws| - 1])
  {
    var init := ws[..|ws| - 1];
    forall x | 0 <= x < |init| ensures Introduced(es, init[..x], init[x]) {
      assert init[..x] == ws[..x];
    }
  }

  lemma ReachedMore(es: seq<Event>, ws: seq<Event>, r: nat, ev: Event) returns (now: nat)
    requires Distinct(es) && Reached(es, ws, r) && Introduced(es, ws, ev) && !IsResult(ev)
    ensures Reached(es, ws + [ev], now)
  {
    NextIs(es, ws, r, ev);
    if ev in ws {
      ReachedAgain(es, ws, r, ev);
      now := r;
    } else {
      ReachedNext(es, ws, r);
      now := r + 1;
    }
  }

  lemma {:induction false} OrderReached(es: seq<Event>, ws: seq<Event>) returns (r: nat)
    requires Distinct(es) && Introduces(es, ws) && forall ev :: ev in es ==> !IsResult(ev)
    ensures Reached(es, ws, r)
    decreases |ws|
  {
    if ws == [] {
      r := 0;
      NothingReached(es);
    } else {
      IntroducesInit(es, ws);
      r := OrderReached(es, ws[..|ws| - 1]);
      r := ReachedMore(es, ws[..|ws| - 1], r, ws[|ws| - 1]);
      SplitLast(ws);
    }
  }

  lemma SplitLast(ws: seq<Event>)
    requires ws != []
    ensures ws == ws[..|ws| - 1] + [ws[|ws| - 1]]
  {
  }

  lemma AllReached(es: seq<Event>, ws: seq<Event>, r: nat)
    requires Distinct(es) && Reached(es, ws, r) && ShowsAll(es, ws)
    ensures r == |es|
  {
    if r < |es| {
      NotYet(es, r);
    }
  }

  lemma KnownKey(es: seq<Event>, ev: Event)
    requires ev in es && !IsResult(ev)
    ensures TurnKey(ev) in FoldFrom(START, es).byTurn
  {
    FoldView(START, es, TurnKey(ev));
    OnlyIn(es, TurnKey(ev), ev);
  }

  lemma TurnViews(es: seq<Event>, ws: seq<Event>, k: string)
    requires Distinct(es) && Measurements(es)
    requires InOrder(es, ws)
    ensures View(FoldFrom(START, ws), k) == View(FoldFrom(START, es), k)
  {
    FoldView(START, ws, k);
    FoldView(START, es, k);
    OnlyIsFilter(ws, k);
    OnlyIsFilter(es, k);
    FilterDistinct(es, OfTurn(k));
    FilterIntroduces(es, ws, OfTurn(k));
    FilterFollowed(es, ws, OfTurn(k), Always());
    forall ev ensures ev in Only(es, k) <==> ev in es && !IsResult(ev) && TurnKey(ev) == k {
      OnlyIn(es, k, ev);
    }
    forall ev | ev in Only(es, k) ensures ev in Only(ws, k) {
      OnlyIn(ws, k, ev);
    }
    TurnFolds(View(START, k), Only(es, k), Only(ws, k));
  }

  /** A log in which events first appear in their order, and no event of a turn is shown again without those
      after it, folds as the events themselves: turns, order and results. */
  lemma SightingsFold(es: seq<Event>, ws: seq<Event>)
    requires Distinct(es) && Measurements(es)
    requires InOrder(es, ws)
    ensures FoldFrom(START, ws) == FoldFrom(START, es)
  {
    var r := OrderReached(es, ws);
    AllReached(es, ws, r);
    assert es[..r] == es;
    forall ev | ev in ws ensures !IsResult(ev) {
      assert ev in es;
    }
    FoldKeepsKnown(START, ws);
    FoldKeepsKnown(START, es);
    forall k: string ensures View(FoldFrom(START, ws), k) == View(FoldFrom(START, es), k) {
      TurnViews(es, ws, k);
    }
    SameState(FoldFrom(START, ws), FoldFrom(START, es));
  }

  // ---------------------------------------------------------------------------------------------
  // Exactly when, whatever the events hold
  // ---------------------------------------------------------------------------------------------

  /** Events of the same kinds, ids and times, holding anything else that is recognised when seen again. */
  predicate Shaped(es: seq<Event>, shape: seq<Event>) {
    && |es| == |shape| && (forall i :: 0 <= i < |es| ==> KeyOf(es[i]) == KeyOf(shape[i]))
    && AllReplayable(es)
  }

  /** Events that are told apart by kind, ids and time. */
  predicate Apart(shape: seq<Event>) {
    && (forall i, j :: 0 <= i < j < |shape| ==> KeyOf(shape[i]) != KeyOf(shape[j]))
    && (forall ev :: ev in shape ==> ev.kind != Content && Dated(ev))
  }

  predicate Places(ix: seq<nat>, n: nat) {
    forall x :: 0 <= x < |ix| ==> ix[x] < n
  }

  /** The log that shows the events at these places. */
  function Pick(es: seq<Event>, ix: seq<nat>): (ws: seq<Event>)
    requires Places(ix, |es|)
    ensures |ws| == |ix| && forall x :: 0 <= x < |ix| ==> ws[x] == es[ix[x]]
  {
    seq(|ix|, x requires 0 <= x < |ix| => es[ix[x]])
  }

  /** Every place is shown, none before those in front of it. */
  predicate FirstInOrder(ix: seq<nat>, n: nat) {
    && Places(ix, n)
    && (forall x, i: nat :: 0 <= x < |ix| && i < ix[x] ==> i in ix[..x])
    && (forall i: nat :: i < n ==> i in ix)
  }

  /** What comes after a place in its turn is shown after every showing of that place. */
  predicate NeverReverts(shape: seq<Event>, ix: seq<nat>)
    requires Places(ix, |shape|)
  {
    forall x, j: nat :: 0 <= x < |ix| && ix[x] < j < |shape| && SameTurn(shape[ix[x]], shape[j]) ==> j in ix[x + 1..]
  }

  lemma ShapedIs(es: seq<Event>, shape: seq<Event>)
    requires Shaped(es, shape) && Apart(shape)
    ensures Distinct(es) && Measurements(es)
    ensures forall i, j :: 0 <= i < |es| && 0 <= j < |es| ==> SameTurn(es[i], es[j]) == SameTurn(shape[i], shape[j])
  {
    forall ev | ev in es ensures Dated(ev) {
      var i :| 0 <= i < |es| && es[i] == ev;
      assert shape[i] in shape && KeyOf(es[i]) == KeyOf(shape[i]);
    }
    forall i, j | 0 <= i < |es| && 0 <= j < |es| ensures SameTurn(es[i], es[j]) == SameTurn(shape[i], shape[j]) {
      assert KeyOf(es[i]) == KeyOf(shape[i]) && KeyOf(es[j]) == KeyOf(shape[j]);
    }
    forall i, j | 0 <= i < j < |es| ensures es[i] != es[j] {
      assert KeyOf(es[i]) == KeyOf(shape[i]) && KeyOf(es[j]) == KeyOf(shape[j]);
    }
  }

  lemma PickHas(es: seq<Event>, ix: seq<nat>, i: nat)
    requires Places(ix, |es|) && i in ix
    ensures i < |es| && es[i] in Pick(es, ix)
  {
    var y :| 0 <= y < |ix| && ix[y] == i;
    assert Pick(es, ix)[y] == es[i];
  }

  lemma PickCuts(es: seq<Event>, ix: seq<nat>, x: nat)
    requires Places(ix, |es|) && x < |ix|
    ensures Places(ix[..x], |es|) && Pick(es, ix)[..x] == Pick(es, ix[..x])
    ensures Places(ix[x + 1..], |es|) && Pick(es, ix)[x + 1..] == Pick(es, ix[x + 1..])
  {
  }

  lemma PickIntroduces(es: seq<Event>, ix: seq<nat>)
    requires Distinct(es) && FirstInOrder(ix, |es|)
    ensures Introduces(es, Pick(es, ix)) && ShowsAll(es, Pick(es, ix))
  {
    var ws := Pick(es, ix);
    forall x | 0 <= x < |ws| ensures Introduced(es, ws[..x], ws[x]) {
      PickCuts(es, ix, x);
      forall a | Before(es, a, ws[x]) ensures a in ws[..x] {
        var i, j := PlacesBefore(es, a, ws[x]);
        OnePlace(es, j, ix[x]);
        PickHas(es, ix[..x], i);
      }
    }
    forall ev | ev in es ensures ev in ws {
      var i :| 0 <= i < |es| && es[i] == ev;
      PickHas(es, ix, i);
    }
  }

  lemma PickFollowed(es: seq<Event>, shape: seq<Event>, ix: seq<nat>)
    requires Apart(shape) && Shaped(es, shape) && Places(ix, |es|) && NeverReverts(shape, ix)
    ensures Followed(es, Pick(es, ix), Always())
  {
    var ws := Pick(es, ix);
    ShapedIs(es, shape);
    forall x | 0 <= x < |ws| ensures Succeeded(es, ws[x + 1..], ws[x], Always()) {
      PickCuts(es, ix, x);
      forall b | Before(es, ws[x], b) && SameTurn(ws[x], b) ensures b in ws[x + 1..] {
        var i, j := PlacesBefore(es, ws[x], b);
        OnePlace(es, i, ix[x]);
        PickHas(es, ix[x + 1..], j);
      }
    }
  }

  /** The last session a turn was observed in. */
  function LastName(ws: seq<Event>, k: string): string {
    if ws == [] then ""
    else
      var ev := ws[|ws| - 1];
      if TurnKey(ev) == k && ev.sessionID != "" then ev.sessionID else LastName(ws[..|ws| - 1], k)
  }

  lemma {:induction false} SessionIsLastName(ws: seq<Event>, k: string)
    requires forall ev :: ev in ws ==> !IsResult(ev)
    ensures View(FoldFrom(START, ws), k).SessionID() == LastName(ws, k)
  {
    if ws != [] {
      assert ws[|ws| - 1] in ws;
      SessionIsLastName(ws[..|ws| - 1], k);
    }
  }

  lemma {:induction false} LastNameIs(ws: seq<Event>, y: nat, name: string)
    requires y < |ws| && ws[y].sessionID == name != ""
    requires forall z :: y < z < |ws| && SameTurn(ws[z], ws[y]) ==> ws[z].sessionID == "" || ws[z].sessionID == name
    ensures LastName(ws, TurnKey(ws[y])) == name
    decreases |ws|
  {
    var init, last := ws[..|ws| - 1], ws[|ws| - 1];
    if y < |ws| - 1 {
      LastNameIs(init, y, name);
    }
  }

  function OneOf(x: nat, i: nat, j: nat): string {
    if x == i then "a" else if x == j then "b" else ""
  }

  /** Events of a shape that hold nothing but two session ids. */
  function Named(shape: seq<Event>, i: nat, j: nat): (es: seq<Event>)
    ensures |es| == |shape|
    ensures forall x :: 0 <= x < |es| ==> es[x] == NamedOne(shape[x], OneOf(x, i, j))
  {
    seq(|shape|, x requires 0 <= x < |shape| => NamedOne(shape[x], OneOf(x, i, j)))
  }

  function NamedOne(ev: Event, name: string): Event {
    BLANK_EVENT.(kind := ev.kind, turnID := ev.turnID, messageID := ev.messageID, timestamp := ev.timestamp,
                 sessionID := name)
  }

  lemma NamedIsShaped(shape: seq<Event>, i: nat, j: nat)
    requires Apart(shape)
    ensures Shaped(Named(shape, i, j), shape)
  {
    var es := Named(shape, i, j);
    forall ev | ev in es ensures Replayable(ev) {
      var x :| 0 <= x < |es| && es[x] == ev;
      assert shape[x] in shape;
    }
  }

  /** When an event is shown last although a later one of its turn is not shown after it, its session is the
      last word. */
  lemma Reverts(shape: seq<Event>, ix: seq<nat>, x: nat, j: nat)
    requires Apart(shape) && Places(ix, |shape|) && x < |ix| && ix[x] < j < |shape|
    requires SameTurn(shape[ix[x]], shape[j]) && j !in ix[x + 1..]
    ensures var es := Named(shape, ix[x], j);
            && LastName(Pick(es, ix), TurnKey(shape[j])) == "a" && LastName(es, TurnKey(shape[j])) == "b"
  {
    var es := Named(shape, ix[x], j);
    var ws := Pick(es, ix);
    forall z | x < z < |ws| ensures ws[z].sessionID == "" || ws[z].sessionID == "a" {
      assert ix[x + 1..][z - x - 1] == ix[z];
    }
    LastNameIs(ws, x, "a");
    LastNameIs(es, j, "b");
  }

  lemma RevertsShows(shape: seq<Event>, ix: seq<nat>, x: nat, j: nat)
    requires Apart(shape) && Places(ix, |shape|) && x < |ix| && ix[x] < j < |shape|
    requires SameTurn(shape[ix[x]], shape[j]) && j !in ix[x + 1..]
    ensures var es := Named(shape, ix[x], j);
            Shaped(es, shape) && FoldFrom(START, Pick(es, ix)) != FoldFrom(START, es)
  {
    var es := Named(shape, ix[x], j);
    NamedIsShaped(shape, ix[x], j);
    Reverts(shape, ix, x, j);
    forall ev | ev in Pick(es, ix) ensures ev in es {
      var y :| 0 <= y < |ix| && Pick(es, ix)[y] == ev;
    }
    SessionIsLastName(Pick(es, ix), TurnKey(shape[j]));
    SessionIsLastName(es, TurnKey(shape[j]));
  }

  /** A log that shows a list of events in any way, first in their order, folds as the events themselves, whatever
      they hold, if and only if no event is shown again without those of its turn that come after it. */
  lemma SightingsIff(shape: seq<Event>, ix: seq<nat>)
    requires Apart(shape) && FirstInOrder(ix, |shape|)
    ensures (forall es | Shaped(es, shape) :: FoldFrom(START, Pick(es, ix)) == FoldFrom(START, es))
       <==> NeverReverts(shape, ix)
  {
    if NeverReverts(shape, ix) {
      forall es | Shaped(es, shape) ensures FoldFrom(START, Pick(es, ix)) == FoldFrom(START, es) {
        ShapedIs(es, shape);
        PickIntroduces(es, ix);
        PickFollowed(es, shape, ix);
        SightingsFold(es, Pick(es, ix));
      }
    } else {
      var x, j: nat :| 0 <= x < |ix| && ix[x] < j < |shape| && SameTurn(shape[ix[x]], shape[j]) && j !in ix[x + 1..];
      RevertsShows(shape, ix, x, j);
      assert Shaped(Named(shape, ix[x], j), shape);
    }
  }
}
