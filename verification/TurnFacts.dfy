/** What holds of every turn a fold builds: its key can be read off it, it starts on the day of its
    events, and nothing but the identity depends on the identities. */
module TurnFacts {
  import opened Events
  import opened Fold
  import Pricing
  import Sorting

  // ---------------------------------------------------------------------------------------------
  // The key of a finished turn
  // ---------------------------------------------------------------------------------------------

  /** The key a turn was folded under, recovered from two of its columns. */
  function KeyOfTurn(t: Turn): string {
    if t.facts.labels.messageID != "" then "msg:" + t.facts.labels.messageID else "turn:" + t.facts.labels.turnID
  }

  lemma KeysAreTagged(a: string, b: string)
    ensures "msg:" + a != "turn:" + b
    ensures "msg:" + a == "msg:" + b ==> a == b
    ensures "turn:" + a == "turn:" + b ==> a == b
  {
    assert ("msg:" + a)[0] == 'm' && ("turn:" + b)[0] == 't';
    assert ("msg:" + a)[4..] == a && ("msg:" + b)[4..] == b;
    assert ("turn:" + a)[5..] == a && ("turn:" + b)[5..] == b;
  }

  lemma ApplyKeepsKey(t: Turn, ev: Event)
    requires t == BLANK_TURN || KeyOfTurn(t) == TurnKey(ev)
    ensures KeyOfTurn(Apply(t, ev)) == TurnKey(ev)
  {
    var was, now := t.facts.labels, Apply(t, ev).facts.labels;
    KeysAreTagged(was.messageID, ev.turnID);
    KeysAreTagged(was.messageID, ev.messageID);
    KeysAreTagged(ev.messageID, was.turnID);
    KeysAreTagged(was.turnID, ev.turnID);
  }

  lemma {:induction false} FoldKeepsKeys(es: seq<Event>, key: string)
    ensures key in FoldFrom(START, es).byTurn ==> KeyOfTurn(FoldFrom(START, es).byTurn[key]) == key
  {
    if es != [] {
      var init, last := es[..|es| - 1], es[|es| - 1];
      FoldKeepsKeys(init, key);
      if !IsResult(last) && TurnKey(last) == key {
        ApplyKeepsKey(View(FoldFrom(START, init), key), last);
      }
    }
  }

  // ---------------------------------------------------------------------------------------------
  // The day of a finished turn
  // ---------------------------------------------------------------------------------------------

  predicate AllOn(es: seq<Event>, day: Day) {
    forall ev :: ev in es ==> DayOf(ev.timestamp) == day && ev.timestamp != ZERO_TIME
  }

  /** A day's events fold into turns that start on that day, content-only turns aside. */
  lemma {:induction false} FoldStartsOnDay(es: seq<Event>, day: Day, key: string)
    requires AllOn(es, day) && forall ev :: ev in es ==> ev.kind != Content
    ensures key in FoldFrom(START, es).byTurn ==>
              var t := FoldFrom(START, es).byTurn[key]; DayOf(t.StartedAt()) == day && t.StartedAt() != ZERO_TIME
  {
    if es != [] {
      FoldStartsOnDay(es[..|es| - 1], day, key);
      assert es[|es| - 1] in es;
    }
  }

  lemma {:induction false} AttachKeepsStart(owners: map<string, Turn>, order: seq<string>, results: seq<Event>,
          k: string)
    requires (forall j :: j in order ==> j in owners) && k in owners
    ensures Attach(owners, order, results)[k].StartedAt() == owners[k].StartedAt()
  {
    if results != [] {
      AttachKeepsStart(owners, order, results[..|results| - 1], k);
    }
  }

  lemma PricedKeepsStart(t: Turn)
    ensures Priced(t).StartedAt() == t.StartedAt()
  {
  }

  lemma CollectedTurn(owners: map<string, Turn>, order: seq<string>, t: Turn) returns (k: string)
    requires (forall j :: j in order ==> j in owners) && t in Collect(owners, order)
    ensures k in order && owners[k].StartedAt() == t.StartedAt()
  {
    var i :| 0 <= i < |order| && Collect(owners, order)[i] == t;
    k := order[i];
    PricedKeepsStart(owners[k]);
  }

  /** A finished turn is one of the fold's, with results attached and a price. */
  lemma FinishedTurn(es: seq<Event>, t: Turn) returns (k: string)
    requires t in TurnsOf(es)
    ensures k in FoldFrom(START, es).byTurn && FoldFrom(START, es).byTurn[k].StartedAt() == t.StartedAt()
  {
    FoldKeepsOrder(START, es);
    k := FinishedIn(FoldFrom(START, es), t);
  }

  lemma FinishedIn(s: State, t: Turn) returns (k: string)
    requires WellOrdered(s) && t in Finish(s)
    ensures k in s.byTurn && s.byTurn[k].StartedAt() == t.StartedAt()
  {
    var attached := Attach(s.byTurn, s.order, s.results);
    Sorting.SortMembers(Collect(attached, s.order), StartsBefore, t);
    k := CollectedTurn(attached, s.order, t);
    AttachKeepsStart(s.byTurn, s.order, s.results, k);
  }

  /** The same of the finished turns. */
  lemma TurnsStartOnDay(es: seq<Event>, day: Day)
    requires AllOn(es, day) && forall ev :: ev in es ==> ev.kind != Content
    ensures forall t :: t in TurnsOf(es) ==> DayOf(t.StartedAt()) == day
  {
    forall t | t in TurnsOf(es) ensures DayOf(t.StartedAt()) == day {
      var k := FinishedTurn(es, t);
      FoldStartsOnDay(es, day, k);
    }
  }

  // ---------------------------------------------------------------------------------------------
  // Everything but the identity
  // ---------------------------------------------------------------------------------------------

  function EraseEvent(ev: Event): Event {
    ev.(identity := NO_IDENTITY)
  }

  function EraseTurn(t: Turn): Turn {
    t.(facts := t.facts.(labels := t.facts.labels.(identity := NO_IDENTITY)))
  }

  function EraseTurns(byTurn: map<string, Turn>): map<string, Turn> {
    map k | k in byTurn :: EraseTurn(byTurn[k])
  }

  function EraseAll(es: seq<Event>): (out: seq<Event>)
    ensures |out| == |es| && forall i :: 0 <= i < |es| ==> out[i] == EraseEvent(es[i])
  {
    if es == [] then [] else EraseAll(es[..|es| - 1]) + [EraseEvent(es[|es| - 1])]
  }

  function EraseState(s: State): State {
    State(EraseTurns(s.byTurn), s.order, EraseAll(s.results))
  }

  lemma ApplyErases(t: Turn, ev: Event)
    ensures EraseTurn(Apply(t, ev)) == Apply(EraseTurn(t), EraseEvent(ev))
  {
  }

  lemma StepErases(s: State, ev: Event)
    ensures EraseState(Step(s, ev)) == Step(EraseState(s), EraseEvent(ev))
  {
    if IsResult(ev) {
      assert (s.results + [ev])[..|s.results|] == s.results;
    } else {
      var key := TurnKey(ev);
      ApplyErases(View(s, key), ev);
      assert EraseTurn(BLANK_TURN) == BLANK_TURN;
      assert EraseTurns(s.byTurn[key := Apply(View(s, key), ev)])
          == EraseTurns(s.byTurn)[key := EraseTurn(Apply(View(s, key), ev))];
    }
  }

  lemma FoldSnoc(s: State, es: seq<Event>, ev: Event)
    ensures FoldFrom(s, es + [ev]) == Step(FoldFrom(s, es), ev)
  {
    assert (es + [ev])[..|es|] == es;
  }

  lemma {:induction false} FoldErases(s: State, es: seq<Event>)
    ensures EraseState(FoldFrom(s, es)) == FoldFrom(EraseState(s), EraseAll(es))
    decreases |es|
  {
    if es != [] {
      var init, last := es[..|es| - 1], es[|es| - 1];
      FoldErases(s, init);
      StepErases(FoldFrom(s, init), last);
      FoldSnoc(EraseState(s), EraseAll(init), EraseEvent(last));
    }
  }

  lemma {:induction false} OwnerErases(byTurn: map<string, Turn>, order: seq<string>, id: string)
    requires forall k :: k in order ==> k in byTurn
    ensures Owner(EraseTurns(byTurn), order, id) == Owner(byTurn, order, id)
  {
    if order != [] && id != "" {
      OwnerErases(byTurn, order[..|order| - 1], id);
    }
  }

  lemma {:induction false} AttachErases(byTurn: map<string, Turn>, order: seq<string>, results: seq<Event>)
    requires forall k :: k in order ==> k in byTurn
    ensures EraseTurns(Attach(byTurn, order, results)) == Attach(EraseTurns(byTurn), order, EraseAll(results))
  {
    if results != [] {
      var init, last := results[..|results| - 1], results[|results| - 1];
      AttachErases(byTurn, order, init);
      OwnerErases(byTurn, order, last.toolUseID);
      assert EraseAll(results)[..|results| - 1] == EraseAll(init);
      var rest := Attach(byTurn, order, init);
      var owner := Owner(byTurn, order, last.toolUseID);
      if owner.Some? && last.contentBlob != "" {
        AddBlobErases(rest, owner.value, last.contentBlob);
      }
    }
  }

  lemma AddBlobErases(byTurn: map<string, Turn>, key: string, blob: string)
    requires key in byTurn
    ensures EraseTurns(AddBlob(byTurn, key, blob)) == AddBlob(EraseTurns(byTurn), key, blob)
  {
    var t := byTurn[key];
    assert EraseTurn(t.(contentBlobs := t.contentBlobs + [blob]))
        == EraseTurn(t).(contentBlobs := EraseTurn(t).contentBlobs + [blob]);
  }

  lemma {:induction false} CollectErases(byTurn: map<string, Turn>, order: seq<string>)
    requires forall k :: k in order ==> k in byTurn
    ensures Sorting.Map(EraseTurn, Collect(byTurn, order)) == Collect(EraseTurns(byTurn), order)
  {
    if order != [] {
      CollectErases(byTurn, order[..|order| - 1]);
      var all := Collect(byTurn, order);
      assert all[..|all| - 1] == Collect(byTurn, order[..|order| - 1]);
    }
  }

  /** The turns of a stream without identities are the stream's turns without identities: same turns,
      same order, same everything else. */
  lemma TurnsErase(es: seq<Event>)
    ensures Sorting.Map(EraseTurn, TurnsOf(es)) == TurnsOf(EraseAll(es))
  {
    FoldKeepsOrder(START, es);
    FoldKeepsOrder(START, EraseAll(es));
    var s := FoldFrom(START, es);
    FoldErases(START, es);
    assert EraseState(START) == START by {
      assert EraseTurns(map[]) == map[];
    }
    AttachErases(s.byTurn, s.order, s.results);
    var attached := Attach(s.byTurn, s.order, s.results);
    CollectErases(attached, s.order);
    Sorting.SortMap(Collect(attached, s.order), EraseTurn, StartsBefore);
  }

  // ---------------------------------------------------------------------------------------------
  // The order of the finished turns
  // ---------------------------------------------------------------------------------------------

  /** An ordinary event of the turn filed under `key`. */
  predicate Mentions(es: seq<Event>, key: string) {
    exists i :: 0 <= i < |es| && !IsResult(es[i]) && TurnKey(es[i]) == key
  }

  /** Some first part of the events has met the one turn and not yet the other. */
  ghost predicate SeenFirst(es: seq<Event>, earlier: string, later: string) {
    exists n :: 0 <= n <= |es| && Mentions(es[..n], earlier) && !Mentions(es[..n], later)
  }

  lemma {:induction false} FoldedIffMentioned(es: seq<Event>, key: string)
    ensures key in FoldFrom(START, es).byTurn <==> Mentions(es, key)
  {
    if es != [] {
      var init, last := es[..|es| - 1], es[|es| - 1];
      FoldedIffMentioned(init, key);
      MentionsOneMore(init, last, key);
      assert es == init + [last];
    }
  }

  lemma MentionsOneMore(es: seq<Event>, ev: Event, key: string)
    ensures Mentions(es + [ev], key) <==> Mentions(es, key) || (!IsResult(ev) && TurnKey(ev) == key)
  {
    if Mentions(es, key) {
      var i :| 0 <= i < |es| && !IsResult(es[i]) && TurnKey(es[i]) == key;
      assert (es + [ev])[i] == es[i];
    }
    assert (es + [ev])[|es|] == ev;
  }

  lemma SeenFirstStays(es: seq<Event>, ev: Event, earlier: string, later: string)
    requires SeenFirst(es, earlier, later)
    ensures SeenFirst(es + [ev], earlier, later)
  {
    var n :| 0 <= n <= |es| && Mentions(es[..n], earlier) && !Mentions(es[..n], later);
    assert (es + [ev])[..n] == es[..n];
  }

  lemma SeenLast(es: seq<Event>, ev: Event, earlier: string, later: string)
    requires Mentions(es, earlier) && !Mentions(es, later)
    ensures SeenFirst(es + [ev], earlier, later)
  {
    assert (es + [ev])[..|es|] == es;
  }

  lemma OrderOneMore(es: seq<Event>)
    requires es != []
    ensures var order, ev := FoldFrom(START, es[..|es| - 1]).order, es[|es| - 1];
            || FoldFrom(START, es).order == order
            || (FoldFrom(START, es).order == order + [TurnKey(ev)] && !IsResult(ev)
               && !Mentions(es[..|es| - 1], TurnKey(ev)))
  {
    FoldedIffMentioned(es[..|es| - 1], TurnKey(es[|es| - 1]));
  }

  lemma ListedIsMentioned(es: seq<Event>, i: nat)
    requires i < |FoldFrom(START, es).order|
    ensures Mentions(es, FoldFrom(START, es).order[i])
  {
    FoldKeepsOrder(START, es);
    assert FoldFrom(START, es).order[i] in FoldFrom(START, es).byTurn;
    FoldedIffMentioned(es, FoldFrom(START, es).order[i]);
  }

  /** The fold lists turns as they first appear. */
  lemma {:induction false} OrderIsFirstSeen(es: seq<Event>, i: nat, j: nat)
    requires i < j < |FoldFrom(START, es).order|
    ensures SeenFirst(es, FoldFrom(START, es).order[i], FoldFrom(START, es).order[j])
    decreases |es|
  {
    var init, last := es[..|es| - 1], es[|es| - 1];
    var order := FoldFrom(START, init).order;
    OrderOneMore(es);
    assert es == init + [last];
    if j < |order| {
      OrderIsFirstSeen(init, i, j);
      SeenFirstStays(init, last, order[i], order[j]);
    } else {
      ListedIsMentioned(init, i);
      SeenLast(init, last, order[i], TurnKey(last));
    }
  }

  function StartsAt(at: Instant): Turn -> bool {
    (t: Turn) => t.StartedAt() == at
  }

  /** Every turn before sorting, in order of first appearance. */
  ghost function AsSeen(es: seq<Event>): seq<Turn> {
    FoldKeepsOrder(START, es);
    var s := FoldFrom(START, es);
    Collect(Attach(s.byTurn, s.order, s.results), s.order)
  }

  /** Turns come by start, and those that start together in the order in which they first appeared. */
  lemma ByStartThenFirstSeen(es: seq<Event>, at: Instant)
    ensures multiset(TurnsOf(es)) == multiset(AsSeen(es))
    ensures forall i, j :: 0 <= i < j < |TurnsOf(es)| ==> TurnsOf(es)[i].StartedAt() <= TurnsOf(es)[j].StartedAt()
    ensures Sorting.Filter(TurnsOf(es), StartsAt(at)) == Sorting.Filter(AsSeen(es), StartsAt(at))
  {
    var turns := AsSeen(es);
    assert TurnsOf(es) == Sorting.SortBy(turns, StartsBefore);
    Sorting.SortSorts(turns, StartsBefore);
    Sorting.SortStable(turns, StartsBefore, StartsAt(at));
  }
}
