/** Runs after which the server's turn differs from the local one: a quiet collector that sends the beginning of a day
    again, an event stored twice and sent once, and a replay that is recorded half-way. */
module Reverting {
  import opened EndToEnd
  import opened Events
  import opened Fold
  import opened Forward
  import opened Shipping
  import opened Sightings
  import opened Slices
  import Collect
  import Replay
  import Sorting
  import TurnFacts

  // ---------------------------------------------------------------------------------------------
  // Step by step
  // ---------------------------------------------------------------------------------------------

  /** A run as delivery asks for it gets from one world to another. */
  ghost predicate Leads(c: Setting, w: World, actions: seq<Action>, v: World) {
    && Runs(c, w, actions) && ProperRun(c, w, actions) && OrderlyRun(c, w, actions) && After(c, w, actions) == v
  }

  lemma NoStep(c: Setting, w: World)
    ensures Leads(c, w, [], w)
  {
  }

  lemma FirstStep(c: Setting, w: World, a: Action, rest: seq<Action>, v: World)
    requires Enabled(c, w, a) && Proper(c, w, a) && Orderly(w, a) && Leads(c, Next(c, w, a), rest, v)
    ensures Leads(c, w, [a] + rest, v)
  {
    assert ([a] + rest)[1..] == rest && ([a] + rest)[0] == a;
  }

  // ---------------------------------------------------------------------------------------------
  // Passes over a log of one day
  // ---------------------------------------------------------------------------------------------

  /** Measurements of one day, none ahead of the clock, that the server finds plausible. */
  predicate OneDay(log: seq<Event>, day: Day, now: Instant, serverNow: Instant) {
    && DayOf(now) == day
    && forall ev :: ev in log ==>
         OnDay(day)(ev) && ZERO_TIME < ev.timestamp <= now && Collect.Plausible(ev, serverNow) && Replay.Replayable(ev)
  }

  lemma {:induction false} OldestIs(log: seq<Event>, day: Day)
    requires log != [] && forall ev :: ev in log ==> DayOf(ev.timestamp) == day
    ensures OldestDay(log) == day
  {
    if |log| > 1 {
      OldestIs(log[..|log| - 1], day);
    }
    assert log[|log| - 1] in log && log[0] in log;
  }

  lemma {:induction false} FileIsAll(log: seq<Event>, day: Day)
    requires forall ev :: ev in log ==> DayOf(ev.timestamp) == day
    ensures DayFile(log, day) == log
  {
    if log != [] {
      assert log[|log| - 1] in log;
      FileIsAll(log[..|log| - 1], day);
    }
  }

  lemma {:induction false} RangeIsAll(log: seq<Event>, from: Instant, now: Instant, day: Day)
    requires DayOf(from) == DayOf(now) == day && from <= now
    requires forall ev :: ev in log ==> DayOf(ev.timestamp) == day
    ensures EventsRange(FileStore, log, from, now) == log
  {
    FileIsAll(log, day);
    assert DayFiles(log, day, day - 1) == [];
    assert [] + log == log;
  }

  lemma ReadsAll(mark: Bookmark, overlap: nat, log: seq<Event>, now: Instant, serverNow: Instant, day: Day)
    requires log != [] && OneDay(log, day, now, serverNow)
    requires mark.shipped != ZERO_TIME ==> DayOf(mark.shipped - overlap) == day && mark.shipped <= now
    ensures ReadFor(FileStore, mark, overlap, log, now) == log
  {
    OldestIs(log, day);
    RangeIsAll(log, From(mark, overlap, log), now, day);
  }

  /** The world after a pass that is recorded. */
  ghost function Passed(c: Setting, w: World, now: Instant, serverNow: Instant): World
    requires w.target != ""
  {
    Next(c, Next(c, w, PassStarts(now)), PassEnds(serverNow, 0, true, true))
  }

  ghost predicate Still(c: Setting, w: World, log: seq<Event>, day: Day, now: Instant, serverNow: Instant) {
    && c.store.FileStore? && w.target != "" && w.local == log && log != [] && OneDay(log, day, now, serverNow)
    && w.clock <= now && w.flight == NoFlight
    && (w.saved == NO_BOOKMARK
        || (w.saved.server == w.target && ZERO_TIME < w.saved.shipped <= now
            && DayOf(w.saved.shipped - c.overlap) == day))
  }

  lemma PassReads(c: Setting, w: World, log: seq<Event>, day: Day, now: Instant, serverNow: Instant)
    requires Still(c, w, log, day, now, serverNow)
    ensures var u := Next(c, w, PassStarts(now));
            u.flight == Flight(if w.saved == NO_BOOKMARK then NO_BOOKMARK else w.saved, log, now, |log|)
  {
    ReadsAll(Rebase(w.saved, w.target), c.overlap, log, now, serverNow, day);
  }

  /** What the end of a pass that arrived whole does. */
  lemma EndDoes(c: Setting, u: World, serverNow: Instant)
    requires u.flight.Flight?
    ensures var v, p := Next(c, u, PassEnds(serverNow, 0, true, true)), PendingIn(u.flight);
            && Accepted(v) == Accepted(u) + Collect.Landed(p, serverNow, c.stamp)
            && v.saved == (if p == [] then u.saved else MarkAhead(c, u))
            && v.local == u.local && v.target == u.target && v.clock == u.clock && v.flight == NoFlight
  {
  }

  lemma LandedOfDay(c: Setting, was: seq<Event>, log: seq<Event>, recent: seq<Key>, day: Day, now: Instant,
          serverNow: Instant)
    requires OneDay(log, day, now, serverNow)
    ensures var p := Pending(log, recent);
            Slice(was + Collect.Landed(p, serverNow, c.stamp), day) == Slice(was, day) + Slice(p, day)
  {
    var p := Pending(log, recent);
    forall ev | ev in p ensures Collect.Plausible(ev, serverNow) {
      PendingContents(log, recent, ev);
    }
    SliceOfLanded(p, serverNow, c.stamp, day);
    SliceConcat(was, Collect.Landed(p, serverNow, c.stamp), day);
  }

  /** What such a pass does. */
  lemma PassDoes(c: Setting, w: World, log: seq<Event>, day: Day, now: Instant, serverNow: Instant)
    requires Still(c, w, log, day, now, serverNow)
    ensures var pending, v := Pending(log, w.saved.recent), Passed(c, w, now, serverNow);
            && Slice(Accepted(v), day) == Slice(Accepted(w), day) + Slice(pending, day)
            && v.saved == (if pending == [] then w.saved else Advanced(w.saved, c.overlap, log, w.target))
            && v.local == log && v.target == w.target && v.clock == now && v.flight == NoFlight
  {
    PassReads(c, w, log, day, now, serverNow);
    EndDoes(c, Next(c, w, PassStarts(now)), serverNow);
    LandedOfDay(c, Accepted(w), log, w.saved.recent, day, now, serverNow);
  }

  /** The session of a turn as a day's events fold. */
  function SessionIn(es: seq<Event>, day: Day, k: string): string {
    View(FoldFrom(START, Slice(es, day)), k).SessionID()
  }

  lemma {:induction false} SliceOfDay(es: seq<Event>, day: Day)
    requires forall ev :: ev in es ==> OnDay(day)(ev)
    ensures Slice(es, day) == TurnFacts.EraseAll(es)
  {
    AllShown(es, day);
  }

  lemma {:induction false} AllShown(es: seq<Event>, day: Day)
    requires forall ev :: ev in es ==> OnDay(day)(ev)
    ensures Shown(es, day) == es
  {
    if es != [] {
      assert es[|es| - 1] in es;
      AllShown(es[..|es| - 1], day);
    }
  }

  /** The last event of a turn, if it names a session, decides. */
  lemma LastWord(ws: seq<Event>, y: nat)
    requires y < |ws| && ws[y].sessionID != "" && forall ev :: ev in ws ==> ev.kind != Content
    requires forall z :: y < z < |ws| ==> !SameTurn(ws[z], ws[y])
    ensures View(FoldFrom(START, TurnFacts.EraseAll(ws)), TurnKey(ws[y])).SessionID() == ws[y].sessionID
  {
    var es := TurnFacts.EraseAll(ws);
    NoneIsResult(ws);
    ErasedKeepsWords(ws);
    LastNameIs(es, y, ws[y].sessionID);
    SessionIsLastName(es, TurnKey(ws[y]));
  }

  lemma NoneIsResult(ws: seq<Event>)
    requires forall ev :: ev in ws ==> ev.kind != Content
    ensures forall ev :: ev in TurnFacts.EraseAll(ws) ==> !IsResult(ev)
  {
    var es := TurnFacts.EraseAll(ws);
    forall ev | ev in es ensures !IsResult(ev) {
      var i :| 0 <= i < |es| && es[i] == ev;
      assert ws[i] in ws;
    }
  }

  lemma {:induction false} ErasedKeepsWords(ws: seq<Event>)
    ensures var es := TurnFacts.EraseAll(ws);
            forall z :: 0 <= z < |ws| ==> TurnKey(es[z]) == TurnKey(ws[z]) && es[z].sessionID == ws[z].sessionID
  {
  }

  // ---------------------------------------------------------------------------------------------
  // A quiet collector
  // ---------------------------------------------------------------------------------------------

  lemma NewestSnoc(es: seq<Event>, ev: Event)
    ensures Newest(es + [ev]) == if ev.timestamp > Newest(es) then ev.timestamp else Newest(es)
  {
    assert (es + [ev])[..|es|] == es;
  }

  lemma KeysSnoc(es: seq<Event>, ev: Event, cutoff: Instant)
    ensures KeysWithin(es + [ev], cutoff) == KeysWithin(es, cutoff) + if ev.timestamp < cutoff then [] else [KeyOf(ev)]
  {
    assert (es + [ev])[..|es|] == es;
  }

  lemma PendingSnoc(es: seq<Event>, ev: Event, recent: seq<Key>)
    ensures Pending(es + [ev], recent)
         == Pending(es, recent) + if KeyOf(ev) in recent || ev.kind == Content then [] else [ev]
  {
    assert (es + [ev])[..|es|] == es;
  }

  /** Three events, and what a bookmark made of them holds. */
  ghost predicate Three(log: seq<Event>, a: Event, b: Event, last: Event) {
    && log == (([] + [a]) + [b]) + [last]
    && KeyOf(a) != KeyOf(b) && KeyOf(a) != KeyOf(last) && KeyOf(b) != KeyOf(last)
    && a.kind != Content && b.kind != Content && last.kind != Content
  }

  ghost predicate Marks(mark: Bookmark, overlap: nat, a: Event, b: Event, last: Event) {
    && mark.shipped == last.timestamp && mark.recent == ([] + [KeyOf(b)]) + [KeyOf(last)]
    && ZERO_TIME < a.timestamp < last.timestamp - overlap <= b.timestamp <= last.timestamp
  }

  lemma MarkOfThree(mark: Bookmark, overlap: nat, target: string, log: seq<Event>, a: Event, b: Event, last: Event)
    requires Three(log, a, b, last) && ZERO_TIME <= mark.shipped <= last.timestamp
    requires ZERO_TIME < a.timestamp < last.timestamp - overlap <= b.timestamp <= last.timestamp
    ensures Marks(Advanced(mark, overlap, log, target), overlap, a, b, last)
    ensures Advanced(mark, overlap, log, target).server == target
  {
    var cutoff := last.timestamp - overlap;
    NewestSnoc([], a);
    NewestSnoc([] + [a], b);
    NewestSnoc(([] + [a]) + [b], last);
    KeysSnoc([], a, cutoff);
    KeysSnoc([] + [a], b, cutoff);
    KeysSnoc(([] + [a]) + [b], last, cutoff);
  }

  lemma PendingOfThree(log: seq<Event>, recent: seq<Key>, a: Event, b: Event, last: Event)
    requires Three(log, a, b, last)
    ensures recent == [] ==> Pending(log, recent) == log
    ensures recent == ([] + [KeyOf(b)]) + [KeyOf(last)] ==> Pending(log, recent) == [a]
  {
    PendingSnoc([], a, recent);
    PendingSnoc([] + [a], b, recent);
    PendingSnoc(([] + [a]) + [b], last, recent);
    assert [] + [a] == [a];
  }

  function OnePass(now: Instant, serverNow: Instant): seq<Action> {
    [PassStarts(now)] + ([PassEnds(serverNow, 0, true, true)] + [])
  }

  lemma PassLeads(c: Setting, w: World, log: seq<Event>, day: Day, now: Instant, serverNow: Instant)
    requires Still(c, w, log, day, now, serverNow)
    ensures Leads(c, w, OnePass(now, serverNow), Passed(c, w, now, serverNow))
  {
    var u, v := Next(c, w, PassStarts(now)), Passed(c, w, now, serverNow);
    NoStep(c, v);
    FirstStep(c, u, PassEnds(serverNow, 0, true, true), [], v);
    FirstStep(c, w, PassStarts(now), [PassEnds(serverNow, 0, true, true)] + [], v);
  }

  lemma {:induction false} ThenLeads(c: Setting, w: World, first: seq<Action>, u: World, rest: seq<Action>, v: World)
    requires Leads(c, w, first, u) && Leads(c, u, rest, v)
    ensures Leads(c, w, first + rest, v)
    decreases |first|
  {
    if first == [] {
      assert first + rest == rest;
    } else {
      var a, more := first[0], first[1..];
      ThenLeads(c, Next(c, w, a), more, u, rest, v);
      FirstStep(c, w, a, more + rest, v);
      assert first + rest == [a] + (more + rest);
    }
  }

  /** An event of its own, to a log nothing of which was sent. */
  lemma FreshAppend(c: Setting, w: World, ev: Event)
    requires c.store.FileStore? && w.saved == NO_BOOKMARK && w.flight == NoFlight && ev.timestamp > ZERO_TIME
    requires forall other :: other in w.local ==> KeyOf(other) != KeyOf(ev)
    ensures Leads(c, w, [Append(ev)] + [], w.(local := w.local + [ev]))
  {
    NoStep(c, Next(c, w, Append(ev)));
    FirstStep(c, w, Append(ev), [], Next(c, w, Append(ev)));
  }

  lemma ThreeAppended(c: Setting, w: World, log: seq<Event>, a: Event, b: Event, last: Event)
    returns (actions: seq<Action>)
    requires c.store.FileStore? && w.local == [] && w.saved == NO_BOOKMARK && w.flight == NoFlight
    requires Three(log, a, b, last) && a.timestamp > ZERO_TIME && b.timestamp > ZERO_TIME && last.timestamp > ZERO_TIME
    ensures Leads(c, w, actions, w.(local := log))
  {
    var w1 := w.(local := [] + [a]);
    var w2 := w1.(local := ([] + [a]) + [b]);
    FreshAppend(c, w, a);
    FreshAppend(c, w1, b);
    FreshAppend(c, w2, last);
    ThenLeads(c, w, [Append(a)] + [], w1, [Append(b)] + [], w2);
    actions := [Append(a)] + [] + ([Append(b)] + []);
    ThenLeads(c, w, actions, w2, [Append(last)] + [], w.(local := log));
    actions := actions + ([Append(last)] + []);
  }

  /** The first pass sends all three and records it. */
  lemma AllSent(c: Setting, w: World, log: seq<Event>, a: Event, b: Event, last: Event, day: Day, now: Instant,
          serverNow: Instant)
    requires Still(c, w, log, day, now, serverNow) && Three(log, a, b, last) && w.saved == NO_BOOKMARK
    requires ZERO_TIME < a.timestamp < last.timestamp - c.overlap <= b.timestamp <= last.timestamp <= now
    requires DayOf(last.timestamp - c.overlap) == day && Slice(Accepted(w), day) == []
    ensures var v := Passed(c, w, now, serverNow);
            && Still(c, v, log, day, now, serverNow) && Marks(v.saved, c.overlap, a, b, last)
            && Slice(Accepted(v), day) == Slice(log, day)
  {
    PassDoes(c, w, log, day, now, serverNow);
    PendingOfThree(log, w.saved.recent, a, b, last);
    MarkOfThree(w.saved, c.overlap, w.target, log, a, b, last);
    assert [] + Slice(log, day) == Slice(log, day);
  }

  /** Every later pass sends the first again. */
  lemma FirstAgain(c: Setting, w: World, log: seq<Event>, a: Event, b: Event, last: Event, day: Day, now: Instant,
          serverNow: Instant)
    requires Still(c, w, log, day, now, serverNow) && Three(log, a, b, last) && last.timestamp <= now
    requires Marks(w.saved, c.overlap, a, b, last) && DayOf(last.timestamp - c.overlap) == day
    ensures PendingIn(Next(c, w, PassStarts(now)).flight) == [a]
    ensures var v := Passed(c, w, now, serverNow);
            && Still(c, v, log, day, now, serverNow) && Marks(v.saved, c.overlap, a, b, last)
            && Slice(Accepted(v), day) == Slice(Accepted(w), day) + Slice([a], day)
  {
    PassReads(c, w, log, day, now, serverNow);
    PassDoes(c, w, log, day, now, serverNow);
    PendingOfThree(log, w.saved.recent, a, b, last);
    MarkOfThree(w.saved, c.overlap, w.target, log, a, b, last);
  }

  lemma ThreeObserved(log: seq<Event>, a: Event, b: Event, last: Event, day: Day, now: Instant, serverNow: Instant)
    requires Three(log, a, b, last) && OneDay(log, day, now, serverNow)
    ensures Observed(log) && a in log && b in log && last in log
    ensures |log| == 3 && log[0] == a && log[1] == b && log[2] == last
  {
    assert log[0] == a && log[1] == b && log[2] == last;
  }

  lemma ServerHasFour(log: seq<Event>, accepted: seq<Event>, a: Event, day: Day)
    requires a in log && (forall ev :: ev in log ==> OnDay(day)(ev))
    requires Slice(accepted, day) == Slice(log, day) + Slice([a], day)
    ensures Slice(accepted, day) == TurnFacts.EraseAll(log + [a]) && Slice(log, day) == TurnFacts.EraseAll(log)
  {
    SliceOfDay(log, day);
    SliceOfDay([a], day);
    EraseConcat(log, [a]);
  }

  lemma LastOfFour(log: seq<Event>, a: Event)
    requires a in log && a.sessionID != "" && forall ev :: ev in log ==> ev.kind != Content
    ensures View(FoldFrom(START, TurnFacts.EraseAll(log + [a])), TurnKey(a)).SessionID() == a.sessionID
  {
    LastWord(log + [a], |log|);
  }

  /** What the two ends have then. */
  lemma TheyDiffer(log: seq<Event>, accepted: seq<Event>, a: Event, b: Event, last: Event, day: Day, now: Instant,
          serverNow: Instant)
    requires Three(log, a, b, last) && OneDay(log, day, now, serverNow) && SameTurn(a, b) && !SameTurn(a, last)
    requires Slice(accepted, day) == Slice(log, day) + Slice([a], day)
    requires a.sessionID != "" && b.sessionID != ""
    ensures SessionIn(accepted, day, TurnKey(b)) == a.sessionID && SessionIn(log, day, TurnKey(b)) == b.sessionID
  {
    ThreeObserved(log, a, b, last, day, now, serverNow);
    ServerHasFour(log, accepted, a, day);
    LastOfFour(log, a);
    MiddleWord(log);
  }

  lemma MiddleWord(log: seq<Event>)
    requires |log| == 3 && log[1].sessionID != "" && !SameTurn(log[2], log[1])
    requires forall ev :: ev in log ==> ev.kind != Content
    ensures View(FoldFrom(START, TurnFacts.EraseAll(log)), TurnKey(log[1])).SessionID() == log[1].sessionID
  {
    LastWord(log, 1);
  }

  /** Three events of a day are sent and recorded; the next pass sends the first of them again, and so does every
      pass after it; and the server's turn is then what the first observation says, the local turn what the second
      says. All that delivery asks for holds, and no event comes twice. */
  lemma QuietCollectorReverts(c: Setting, w: World, log: seq<Event>, a: Event, b: Event, last: Event, day: Day,
          now: Instant, serverNow: Instant) returns (actions: seq<Action>, v: World)
    requires c.store.FileStore? && CleanStart(w) && w.clock <= now
    requires Three(log, a, b, last) && OneDay(log, day, now, serverNow) && SameTurn(a, b) && !SameTurn(a, last)
    requires ZERO_TIME < a.timestamp < last.timestamp - c.overlap <= b.timestamp <= last.timestamp <= now
    requires DayOf(last.timestamp - c.overlap) == day
    requires a.sessionID != "" && b.sessionID != "" && a.sessionID != b.sessionID
    ensures Leads(c, w, actions, v) && v.local == log && Observed(log) && v.target != ""
    ensures PendingIn(Next(c, v, PassStarts(now)).flight) == [a]
    ensures SessionIn(Accepted(v), day, TurnKey(b)) == a.sessionID && SessionIn(log, day, TurnKey(b)) == b.sessionID
  {
    var w3 := w.(local := log);
    var w5 := Passed(c, w3, now, serverNow);
    ThreeObserved(log, a, b, last, day, now, serverNow);
    actions := ThreeAppended(c, w, log, a, b, last);
    AllSent(c, w3, log, a, b, last, day, now, serverNow);
    FirstAgain(c, w5, log, a, b, last, day, now, serverNow);
    v := Passed(c, w5, now, serverNow);
    FirstAgain(c, v, log, a, b, last, day, now, serverNow);
    TheyDiffer(log, Accepted(v), a, b, last, day, now, serverNow);
    PassLeads(c, w3, log, day, now, serverNow);
    PassLeads(c, w5, log, day, now, serverNow);
    ThenLeads(c, w, actions, w3, OnePass(now, serverNow), w5);
    actions := actions + OnePass(now, serverNow);
    ThenLeads(c, w, actions, w5, OnePass(now, serverNow), v);
    actions := actions + OnePass(now, serverNow);
  }

  /** There are such events on any day, for any window shorter than a day. */
  lemma SuchEvents(overlap: nat, day: Day) returns (log: seq<Event>, a: Event, b: Event, last: Event, now: Instant)
    requires day > 0 && 0 < overlap < 86_000_000
    ensures Three(log, a, b, last) && OneDay(log, day, now, now) && SameTurn(a, b) && !SameTurn(a, last)
    ensures ZERO_TIME < a.timestamp < last.timestamp - overlap <= b.timestamp <= last.timestamp <= now
    ensures DayOf(last.timestamp - overlap) == day
    ensures a.sessionID != "" && b.sessionID != "" && a.sessionID != b.sessionID
  {
    var start := StartOf(day);
    a := BLANK_EVENT.(messageID := "m", sessionID := "a", timestamp := start);
    b := BLANK_EVENT.(messageID := "m", sessionID := "b", timestamp := start + 1);
    last := BLANK_EVENT.(messageID := "n", timestamp := start + 1 + overlap);
    now := last.timestamp;
    log := (([] + [a]) + [b]) + [last];
    TurnKeysDiffer();
  }

  lemma TurnKeysDiffer()
    ensures "msg:" + "m" != "msg:" + "n"
  {
    assert ("msg:" + "m")[4] == 'm' && ("msg:" + "n")[4] == 'n';
  }

  // ---------------------------------------------------------------------------------------------
  // Events that come twice
  // ---------------------------------------------------------------------------------------------

  /** Two observations of one turn that lie inside one window. */
  predicate Twin(overlap: nat, a: Event, b: Event) {
    && KeyOf(a) != KeyOf(b) && SameTurn(a, b) && a.kind != Content && b.kind != Content
    && ZERO_TIME < a.timestamp <= b.timestamp <= a.timestamp + overlap
    && DayOf(b.timestamp - overlap) == DayOf(a.timestamp)
    && a.sessionID != "" && b.sessionID != "" && a.sessionID != b.sessionID
  }

  /** A log of these two, in any order and number. */
  predicate OfTwo(log: seq<Event>, a: Event, b: Event) {
    forall ev :: ev in log ==> ev == a || ev == b
  }

  lemma {:induction false} NewestOfTwo(log: seq<Event>, a: Event, b: Event)
    requires OfTwo(log, a, b) && b in log && ZERO_TIME < a.timestamp <= b.timestamp
    ensures Newest(log) == b.timestamp
  {
    NewestBounds(log, b);
  }

  lemma KeysOfTwo(log: seq<Event>, a: Event, b: Event, cutoff: Instant)
    requires OfTwo(log, a, b) && a in log && b in log && cutoff <= a.timestamp <= b.timestamp
    ensures KeyOf(a) in KeysWithin(log, cutoff) && KeyOf(b) in KeysWithin(log, cutoff)
  {
    KeysWithinContents(log, cutoff, KeyOf(a));
    KeysWithinContents(log, cutoff, KeyOf(b));
  }

  ghost predicate ListsBoth(mark: Bookmark, overlap: nat, a: Event, b: Event) {
    && mark.shipped == b.timestamp && KeyOf(a) in mark.recent && KeyOf(b) in mark.recent
  }

  lemma {:induction false} AllPending(log: seq<Event>)
    requires forall ev :: ev in log ==> ev.kind != Content
    ensures Pending(log, []) == log
  {
    if log != [] {
      SplitLast(log);
      AllPending(log[..|log| - 1]);
    }
  }

  lemma NonePending(log: seq<Event>, recent: seq<Key>, a: Event, b: Event)
    requires OfTwo(log, a, b) && KeyOf(a) in recent && KeyOf(b) in recent
    ensures Pending(log, recent) == []
  {
    if Pending(log, recent) != [] {
      PendingContents(log, recent, Pending(log, recent)[0]);
    }
  }

  lemma MarkOfTwo(overlap: nat, target: string, log: seq<Event>, a: Event, b: Event)
    requires Twin(overlap, a, b) && OfTwo(log, a, b) && a in log && b in log
    ensures var mark := Advanced(NO_BOOKMARK, overlap, log, target);
            ListsBoth(mark, overlap, a, b) && mark.server == target
  {
    NewestOfTwo(log, a, b);
    KeysOfTwo(log, a, b, b.timestamp - overlap);
  }

  /** A first pass over such a log sends all of it and lists both events. */
  lemma BothListed(c: Setting, w: World, log: seq<Event>, a: Event, b: Event, day: Day, now: Instant,
          serverNow: Instant)
    requires Still(c, w, log, day, now, serverNow) && w.saved == NO_BOOKMARK && Slice(Accepted(w), day) == []
    requires Twin(c.overlap, a, b) && OfTwo(log, a, b) && a in log && b in log
    ensures var v := Passed(c, w, now, serverNow);
            && ListsBoth(v.saved, c.overlap, a, b) && v.saved.server == v.target
            && v.target == w.target && v.local == log && v.clock == now && v.flight == NoFlight
            && Slice(Accepted(v), day) == Slice(log, day)
  {
    PassDoes(c, w, log, day, now, serverNow);
    MarkOfTwo(c.overlap, w.target, log, a, b);
    AllPending(log);
    assert [] + Slice(log, day) == Slice(log, day);
  }

  lemma StaysStill(c: Setting, w: World, log: seq<Event>, a: Event, b: Event, day: Day, now: Instant,
          serverNow: Instant)
    requires c.store.FileStore? && w.target != "" && w.local == log && OneDay(log, day, now, serverNow)
    requires w.clock <= now && w.flight == NoFlight && w.saved.server == w.target
    requires Twin(c.overlap, a, b) && a in log && b in log && ListsBoth(w.saved, c.overlap, a, b)
    ensures Still(c, w, log, day, now, serverNow)
  {
  }

  /** From then on nothing of them is sent. */
  lemma NoneSent(c: Setting, w: World, log: seq<Event>, a: Event, b: Event, day: Day, now: Instant,
          serverNow: Instant)
    requires Still(c, w, log, day, now, serverNow) && OfTwo(log, a, b) && ListsBoth(w.saved, c.overlap, a, b)
    ensures PendingIn(Next(c, w, PassStarts(now)).flight) == []
  {
    PassReads(c, w, log, day, now, serverNow);
    NonePending(log, w.saved.recent, a, b);
  }

  /** One of the two is stored once more. */
  lemma StoredAgain(c: Setting, w: World, log: seq<Event>, a: Event, b: Event, ev: Event, day: Day, now: Instant,
          serverNow: Instant)
    requires Still(c, w, log, day, now, serverNow) && OfTwo(log, a, b) && ev in log && Twin(c.overlap, a, b)
    requires w.saved == NO_BOOKMARK || ListsBoth(w.saved, c.overlap, a, b)
    ensures var v := w.(local := log + [ev]);
            && Leads(c, w, [Append(ev)] + [], v) && Still(c, v, log + [ev], day, now, serverNow)
            && OfTwo(log + [ev], a, b)
  {
    var v := Next(c, w, Append(ev));
    NoStep(c, v);
    assert forall x :: x in log + [ev] ==> x in log;
    FirstStep(c, w, Append(ev), [], v);
  }

  /** A run from the start to a world in which the two are stored, in some order and number. */
  ghost predicate Gets(c: Setting, start: World, actions: seq<Action>, w: World, log: seq<Event>, a: Event, b: Event,
          day: Day, now: Instant, serverNow: Instant) {
    && Leads(c, start, actions, w) && Still(c, w, log, day, now, serverNow)
    && Twin(c.overlap, a, b) && OfTwo(log, a, b) && a in log && b in log
  }

  lemma TwoStored(c: Setting, start: World, log: seq<Event>, a: Event, b: Event, day: Day, now: Instant,
          serverNow: Instant) returns (actions: seq<Action>, w: World)
    requires c.store.FileStore? && CleanStart(start) && start.clock <= now
    requires Twin(c.overlap, a, b) && log == [a] + [b] && OneDay(log, day, now, serverNow)
    ensures Gets(c, start, actions, w, log, a, b, day, now, serverNow)
    ensures w.saved == NO_BOOKMARK && Accepted(w) == []
  {
    var one := start.(local := [] + [a]);
    w := start.(local := log);
    assert a in log && b in log && ([] + [a]) + [b] == log;
    FreshAppend(c, start, a);
    FreshAppend(c, one, b);
    actions := [Append(a)] + [] + ([Append(b)] + []);
    ThenLeads(c, start, [Append(a)] + [], one, [Append(b)] + [], w);
  }

  lemma ThenSent(c: Setting, start: World, actions: seq<Action>, w: World, log: seq<Event>, a: Event, b: Event,
          day: Day, now: Instant, serverNow: Instant) returns (longer: seq<Action>, v: World)
    requires Gets(c, start, actions, w, log, a, b, day, now, serverNow)
    requires w.saved == NO_BOOKMARK && Accepted(w) == []
    ensures Gets(c, start, longer, v, log, a, b, day, now, serverNow)
    ensures ListsBoth(v.saved, c.overlap, a, b) && Slice(Accepted(v), day) == Slice(log, day)
  {
    v := Passed(c, w, now, serverNow);
    longer := actions + OnePass(now, serverNow);
    BothListed(c, w, log, a, b, day, now, serverNow);
    StaysStill(c, v, log, a, b, day, now, serverNow);
    PassLeads(c, w, log, day, now, serverNow);
    ThenLeads(c, start, actions, w, OnePass(now, serverNow), v);
  }

  lemma ThenStored(c: Setting, start: World, actions: seq<Action>, w: World, log: seq<Event>, ev: Event, a: Event,
          b: Event, day: Day, now: Instant, serverNow: Instant) returns (longer: seq<Action>, v: World)
    requires Gets(c, start, actions, w, log, a, b, day, now, serverNow) && ev in log
    requires w.saved == NO_BOOKMARK || ListsBoth(w.saved, c.overlap, a, b)
    ensures Gets(c, start, longer, v, log + [ev], a, b, day, now, serverNow)
    ensures v.saved == w.saved && Accepted(v) == Accepted(w)
  {
    v := w.(local := log + [ev]);
    longer := actions + ([Append(ev)] + []);
    StoredAgain(c, w, log, a, b, ev, day, now, serverNow);
    ThenLeads(c, start, actions, w, [Append(ev)] + [], v);
  }

  lemma SessionsOfTwo(log: seq<Event>, a: Event, b: Event, day: Day)
    requires OfTwo(log, a, b) && log != [] && SameTurn(a, b) && a.sessionID != "" && b.sessionID != ""
    requires a.kind != Content && b.kind != Content
    requires forall ev :: ev in log ==> OnDay(day)(ev)
    ensures SessionIn(log, day, TurnKey(b)) == log[|log| - 1].sessionID
  {
    assert log[|log| - 1] in log;
    SliceOfDay(log, day);
    LastWord(log, |log| - 1);
  }

  lemma SessionOfSlice(es: seq<Event>, log: seq<Event>, day: Day, k: string)
    requires Slice(es, day) == Slice(log, day)
    ensures SessionIn(es, day, k) == SessionIn(log, day, k)
  {
  }

  /** What equal keys mean alone is not enough: two observations are sent and recorded, the first is stored once more,
      as a tailer's replay does, and stays where it is, since it is listed. The local turn is then what it says, the
      server's what the second observation says. */
  lemma StoredTwiceSentOnce(c: Setting, start: World, log: seq<Event>, a: Event, b: Event, day: Day, now: Instant,
          serverNow: Instant) returns (actions: seq<Action>, v: World)
    requires c.store.FileStore? && CleanStart(start) && start.clock <= now
    requires Twin(c.overlap, a, b) && log == [a] + [b] && OneDay(log, day, now, serverNow)
    ensures Leads(c, start, actions, v) && v.local == log + [a] && v.target != ""
    ensures PendingIn(Next(c, v, PassStarts(now)).flight) == []
    ensures SessionIn(v.local, day, TurnKey(b)) == a.sessionID && SessionIn(Accepted(v), day, TurnKey(b)) == b.sessionID
  {
    var w;
    actions, w := TwoStored(c, start, log, a, b, day, now, serverNow);
    actions, w := ThenSent(c, start, actions, w, log, a, b, day, now, serverNow);
    actions, v := ThenStored(c, start, actions, w, log, a, a, b, day, now, serverNow);
    NoneSent(c, v, log + [a], a, b, day, now, serverNow);
    SessionsOfTwo(log + [a], a, b, day);
    SessionsOfTwo(log, a, b, day);
    SessionOfSlice(Accepted(v), log, day, TurnKey(b));
  }

  /** Two observations are stored, and the first again by a replay that has not come to the second; a pass sends all
      three and is recorded; the replay then comes to the second, which is listed. The local turn is what the second
      says, as if the transcript had been read once; the server's stays what the first says. */
  lemma ReplayRecordedHalfWay(c: Setting, start: World, log: seq<Event>, a: Event, b: Event, day: Day, now: Instant,
          serverNow: Instant) returns (actions: seq<Action>, v: World)
    requires c.store.FileStore? && CleanStart(start) && start.clock <= now
    requires Twin(c.overlap, a, b) && log == [a] + [b] && OneDay(log, day, now, serverNow)
    ensures Leads(c, start, actions, v) && v.local == (log + [a]) + [b] && v.target != ""
    ensures PendingIn(Next(c, v, PassStarts(now)).flight) == []
    ensures SessionIn(v.local, day, TurnKey(b)) == SessionIn(log, day, TurnKey(b)) == b.sessionID
    ensures SessionIn(Accepted(v), day, TurnKey(b)) == a.sessionID
  {
    var w;
    actions, w := TwoStored(c, start, log, a, b, day, now, serverNow);
    actions, w := ThenStored(c, start, actions, w, log, a, a, b, day, now, serverNow);
    actions, w := ThenSent(c, start, actions, w, log + [a], a, b, day, now, serverNow);
    actions, v := ThenStored(c, start, actions, w, log + [a], b, a, b, day, now, serverNow);
    NoneSent(c, v, (log + [a]) + [b], a, b, day, now, serverNow);
    SessionsOfTwo((log + [a]) + [b], a, b, day);
    SessionsOfTwo(log + [a], a, b, day);
    SessionsOfTwo(log, a, b, day);
    SessionOfSlice(Accepted(v), log + [a], day, TurnKey(b));
  }

  /** There are two such events on any day, for any window shorter than a day. */
  lemma SuchTwins(overlap: nat, day: Day) returns (a: Event, b: Event, now: Instant)
    requires day > 0 && 0 < overlap < 86_000_000
    ensures Twin(overlap, a, b) && OneDay([a] + [b], day, now, now)
  {
    now := StartOf(day) + overlap;
    a := BLANK_EVENT.(messageID := "m", sessionID := "a", timestamp := now - 1);
    b := BLANK_EVENT.(messageID := "m", sessionID := "b", timestamp := now);
  }
}
