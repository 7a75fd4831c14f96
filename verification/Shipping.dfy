/** Runs of the shipping protocol: appends, passes that succeed, fail part-way or lose their checkpoint,
    crashes and changes of server, with events appended while a pass is under way. */
module Shipping {
  import opened Events
  import opened Forward
  import Collect

  /** A pass under way: the bookmark it took, what it read, up to when, and how much of the log existed. */
  datatype Flight = NoFlight | Flight(mark: Bookmark, events: seq<Event>, now: Instant, seen: nat)

  /** One server: what it stored, what it reported as rejected. */
  datatype Server = Server(accepted: seq<Event>, rejected: seq<Event>)

  const NO_SERVER := Server([], [])

  datatype World = World(
    local: seq<Event>,
    servers: map<string, Server>,
    saved: Bookmark,
    target: string,
    flight: Flight,
    clock: Instant,
    upTo: nat)

  /** Constants of a run: the window behind the bookmark, the identity the server stamps, the local store. */
  datatype Setting = Setting(overlap: nat, stamp: Identity, store: Store)

  /** `PassEnds` says how much of the pending list the server received, at what server time, whether the
      shipper saw a success, and whether the checkpoint reached disk; a crash is a pass that ends without
      a success. */
  datatype Action =
    | Append(ev: Event)
    | PassStarts(now: Instant)
    | PassEnds(serverNow: Instant, received: nat, success: bool, written: bool)
    | Retarget(server: string)

  function ServerOf(w: World, name: string): Server {
    if name in w.servers then w.servers[name] else NO_SERVER
  }

  function Rejected(batch: seq<Event>, now: Instant): seq<Event> {
    if batch == [] then []
    else
      var ev := batch[|batch| - 1];
      Rejected(batch[..|batch| - 1], now) + if Collect.Plausible(ev, now) then [] else [ev]
  }

  function Receive(s: Server, batch: seq<Event>, now: Instant, stamp: Identity): Server {
    Server(s.accepted + Collect.Landed(batch, now, stamp), s.rejected + Rejected(batch, now))
  }

  function PendingIn(f: Flight): seq<Event>
    requires f.Flight?
  {
    Pending(f.events, f.mark.recent)
  }

  function EndFlight(c: Setting, w: World, a: Action): World
    requires a.PassEnds? && w.flight.Flight? && a.received <= |PendingIn(w.flight)|
  {
    var f := w.flight;
    var pending := PendingIn(f);
    var landed := w.(
      flight := NoFlight,
      servers := w.servers[w.target :=
        Receive(ServerOf(w, w.target), if a.success then pending else pending[..a.received], a.serverNow, c.stamp)]);
    if pending == [] || !a.success || !a.written then landed
    else
      landed.(
        saved := Advanced(f.mark, c.overlap, f.events, w.target),
        upTo := f.seen)
  }

  function Next(c: Setting, w: World, a: Action): World
    requires Enabled(c, w, a)
  {
    match a
    case Append(ev) => w.(local := Stored(c.store, w.local, ev))
    case PassStarts(now) =>
      var mark := Rebase(w.saved, w.target);
      w.(flight := Flight(mark, ReadFor(c.store, mark, c.overlap, w.local, now), now, |w.local|), clock := now)
    case PassEnds(_, _, _, _) => EndFlight(c, w, a)
    case Retarget(server) => w.(target := server, flight := NoFlight)
  }

  /** What the method `Pass` did, as it reports it. */
  datatype Report = Report(accepted: nat, failure: Option<Collect.Outcome>, saved: Bookmark, log: seq<Event>)

  /** That `r` is what `Pass`, called at `now`, ensures of the bookmark and of the server's log. */
  ghost predicate Reports(c: Setting, w: World, f: Forwarder, now: Instant, serverNow: Instant, writable: bool,
          r: Report)
  {
    var mark := Rebase(w.saved, w.target);
    var events := ReadFor(c.store, mark, c.overlap, w.local, now);
    && f.store == c.store && f.target == w.target && f.overlap == c.overlap
    && f.Passed(w.saved, r.saved, ServerOf(w, w.target).accepted, r.log, mark, events, Pending(events, mark.recent),
                r.accepted, r.failure, serverNow, c.stamp, writable)
  }

  /** The step that ends the pass in the same way. */
  ghost predicate EndsLike(c: Setting, w: World, end: Action, target: string, r: Report)
    requires end.PassEnds? && w.flight.Flight? && end.received <= |PendingIn(w.flight)| && w.target == target
  {
    var t := EndFlight(c, w, end);
    && t.saved == r.saved && ServerOf(t, target).accepted == r.log && t.local == w.local && t.target == target
    && forall other :: other != target ==> ServerOf(t, other) == ServerOf(w, other)
  }

  /** Whatever `Pass` may do is one `PassStarts` and one `PassEnds`. */
  lemma PassIsTwoSteps(c: Setting, w: World, f: Forwarder, now: Instant, serverNow: Instant, writable: bool, r: Report)
    returns (end: Action)
    requires w.target != "" && Reports(c, w, f, now, serverNow, writable, r)
    ensures end.PassEnds? && Enabled(c, w, PassStarts(now)) && Enabled(c, Next(c, w, PassStarts(now)), end)
    ensures EndsLike(c, Next(c, w, PassStarts(now)), end, w.target, r)
  {
    var u := Next(c, w, PassStarts(now));
    var pending := PendingIn(u.flight);
    var log := ServerOf(w, w.target).accepted;
    assert log + [] == log;
    if pending == [] || r.failure.None? {
      end := PassEnds(serverNow, 0, true, writable);
    } else {
      var m: nat, n: nat :| f.Landing(log, r.log, pending, r.accepted, serverNow, c.stamp, m, n);
      end := PassEnds(serverNow, n, false, false);
    }
  }

  // ---------------------------------------------------------------------------------------------
  // What may happen, and what is asked of it
  // ---------------------------------------------------------------------------------------------

  /** How far the checkpoint is, or will be once the pass under way succeeds. */
  function Horizon(w: World): Instant {
    if w.flight.Flight? then Later(Later(w.saved.shipped, w.flight.mark.shipped), Newest(w.flight.events))
    else w.saved.shipped
  }

  /** Dated no further back than the overlap behind the checkpoint. */
  predicate Recent(c: Setting, w: World, ev: Event) {
    Horizon(w) == ZERO_TIME || ev.timestamp >= Horizon(w) - c.overlap
  }

  /** An event arrives in time, or was there already, as what a replay stores again was. */
  predicate Timely(c: Setting, w: World, ev: Event) {
    ev in w.local || Recent(c, w, ev)
  }

  /** Equal keys mean equal events. */
  predicate KeyInjective(w: World, ev: Event) {
    forall other :: other in w.local && KeyOf(other) == KeyOf(ev) ==> other == ev
  }

  predicate Enabled(c: Setting, w: World, a: Action) {
    match a
    case Append(ev) => true
    case PassStarts(now) => w.target != ""
    case PassEnds(_, received, _, _) => w.flight.Flight? && received <= |PendingIn(w.flight)|
    case Retarget(server) => server != ""
  }

  predicate Runs(c: Setting, w: World, actions: seq<Action>)
    decreases |actions|
  {
    actions == [] || (Enabled(c, w, actions[0]) && Runs(c, Next(c, w, actions[0]), actions[1..]))
  }

  function After(c: Setting, w: World, actions: seq<Action>): World
    requires Runs(c, w, actions)
    decreases |actions|
  {
    if actions == [] then w else After(c, Next(c, w, actions[0]), actions[1..])
  }

  /** What a run appends, in order. */
  function Appended(actions: seq<Action>): seq<Event> {
    if actions == [] then []
    else (if actions[0].Append? then [actions[0].ev] else []) + Appended(actions[1..])
  }

  predicate NothingTwice(log: seq<Event>) {
    forall i, j :: 0 <= i < j < |log| ==> log[i] != log[j]
  }

  lemma LocalNext(c: Setting, w: World, a: Action)
    requires Enabled(c, w, a)
    ensures Next(c, w, a).local == if a.Append? then Stored(c.store, w.local, a.ev) else w.local
  {
  }

  lemma MoveOver<T>(a: seq<T>, x: T, b: seq<T>)
    ensures (a + [x]) + b == a + ([x] + b)
  {
  }

  lemma {:induction false} FilesOverRuns(c: Setting, w: World, actions: seq<Action>)
    requires Runs(c, w, actions) && c.store.FileStore?
    ensures After(c, w, actions).local == w.local + Appended(actions)
    decreases |actions|
  {
    if actions != [] {
      LocalNext(c, w, actions[0]);
      FilesOverRuns(c, Next(c, w, actions[0]), actions[1..]);
      if actions[0].Append? {
        MoveOver(w.local, actions[0].ev, Appended(actions[1..]));
      } else {
        assert [] + Appended(actions[1..]) == Appended(actions[1..]);
      }
    }
  }

  lemma {:induction false} RowsOverRuns(c: Setting, w: World, actions: seq<Action>)
    requires Runs(c, w, actions) && c.store.Database?
    ensures w.local <= After(c, w, actions).local
    ensures NothingTwice(w.local) ==> NothingTwice(After(c, w, actions).local)
    ensures forall ev :: ev in After(c, w, actions).local <==> ev in w.local || ev in Appended(actions)
    decreases |actions|
  {
    if actions != [] {
      LocalNext(c, w, actions[0]);
      RowsOverRuns(c, Next(c, w, actions[0]), actions[1..]);
    }
  }

  /** The log only grows: in the file store by every append, in the database by every event it does not hold yet. */
  lemma {:induction false} LogOverRuns(c: Setting, w: World, actions: seq<Action>)
    requires Runs(c, w, actions)
    ensures c.store.FileStore? ==> After(c, w, actions).local == w.local + Appended(actions)
    ensures c.store.Database? ==>
      && w.local <= After(c, w, actions).local && (NothingTwice(w.local) ==> NothingTwice(After(c, w, actions).local))
      && forall ev :: ev in After(c, w, actions).local <==> ev in w.local || ev in Appended(actions)
  {
    if c.store.FileStore? {
      FilesOverRuns(c, w, actions);
    } else {
      RowsOverRuns(c, w, actions);
    }
  }

  predicate Initial(w: World) {
    w.local == [] && w.saved == NO_BOOKMARK && w.flight == NoFlight && w.target != "" && w.upTo == 0
  }

  /** What delivery asks of the events: they arrive in time, and those with equal keys are equal. */
  predicate Proper(c: Setting, w: World, a: Action) {
    a.Append? ==> Timely(c, w, a.ev) && KeyInjective(w, a.ev)
  }

  predicate ProperRun(c: Setting, w: World, actions: seq<Action>)
    requires Runs(c, w, actions)
    decreases |actions|
  {
    actions == [] || (Proper(c, w, actions[0]) && ProperRun(c, Next(c, w, actions[0]), actions[1..]))
  }

  // ---------------------------------------------------------------------------------------------
  // Delivery
  // ---------------------------------------------------------------------------------------------

  /** What a bookmark says about an event: it has been sent. */
  predicate Claims(c: Setting, mark: Bookmark, ev: Event) {
    (mark.shipped != ZERO_TIME && ev.timestamp < mark.shipped - c.overlap) || KeyOf(ev) in mark.recent
  }

  /** The event is in the server's log, or the server reported it implausible. */
  predicate Settled(c: Setting, s: Server, ev: Event) {
    ev.(identity := c.stamp) in s.accepted || ev in s.rejected
  }

  predicate ClaimsHold(c: Setting, w: World, mark: Bookmark) {
    forall ev :: ev in w.local && ev.kind != Content && Claims(c, mark, ev) ==> Settled(c, ServerOf(w, mark.server), ev)
  }

  /** Every recorded key stands for an event of the log. */
  predicate KeysAreLocal(w: World, events: seq<Event>, recent: seq<Key>) {
    && (forall ev :: ev in events ==> ev in w.local)
    && (forall k :: k in recent ==> exists ev :: ev in w.local && KeyOf(ev) == k)
  }

  /** The part of the log the pass under way could read. */
  function Seen(w: World): seq<Event> {
    if w.flight.Flight? && w.flight.seen <= |w.local| then w.local[..w.flight.seen] else []
  }

  /** The part of the log the recorded pass had read. */
  function Sent(w: World): seq<Event> {
    if w.upTo <= |w.local| then w.local[..w.upTo] else []
  }

  ghost predicate DeliveryInv(c: Setting, w: World) {
    && w.target != ""
    && (forall a, b :: a in w.local && b in w.local && KeyOf(a) == KeyOf(b) ==> a == b)
    && (w.saved.server == "" ==> w.saved == NO_BOOKMARK)
    && w.saved.shipped >= ZERO_TIME
    && ClaimsHold(c, w, w.saved)
    && KeysAreLocal(w, [], w.saved.recent)
    && (w.flight.Flight? ==>
          && w.flight.seen <= |w.local|
          && Seen(w) == w.local[..w.flight.seen]
          && w.flight.mark == Rebase(w.saved, w.target)
          && w.flight.events == ReadFor(c.store, w.flight.mark, c.overlap, Seen(w), w.flight.now)
          && forall i :: w.flight.seen <= i < |w.local| ==> w.local[i] in Seen(w) || Recent(c, w, w.local[i]))
  }

  lemma {:induction false} RejectedContents(batch: seq<Event>, now: Instant, ev: Event)
    ensures ev in Rejected(batch, now) <==> ev in batch && !Collect.Plausible(ev, now)
  {
    if batch != [] {
      RejectedContents(batch[..|batch| - 1], now, ev);
    }
  }

  /** Receiving settles the whole batch and unsettles nothing. */
  lemma ReceiveSettles(c: Setting, s: Server, batch: seq<Event>, now: Instant, ev: Event)
    ensures Settled(c, s, ev) || ev in batch ==> Settled(c, Receive(s, batch, now, c.stamp), ev)
  {
    if ev in batch {
      Collect.LandedContents(batch, now, c.stamp, ev);
      RejectedContents(batch, now, ev);
    }
  }

  /** What a pass did not read, and its successful bookmark would call sent, the bookmark it started from
      already called sent. */
  lemma UnreadWasClaimed(c: Setting, mark: Bookmark, log: seq<Event>, now: Instant, ev: Event)
    requires ev in log
    ensures
      var events := ReadFor(c.store, mark, c.overlap, log, now);
      var ahead := Later(mark.shipped, Newest(events));
      ev !in events && (ev.timestamp <= now || (ahead != ZERO_TIME && ev.timestamp < ahead - c.overlap)) ==>
        Claims(c, mark, ev)
  {
    var events := ReadFor(c.store, mark, c.overlap, log, now);
    var from := From(mark, c.overlap, log);
    EventsRangeContents(c.store, log, from, now, ev);
    NewestBounds(events, ev);
    if x :| x in events && x.timestamp == Newest(events) {
      EventsRangeContents(c.store, log, from, now, x);
    }
    if mark.shipped == ZERO_TIME {
      assert OldestDay(log) <= DayOf(ev.timestamp);
      assert from <= ev.timestamp;
    }
  }

  // ---------------------------------------------------------------------------------------------
  // Every action keeps the invariant
  // ---------------------------------------------------------------------------------------------

  lemma SeenOrRecent(c: Setting, w: World, ev: Event)
    requires DeliveryInv(c, w) && w.flight.Flight? && ev in w.local
    ensures ev in Seen(w) || Recent(c, w, ev)
  {
    var i :| 0 <= i < |w.local| && w.local[i] == ev;
    assert i < w.flight.seen ==> Seen(w)[i] == ev;
  }

  lemma AppendKeeps(c: Setting, w: World, ev: Event)
    requires DeliveryInv(c, w) && Proper(c, w, Append(ev))
    ensures DeliveryInv(c, Next(c, w, Append(ev)))
  {
    var v := Next(c, w, Append(ev));
    if ev.kind != Content && Claims(c, w.saved, ev) {
      // an event of its own is recent, so not claimed by age; and a recorded key is that of an equal event
      assert ev in w.local || KeyOf(ev) in w.saved.recent;
      assert ev in w.local;
    }
    if w.flight.Flight? {
      assert v.local[..w.flight.seen] == w.local[..w.flight.seen];
      if ev in w.local {
        SeenOrRecent(c, w, ev);
      }
    }
  }

  /** Whatever part of a pass arrives, what was settled stays settled on every server. */
  lemma EndSettles(c: Setting, w: World, a: Action, name: string, ev: Event)
    requires a.PassEnds? && Enabled(c, w, a)
    ensures Settled(c, ServerOf(w, name), ev) ==> Settled(c, ServerOf(Next(c, w, a), name), ev)
    ensures name == w.target && a.success && ev in PendingIn(w.flight) ==> Settled(c, ServerOf(Next(c, w, a), name), ev)
  {
    var pending := PendingIn(w.flight);
    ReceiveSettles(c, ServerOf(w, w.target), if a.success then pending else pending[..a.received], a.serverNow, ev);
  }

  /** After a pass that saw a success, everything it had read is settled on its server. */
  lemma SuccessSettlesRead(c: Setting, w: World, a: Action, ev: Event)
    requires DeliveryInv(c, w) && a.PassEnds? && Enabled(c, w, a) && a.success
    requires ev in w.local && ev.kind != Content
    requires ev in w.flight.events || Claims(c, w.flight.mark, ev)
    ensures Settled(c, ServerOf(Next(c, w, a), w.target), ev)
  {
    EndSettles(c, w, a, w.target, ev);
    PendingContents(w.flight.events, w.flight.mark.recent, ev);
    if Claims(c, w.flight.mark, ev) {
      assert w.flight.mark == w.saved && w.saved.server == w.target;
    }
  }

  lemma {:induction false} ReadIsLocal(store: Store, mark: Bookmark, overlap: int, log: seq<Event>, now: Instant,
          ev: Event)
    requires ev in ReadFor(store, mark, overlap, log, now)
    ensures ev in log
  {
    EventsRangeContents(store, log, From(mark, overlap, log), now, ev);
  }

  lemma WhoseKey(mark: Bookmark, overlap: int, events: seq<Event>, target: string, k: Key) returns (x: Event)
    requires k in Advanced(mark, overlap, events, target).recent
    ensures x in events && KeyOf(x) == k
  {
    KeysWithinContents(events, Advanced(mark, overlap, events, target).shipped - overlap, k);
    x :| x in events && KeyOf(x) == k;
  }

  /** The new bookmark's list of keys can only name events the pass read. */
  lemma ListedWasRead(c: Setting, w: World, ev: Event)
    requires DeliveryInv(c, w) && w.flight.Flight? && ev in w.local
    requires KeyOf(ev) in Advanced(w.flight.mark, c.overlap, w.flight.events, w.target).recent
    ensures ev in w.flight.events
  {
    var x := WhoseKey(w.flight.mark, c.overlap, w.flight.events, w.target, KeyOf(ev));
    ReadIsLocal(c.store, w.flight.mark, c.overlap, Seen(w), w.flight.now, x);
    assert x in w.local;
  }

  lemma ClaimedWasReadOrClaimed(c: Setting, w: World, ev: Event)
    requires DeliveryInv(c, w) && w.flight.Flight? && ev in w.local
    requires Claims(c, Advanced(w.flight.mark, c.overlap, w.flight.events, w.target), ev)
    ensures ev in w.flight.events || Claims(c, w.flight.mark, ev)
  {
    var f := w.flight;
    var mark := Advanced(f.mark, c.overlap, f.events, w.target);
    if KeyOf(ev) in mark.recent {
      ListedWasRead(c, w, ev);
    } else {
      NewestBounds(f.events, ev);
      SeenOrRecent(c, w, ev);
      assert ev in Seen(w);
      UnreadWasClaimed(c, f.mark, Seen(w), f.now, ev);
    }
  }

  lemma RecordedClaimsHold(c: Setting, w: World, a: Action, ev: Event)
    requires DeliveryInv(c, w) && a.PassEnds? && Enabled(c, w, a) && a.success && a.written
    requires PendingIn(w.flight) != []
    requires ev in w.local && ev.kind != Content && Claims(c, Next(c, w, a).saved, ev)
    ensures Settled(c, ServerOf(Next(c, w, a), w.target), ev)
  {
    ClaimedWasReadOrClaimed(c, w, ev);
    SuccessSettlesRead(c, w, a, ev);
  }

  /** The pass succeeded and its bookmark was written. */
  predicate Recorded(w: World, a: Action) {
    a.PassEnds? && a.success && a.written && w.flight.Flight? && PendingIn(w.flight) != []
  }

  lemma RecordedClaims(c: Setting, w: World, a: Action)
    requires DeliveryInv(c, w) && Enabled(c, w, a) && Recorded(w, a)
    ensures ClaimsHold(c, Next(c, w, a), Next(c, w, a).saved)
  {
    var v := Next(c, w, a);
    forall ev | ev in v.local && ev.kind != Content && Claims(c, v.saved, ev)
      ensures Settled(c, ServerOf(v, v.saved.server), ev)
    {
      RecordedClaimsHold(c, w, a, ev);
    }
  }

  /** The bookmark a pass under way leaves if it succeeds. */
  function MarkAhead(c: Setting, w: World): Bookmark
    requires w.flight.Flight?
  {
    Advanced(w.flight.mark, c.overlap, w.flight.events, w.target)
  }

  lemma RecordedNext(c: Setting, w: World, a: Action)
    requires Enabled(c, w, a) && Recorded(w, a)
    ensures var v := Next(c, w, a); v.saved == MarkAhead(c, w) && v.local == w.local && v.upTo == w.flight.seen
  {
  }

  /** What a pass under way read. */
  predicate ReadAsDue(c: Setting, w: World) {
    w.flight.Flight? ==> w.flight.events == ReadFor(c.store, w.flight.mark, c.overlap, Seen(w), w.flight.now)
  }

  lemma ListedIsSeen(c: Setting, w: World, k: Key) returns (x: Event)
    requires ReadAsDue(c, w) && w.flight.Flight? && k in MarkAhead(c, w).recent
    ensures x in Seen(w) && KeyOf(x) == k && k.timestamp >= MarkAhead(c, w).shipped - c.overlap
  {
    var f := w.flight;
    KeysWithinContents(f.events, MarkAhead(c, w).shipped - c.overlap, k);
    x :| x in f.events && x.timestamp >= MarkAhead(c, w).shipped - c.overlap && KeyOf(x) == k;
    ReadIsLocal(c.store, f.mark, c.overlap, Seen(w), f.now, x);
  }

  lemma RecordedKeysAreLocal(c: Setting, w: World, a: Action)
    requires DeliveryInv(c, w) && Enabled(c, w, a) && Recorded(w, a)
    ensures KeysAreLocal(Next(c, w, a), [], Next(c, w, a).saved.recent)
  {
    RecordedNext(c, w, a);
    assert ReadAsDue(c, w) && forall x :: x in Seen(w) ==> x in w.local;
    forall k | k in MarkAhead(c, w).recent ensures exists ev :: ev in w.local && KeyOf(ev) == k {
      var x := ListedIsSeen(c, w, k);
    }
  }

  lemma UnrecordedClaims(c: Setting, w: World, a: Action)
    requires DeliveryInv(c, w) && Enabled(c, w, a) && a.PassEnds? && !Recorded(w, a)
    ensures ClaimsHold(c, Next(c, w, a), Next(c, w, a).saved)
  {
    var v := Next(c, w, a);
    forall ev | ev in v.local && ev.kind != Content && Claims(c, v.saved, ev)
      ensures Settled(c, ServerOf(v, v.saved.server), ev)
    {
      EndSettles(c, w, a, v.saved.server, ev);
    }
  }

  lemma EndKeeps(c: Setting, w: World, a: Action)
    requires DeliveryInv(c, w) && a.PassEnds? && Enabled(c, w, a)
    ensures DeliveryInv(c, Next(c, w, a))
  {
    if Recorded(w, a) {
      RecordedClaims(c, w, a);
      RecordedKeysAreLocal(c, w, a);
      NewestBounds(w.flight.events, BLANK_EVENT);
    } else {
      UnrecordedClaims(c, w, a);
    }
  }

  lemma StartKeeps(c: Setting, w: World, a: Action)
    requires DeliveryInv(c, w) && a.PassStarts? && Enabled(c, w, a)
    ensures DeliveryInv(c, Next(c, w, a))
  {
    assert w.local[..|w.local|] == w.local;
  }

  /** The delivery invariant holds in every reachable state. */
  lemma {:induction false} DeliveryOverRuns(c: Setting, w: World, actions: seq<Action>)
    requires DeliveryInv(c, w) && Runs(c, w, actions) && ProperRun(c, w, actions)
    ensures DeliveryInv(c, After(c, w, actions))
    decreases |actions|
  {
    if actions != [] {
      var a := actions[0];
      match a {
        case Append(ev) => AppendKeeps(c, w, ev);
        case PassStarts(_) => StartKeeps(c, w, a);
        case PassEnds(_, _, _, _) => EndKeeps(c, w, a);
        case Retarget(_) =>
      }
      DeliveryOverRuns(c, Next(c, w, a), actions[1..]);
    }
  }

  /** In every reachable state: an event older than the window behind the checkpoint, or listed in it, is
      on the recorded server or was reported rejected by it; and a pass that succeeds from there, written
      or not, leaves everything up to the instant it read to on its server. */
  lemma DeliveredInEveryRun(c: Setting, w: World, actions: seq<Action>, a: Action, ev: Event)
    requires Initial(w) && Runs(c, w, actions) && ProperRun(c, w, actions)
    ensures
      var v := After(c, w, actions);
      && (ev in v.local && ev.kind != Content && Claims(c, v.saved, ev) ==> Settled(c, ServerOf(v, v.saved.server), ev))
      && ((a.PassEnds? && Enabled(c, v, a) && a.success && ev in Seen(v) && ev.kind != Content
           && ev.timestamp <= v.flight.now) ==>
            Settled(c, ServerOf(Next(c, v, a), v.target), ev))
  {
    DeliveryOverRuns(c, w, actions);
    var v := After(c, w, actions);
    if a.PassEnds? && Enabled(c, v, a) && a.success && ev in Seen(v) && ev.kind != Content
       && ev.timestamp <= v.flight.now {
      var f := v.flight;
      UnreadWasClaimed(c, f.mark, Seen(v), f.now, ev);
      assert ev in v.local;
      SuccessSettlesRead(c, v, a, ev);
    }
  }

  // ---------------------------------------------------------------------------------------------
  // What goes out again
  // ---------------------------------------------------------------------------------------------

  /** Events carry a date, and passes see a clock that does not run backwards and no event of the future. */
  predicate Orderly(w: World, a: Action) {
    match a
    case Append(ev) => ev.timestamp > ZERO_TIME
    case PassStarts(now) => now >= w.clock && forall ev :: ev in w.local ==> ev.timestamp <= now
    case _ => true
  }

  predicate OrderlyRun(c: Setting, w: World, actions: seq<Action>)
    requires Runs(c, w, actions)
    decreases |actions|
  {
    actions == [] || (Orderly(w, actions[0]) && OrderlyRun(c, Next(c, w, actions[0]), actions[1..]))
  }

  /** The log splits at `upTo` into what the recorded pass had read and what came later. */
  ghost predicate Split(c: Setting, w: World)
    requires w.upTo <= |w.local|
  {
    && (forall ev :: ev in w.local[..w.upTo] && ev.kind != Content ==> Claims(c, w.saved, ev))
    && (forall k :: k in w.saved.recent ==> exists ev :: ev in w.local[..w.upTo] && KeyOf(ev) == k)
    && (forall ev :: ev in w.local[w.upTo..] && ev !in w.local[..w.upTo] ==>
          w.saved.shipped == ZERO_TIME || ev.timestamp >= w.saved.shipped - c.overlap)
  }

  ghost predicate MarkInv(c: Setting, w: World) {
    && DeliveryInv(c, w)
    && (forall ev :: ev in w.local ==> ev.timestamp > ZERO_TIME)
    && w.saved.shipped <= w.clock
    && (w.saved.server != "" ==> w.saved.shipped > ZERO_TIME)
    && (forall k :: k in w.saved.recent ==> k.timestamp >= w.saved.shipped - c.overlap)
    && w.upTo <= |w.local| && Split(c, w)
    && (w.flight.Flight? ==>
          && w.flight.now == w.clock && w.upTo <= w.flight.seen
          && forall ev :: ev in Seen(w) ==> ev.timestamp <= w.clock)
  }

  /** How far back a read that starts at an instant reaches. */
  predicate Reaches(store: Store, from: Instant, at: Instant) {
    match store
    case FileStore => DayOf(from) <= DayOf(at)
    case Database => from <= at
  }

  /** What a pass reads, when nothing is dated after its clock. */
  lemma ReadIsWindow(store: Store, mark: Bookmark, overlap: nat, log: seq<Event>, now: Instant, ev: Event)
    requires ev in log && forall x :: x in log ==> ZERO_TIME < x.timestamp <= now
    requires ZERO_TIME <= mark.shipped <= now
    ensures ev in ReadFor(store, mark, overlap, log, now) <==>
              mark.shipped == ZERO_TIME || Reaches(store, mark.shipped - overlap, ev.timestamp)
  {
    EventsRangeContents(store, log, From(mark, overlap, log), now, ev);
    assert OldestDay(log) <= DayOf(ev.timestamp);
  }

  lemma FlightReads(c: Setting, w: World, ev: Event)
    requires MarkInv(c, w) && w.flight.Flight? && ev in Seen(w)
    ensures ev in w.local
    ensures ev in w.flight.events <==>
              w.flight.mark.shipped == ZERO_TIME
              || Reaches(c.store, w.flight.mark.shipped - c.overlap, ev.timestamp)
  {
    var f := w.flight;
    forall x | x in Seen(w) ensures ZERO_TIME < x.timestamp <= f.now {
      assert x in w.local;
    }
    ReadIsWindow(c.store, f.mark, c.overlap, Seen(w), f.now, ev);
  }

  /** What is read is listed or older than the window, and what was too old to read stays so. */
  lemma AdvancedClaims(c: Setting, mark: Bookmark, events: seq<Event>, target: string, ev: Event)
    requires ev.timestamp > ZERO_TIME && mark.shipped >= ZERO_TIME
    requires ev in events
          || (mark.shipped != ZERO_TIME && !Reaches(c.store, mark.shipped - c.overlap, ev.timestamp))
    ensures Claims(c, Advanced(mark, c.overlap, events, target), ev)
  {
    NewestBounds(events, ev);
    KeysWithinContents(events, Later(mark.shipped, Newest(events)) - c.overlap, KeyOf(ev));
  }

  lemma SeenIsClaimed(c: Setting, w: World, ev: Event)
    requires MarkInv(c, w) && w.flight.Flight? && ev in Seen(w)
    ensures Claims(c, MarkAhead(c, w), ev)
  {
    FlightReads(c, w, ev);
    MarkIsSaved(c, w);
    AdvancedClaims(c, w.flight.mark, w.flight.events, w.target, ev);
  }

  /** The bookmark a pass goes by. */
  lemma MarkIsSaved(c: Setting, w: World)
    requires MarkInv(c, w) && w.flight.Flight?
    ensures w.flight.mark.shipped >= ZERO_TIME
    ensures if w.saved.server == w.target then w.flight.mark == w.saved && w.saved.shipped > ZERO_TIME
            else w.flight.mark.shipped == ZERO_TIME && w.flight.mark.recent == []
  {
  }

  lemma UnseenIsRecent(c: Setting, w: World, ev: Event)
    requires MarkInv(c, w) && w.flight.Flight? && ev in w.local && ev !in Seen(w)
    ensures MarkAhead(c, w).shipped == ZERO_TIME || ev.timestamp >= MarkAhead(c, w).shipped - c.overlap
  {
    SeenOrRecent(c, w, ev);
    NewestBounds(w.flight.events, ev);
  }

  lemma RecordedSplits(c: Setting, w: World, a: Action)
    requires MarkInv(c, w) && Enabled(c, w, a) && Recorded(w, a)
    ensures var v := Next(c, w, a); v.upTo <= |v.local| && Split(c, v)
    ensures forall k :: k in Next(c, w, a).saved.recent ==> k.timestamp >= Next(c, w, a).saved.shipped - c.overlap
  {
    var v := Next(c, w, a);
    RecordedNext(c, w, a);
    assert v.local[..v.upTo] == Seen(w) && ReadAsDue(c, w);
    forall ev | ev in Seen(w) ensures Claims(c, v.saved, ev) {
      SeenIsClaimed(c, w, ev);
    }
    forall k | k in v.saved.recent
      ensures (exists ev :: ev in v.local[..v.upTo] && KeyOf(ev) == k) && k.timestamp >= v.saved.shipped - c.overlap
    {
      var x := ListedIsSeen(c, w, k);
    }
    forall ev | ev in v.local[v.upTo..] && ev !in v.local[..v.upTo]
      ensures v.saved.shipped == ZERO_TIME || ev.timestamp >= v.saved.shipped - c.overlap
    {
      UnseenIsRecent(c, w, ev);
    }
  }

  lemma MarkWithinClock(c: Setting, w: World)
    requires MarkInv(c, w) && w.flight.Flight?
    ensures MarkAhead(c, w).shipped <= w.clock
    ensures PendingIn(w.flight) != [] ==> MarkAhead(c, w).shipped > ZERO_TIME
  {
    var f := w.flight;
    NewestBounds(f.events, BLANK_EVENT);
    if x :| x in f.events && x.timestamp == Newest(f.events) {
      ReadIsLocal(c.store, f.mark, c.overlap, Seen(w), f.now, x);
    }
    if PendingIn(f) != [] {
      var x := PendingIn(f)[0];
      PendingContents(f.events, f.mark.recent, x);
      ReadIsLocal(c.store, f.mark, c.overlap, Seen(w), f.now, x);
      assert x in w.local;
      NewestBounds(f.events, x);
    }
  }

  lemma EndKeepsMark(c: Setting, w: World, a: Action)
    requires MarkInv(c, w) && a.PassEnds? && Enabled(c, w, a)
    ensures MarkInv(c, Next(c, w, a))
  {
    EndKeeps(c, w, a);
    if Recorded(w, a) {
      RecordedSplits(c, w, a);
      MarkWithinClock(c, w);
    }
  }

  lemma CutLater<T>(xs: seq<T>, n: nat, x: T)
    requires n <= |xs|
    ensures (xs + [x])[..n] == xs[..n] && (xs + [x])[n..] == xs[n..] + [x]
  {
  }

  lemma AppendKeepsMark(c: Setting, w: World, ev: Event)
    requires MarkInv(c, w) && Proper(c, w, Append(ev)) && Orderly(w, Append(ev))
    ensures MarkInv(c, Next(c, w, Append(ev)))
  {
    AppendKeeps(c, w, ev);
    CutLater(w.local, w.upTo, ev);
    if w.flight.Flight? {
      CutLater(w.local, w.flight.seen, ev);
    }
  }

  lemma StartKeepsMark(c: Setting, w: World, a: Action)
    requires MarkInv(c, w) && a.PassStarts? && Enabled(c, w, a) && Orderly(w, a)
    ensures MarkInv(c, Next(c, w, a))
  {
    StartKeeps(c, w, a);
    assert w.local[..|w.local|] == w.local;
  }

  lemma {:induction false} MarkOverRuns(c: Setting, w: World, actions: seq<Action>)
    requires MarkInv(c, w) && Runs(c, w, actions) && ProperRun(c, w, actions) && OrderlyRun(c, w, actions)
    ensures MarkInv(c, After(c, w, actions))
    decreases |actions|
  {
    if actions != [] {
      var a := actions[0];
      match a {
        case Append(ev) => AppendKeepsMark(c, w, ev);
        case PassStarts(_) => StartKeepsMark(c, w, a);
        case PassEnds(_, _, _, _) => EndKeepsMark(c, w, a);
        case Retarget(_) =>
      }
      MarkOverRuns(c, Next(c, w, a), actions[1..]);
    }
  }

  lemma InitialMark(c: Setting, w: World)
    requires Initial(w) && w.clock >= ZERO_TIME
    ensures MarkInv(c, w)
  {
    assert w.local[..w.upTo] == [] && w.local[w.upTo..] == [];
  }

  /** Read again although it was sent: on the first day of the window, before the window. */
  predicate Again(c: Setting, mark: Bookmark, at: Instant) {
    c.store.FileStore? && StartOf(DayOf(mark.shipped - c.overlap)) <= at < mark.shipped - c.overlap
  }

  lemma SentIsClaimed(c: Setting, w: World, ev: Event)
    requires MarkInv(c, w) && ev in Sent(w) && ev.kind != Content && w.saved.shipped != ZERO_TIME
    ensures KeyOf(ev) in w.saved.recent <==> ev.timestamp >= w.saved.shipped - c.overlap
  {
    assert Claims(c, w.saved, ev);
    assert KeyOf(ev) in w.saved.recent ==> KeyOf(ev).timestamp >= w.saved.shipped - c.overlap;
  }

  lemma FirstDay(from: Instant, at: Instant)
    ensures DayOf(from) <= DayOf(at) <==> StartOf(DayOf(from)) <= at
  {
  }

  /** Read, and listed when it lies inside the window. */
  lemma PendingIsAgain(c: Setting, f: Flight, ev: Event)
    requires f.Flight? && ev.kind != Content
    requires ev in f.events <==> Reaches(c.store, f.mark.shipped - c.overlap, ev.timestamp)
    requires KeyOf(ev) in f.mark.recent <==> ev.timestamp >= f.mark.shipped - c.overlap
    ensures ev in PendingIn(f) <==> Again(c, f.mark, ev.timestamp)
  {
    PendingContents(f.events, f.mark.recent, ev);
    FirstDay(f.mark.shipped - c.overlap, ev.timestamp);
  }

  /** Of what the recorded pass had read, exactly this is sent again. */
  lemma SentIsPendingIff(c: Setting, w: World, ev: Event)
    requires MarkInv(c, w) && w.flight.Flight? && ev in Sent(w) && ev in Seen(w) && ev.kind != Content
    requires w.saved.server == w.target
    ensures ev in PendingIn(w.flight) <==> Again(c, w.saved, ev.timestamp)
  {
    MarkIsSaved(c, w);
    FlightReads(c, w, ev);
    SentIsClaimed(c, w, ev);
    PendingIsAgain(c, w.flight, ev);
  }

  lemma OpenIsListed(c: Setting, w: World, ev: Event)
    requires MarkInv(c, w) && ev in w.local && KeyOf(ev) in w.saved.recent
    ensures ev in Sent(w)
  {
    var x :| x in w.local[..w.upTo] && KeyOf(x) == KeyOf(ev);
    assert x in w.local;
  }

  /** What it had not read is. */
  lemma OpenIsPending(c: Setting, w: World, ev: Event)
    requires MarkInv(c, w) && w.flight.Flight? && ev in Seen(w) && ev !in Sent(w) && ev.kind != Content
    requires w.saved.server == w.target
    ensures ev in PendingIn(w.flight)
  {
    MarkIsSaved(c, w);
    FlightReads(c, w, ev);
    PendingContents(w.flight.events, w.flight.mark.recent, ev);
    NotSentIsOpen(w, ev);
    assert ev.timestamp >= w.saved.shipped - c.overlap;
    if KeyOf(ev) in w.saved.recent {
      OpenIsListed(c, w, ev);
    }
  }

  lemma NotSentIsOpen(w: World, ev: Event)
    requires w.upTo <= |w.local| && ev in w.local && ev !in Sent(w)
    ensures ev in w.local[w.upTo..]
  {
    assert w.local == w.local[..w.upTo] + w.local[w.upTo..];
  }

  lemma PendingIff(c: Setting, w: World, ev: Event)
    requires MarkInv(c, w) && w.flight.Flight? && ev in Seen(w) && ev.kind != Content
    ensures ev in PendingIn(w.flight) <==>
            w.saved.server != w.target || ev !in Sent(w) || Again(c, w.saved, ev.timestamp)
  {
    if w.saved.server != w.target {
      MarkIsSaved(c, w);
      FlightReads(c, w, ev);
      PendingContents(w.flight.events, w.flight.mark.recent, ev);
    } else if ev in Sent(w) {
      SentIsPendingIff(c, w, ev);
    } else {
      OpenIsPending(c, w, ev);
    }
  }

  /** In every orderly run: what a pass sends of what it could read is everything, after a change of server;
      otherwise what the last recorded pass had not read, and what it had read on the first day of the window but
      before the window, which is on the server already. The database's passes send nothing of that. */
  lemma PendingInEveryRunIff(c: Setting, w: World, actions: seq<Action>, ev: Event)
    requires Initial(w) && w.clock >= ZERO_TIME
    requires Runs(c, w, actions) && ProperRun(c, w, actions) && OrderlyRun(c, w, actions)
    requires After(c, w, actions).flight.Flight? && ev in Seen(After(c, w, actions)) && ev.kind != Content
    ensures
      var v := After(c, w, actions);
      && (ev in PendingIn(v.flight) <==>
            v.saved.server != v.target || ev !in Sent(v) || Again(c, v.saved, ev.timestamp))
      && (ev in Sent(v) ==> Settled(c, ServerOf(v, v.saved.server), ev))
  {
    InitialMark(c, w);
    MarkOverRuns(c, w, actions);
    var v := After(c, w, actions);
    PendingIff(c, v, ev);
    if ev in Sent(v) {
      assert ev in v.local && Claims(c, v.saved, ev);
    }
  }

  // ---------------------------------------------------------------------------------------------
  // Events that come too late
  // ---------------------------------------------------------------------------------------------

  /** What one pass sends, whatever the log and the bookmark. */
  lemma PendingInOnePassIff(store: Store, mark: Bookmark, overlap: nat, log: seq<Event>, now: Instant, ev: Event)
    requires ev in log && ev.kind != Content
    ensures ev in Pending(ReadFor(store, mark, overlap, log, now), mark.recent) <==>
            && KeyOf(ev) !in mark.recent
            && var from := From(mark, overlap, log);
               if now < from then Covers(store, now, from, ev.timestamp) else Covers(store, from, now, ev.timestamp)
  {
    var events := ReadFor(store, mark, overlap, log, now);
    EventsRangeContents(store, log, From(mark, overlap, log), now, ev);
    PendingContents(events, mark.recent, ev);
  }

  /** An event from before the window that is not listed goes out if and only if the store reads whole days and
      the event is on the window's first. */
  lemma LateIsPendingIff(store: Store, mark: Bookmark, overlap: nat, log: seq<Event>, now: Instant, ev: Event)
    requires ev in log && ev.kind != Content && KeyOf(ev) !in mark.recent
    requires mark.shipped != ZERO_TIME && ev.timestamp < mark.shipped - overlap <= now
    ensures ev in Pending(ReadFor(store, mark, overlap, log, now), mark.recent) <==>
            store.FileStore? && StartOf(DayOf(mark.shipped - overlap)) <= ev.timestamp
  {
    PendingInOnePassIff(store, mark, overlap, log, now, ev);
  }

  /** Before anything that a pass with this bookmark, or a later one, reads. */
  predicate OutOfReach(c: Setting, shipped: Instant, at: Instant) {
    at < if c.store.FileStore? then StartOf(DayOf(shipped - c.overlap)) else shipped - c.overlap
  }

  ghost predicate LateInv(c: Setting, w: World, shipped: Instant, ev: Event) {
    && w.saved.server == w.target && ZERO_TIME < shipped <= w.saved.shipped && shipped - c.overlap <= w.clock
    && OutOfReach(c, shipped, ev.timestamp)
    && (w.flight.Flight? ==> w.flight.mark == w.saved && ev !in w.flight.events)
  }

  lemma LateIsNotRead(c: Setting, mark: Bookmark, shipped: Instant, log: seq<Event>, now: Instant, ev: Event)
    requires ZERO_TIME < shipped <= mark.shipped && shipped - c.overlap <= now && OutOfReach(c, shipped, ev.timestamp)
    ensures ev !in ReadFor(c.store, mark, c.overlap, log, now)
  {
    if log != [] {
      EventsRangeContents(c.store, log, From(mark, c.overlap, log), now, ev);
    }
  }

  lemma LateStaysLate(c: Setting, w: World, a: Action, shipped: Instant, ev: Event)
    requires LateInv(c, w, shipped, ev) && Enabled(c, w, a) && Orderly(w, a) && !a.Retarget?
    ensures LateInv(c, Next(c, w, a), shipped, ev)
  {
    if a.PassStarts? {
      LateIsNotRead(c, w.saved, shipped, w.local, a.now, ev);
    }
  }

  /** An event that arrives when the window has moved past it, and past its day where whole days are read, is never
      sent to that server, whatever else happens. */
  lemma {:induction false} LateIsNeverPending(c: Setting, w: World, actions: seq<Action>, ev: Event)
    requires w.saved.server == w.target && ZERO_TIME < w.saved.shipped <= w.clock && w.flight == NoFlight
    requires OutOfReach(c, w.saved.shipped, ev.timestamp)
    requires Runs(c, w, actions) && OrderlyRun(c, w, actions) && forall a :: a in actions ==> !a.Retarget?
    ensures var v := After(c, w, actions); v.flight.Flight? ==> ev !in PendingIn(v.flight)
  {
    LateOverRuns(c, w, actions, w.saved.shipped, ev);
    var v := After(c, w, actions);
    if v.flight.Flight? {
      PendingContents(v.flight.events, v.flight.mark.recent, ev);
    }
  }

  lemma {:induction false} LateOverRuns(c: Setting, w: World, actions: seq<Action>, shipped: Instant, ev: Event)
    requires LateInv(c, w, shipped, ev)
    requires Runs(c, w, actions) && OrderlyRun(c, w, actions) && forall a :: a in actions ==> !a.Retarget?
    ensures LateInv(c, After(c, w, actions), shipped, ev)
    decreases |actions|
  {
    if actions != [] {
      assert actions[0] in actions;
      LateStaysLate(c, w, actions[0], shipped, ev);
      LateOverRuns(c, Next(c, w, actions[0]), actions[1..], shipped, ev);
    }
  }
}
