/** The shipping protocol (internal/collect/forward.go): a bookmark with an overlap window and the keys
    already sent from inside it. */
module Forward {
  import opened Events
  import Collect
  import Sorting

  /** What identifies a record for "have I sent this"; the source joins the four parts into one string. */
  datatype Key = Key(kind: EventType, turnID: string, messageID: string, timestamp: Instant)

  function KeyOf(ev: Event): Key {
    Key(ev.kind, ev.turnID, ev.messageID, ev.timestamp)
  }

  /** Two records are taken for one exactly when all four parts agree. */
  lemma KeysAgreeIff(a: Event, b: Event)
    ensures KeyOf(a) == KeyOf(b) <==>
              a.kind == b.kind && a.turnID == b.turnID && a.messageID == b.messageID && a.timestamp == b.timestamp
  {
  }

  /** The checkpoint file; a missing or unreadable one reads as `NO_BOOKMARK`. */
  datatype Bookmark = Bookmark(shipped: Instant, server: string, recent: seq<Key>)

  const NO_BOOKMARK := Bookmark(ZERO_TIME, "", [])

  // ---------------------------------------------------------------------------------------------
  // What one pass reads and sends
  // ---------------------------------------------------------------------------------------------

  /** The two stores. The file store answers a range with whole days, in append order; the database answers with
      what lies between the instants, by time, and keeps no event twice. */
  datatype Store = FileStore | Database

  /** The log after an append. */
  function Stored(store: Store, log: seq<Event>, ev: Event): seq<Event> {
    if store.Database? && ev in log then log else log + [ev]
  }

  /** One day of the log between two instants, in append order. */
  function DayWithin(log: seq<Event>, day: Day, from: Instant, to: Instant): seq<Event> {
    if log == [] then []
    else
      var ev := log[|log| - 1];
      DayWithin(log[..|log| - 1], day, from, to)
      + if DayOf(ev.timestamp) == day && from <= ev.timestamp <= to then [ev] else []
  }

  function DaysWithin(log: seq<Event>, first: Day, last: Day, from: Instant, to: Instant): seq<Event>
    decreases last - first
  {
    if last < first then []
    else DaysWithin(log, first, last - 1, from, to) + DayWithin(log, last, from, to)
  }

  /** Events of the file store: a day's file. */
  function DayFile(log: seq<Event>, day: Day): seq<Event> {
    if log == [] then []
    else
      var ev := log[|log| - 1];
      DayFile(log[..|log| - 1], day) + if DayOf(ev.timestamp) == day then [ev] else []
  }

  function DayFiles(log: seq<Event>, first: Day, last: Day): seq<Event>
    decreases last - first
  {
    if last < first then [] else DayFiles(log, first, last - 1) + DayFile(log, last)
  }

  predicate Earlier(a: Event, b: Event) {
    a.timestamp < b.timestamp
  }

  /** What a store reads between two instants. */
  function RangeOf(store: Store, log: seq<Event>, from: Instant, to: Instant): seq<Event> {
    match store
    case FileStore => DayFiles(log, DayOf(from), DayOf(to))
    case Database => Sorting.SortBy(DaysWithin(log, DayOf(from), DayOf(to), from, to), Earlier)
  }

  /** EventsRange, the instants given either way round. */
  function EventsRange(store: Store, log: seq<Event>, from: Instant, to: Instant): seq<Event> {
    if to < from then RangeOf(store, log, to, from) else RangeOf(store, log, from, to)
  }

  /** The first entry of Days. */
  function OldestDay(log: seq<Event>): (day: Day)
    requires log != []
    ensures forall ev :: ev in log ==> day <= DayOf(ev.timestamp)
  {
    if |log| == 1 then DayOf(log[0].timestamp)
    else
      var rest := OldestDay(log[..|log| - 1]);
      var day := DayOf(log[|log| - 1].timestamp);
      if day < rest then day else rest
  }

  /** A bookmark made against another server says nothing about this one. */
  function Rebase(mark: Bookmark, target: string): Bookmark {
    if mark.server != "" && mark.server != target then Bookmark(ZERO_TIME, mark.server, []) else mark
  }

  function From(mark: Bookmark, overlap: int, log: seq<Event>): Instant
    requires log != []
  {
    if mark.shipped == ZERO_TIME then StartOf(OldestDay(log)) else mark.shipped - overlap
  }

  function ReadFor(store: Store, mark: Bookmark, overlap: int, log: seq<Event>, now: Instant): seq<Event> {
    if log == [] then [] else EventsRange(store, log, From(mark, overlap, log), now)
  }

  function Pending(events: seq<Event>, recent: seq<Key>): seq<Event> {
    if events == [] then []
    else
      var ev := events[|events| - 1];
      Pending(events[..|events| - 1], recent)
      + if KeyOf(ev) in recent || ev.kind == Content then [] else [ev]
  }

  function Newest(events: seq<Event>): Instant {
    if events == [] then ZERO_TIME
    else
      var rest := Newest(events[..|events| - 1]);
      if events[|events| - 1].timestamp > rest then events[|events| - 1].timestamp else rest
  }

  function KeysWithin(events: seq<Event>, cutoff: Instant): seq<Key> {
    if events == [] then []
    else
      var ev := events[|events| - 1];
      KeysWithin(events[..|events| - 1], cutoff) + if ev.timestamp < cutoff then [] else [KeyOf(ev)]
  }

  function Later(a: Instant, b: Instant): Instant {
    if b > a then b else a
  }

  /** The bookmark a successful pass leaves. */
  function Advanced(mark: Bookmark, overlap: int, events: seq<Event>, target: string): Bookmark {
    var shipped := Later(mark.shipped, Newest(events));
    Bookmark(shipped, target, KeysWithin(events, shipped - overlap))
  }

  // ---------------------------------------------------------------------------------------------
  // The pass itself
  // ---------------------------------------------------------------------------------------------

  /** `saved` is the checkpoint file. */
  class Forwarder {
    const store: Store
    const target: string
    const overlap: int
    var saved: Bookmark

    constructor (store: Store, target: string, overlap: int, saved: Bookmark)
      ensures this.store == store && this.target == target && this.overlap == overlap && this.saved == saved
    {
      this.store, this.target, this.overlap, this.saved := store, target, overlap, saved;
    }

    /** Read what may be due, leave out what went before, send the rest, and only then move the bookmark. */
    method Pass(local: seq<Event>, shipper: Collect.Shipper, server: Collect.Endpoint, now: Instant,
            serverNow: Instant, steady: bool, writable: bool)
      returns (accepted: nat, failure: Option<Collect.Outcome>, ghost answers: seq<Collect.Outcome>)
      modifies this, server
      ensures
        var mark := Rebase(old(saved), target);
        var events := ReadFor(store, mark, overlap, local, now);
        Passed(old(saved), saved, old(server.log), server.log, mark, events, Pending(events, mark.recent),
               accepted, failure, serverNow, server.stamp, writable)
      ensures
        var mark := Rebase(old(saved), target);
        var pending := Pending(ReadFor(store, mark, overlap, local, now), mark.recent);
        Collect.EndedBy(CourseOf(shipper, pending), answers, failure)
      ensures steady ==> failure.None?
    {
      accepted, failure, answers := 0, None, [];
      var state, events := Read(local, now);
      if |events| == 0 {
        return;
      }
      var pending := ListPending(events, state.recent);
      if |pending| == 0 {
        return;
      }
      accepted, failure, answers := Ship(state, events, pending, shipper, server, serverNow, steady, writable);
    }

    function CourseOf(shipper: Collect.Shipper, pending: seq<Event>): Collect.Course {
      Collect.Course(|pending|, if shipper.batchSize <= 0 then 2_000 else shipper.batchSize)
    }

    /** What a pass did, given what it found pending. */
    ghost predicate Passed(was: Bookmark, now: Bookmark, log: seq<Event>, nowLog: seq<Event>, mark: Bookmark,
            events: seq<Event>, pending: seq<Event>, accepted: nat, failure: Option<Collect.Outcome>,
            serverNow: Instant, stamp: Identity, writable: bool)
    {
      if pending == [] then Idle(was, now, log, nowLog) && accepted == 0 && failure.None?
      else if failure.None? then
        && Shipped(was, now, log, nowLog, mark, events, pending, serverNow, stamp, writable)
        && accepted == |Collect.Landed(pending, serverNow, stamp)|
      else Abandoned(was, now, log, nowLog, pending, accepted, serverNow, stamp)
    }

    method Ship(state: Bookmark, events: seq<Event>, pending: seq<Event>, shipper: Collect.Shipper,
            server: Collect.Endpoint, serverNow: Instant, steady: bool, writable: bool)
      returns (accepted: nat, failure: Option<Collect.Outcome>, ghost answers: seq<Collect.Outcome>)
      requires pending != []
      modifies this, server
      ensures Collect.EndedBy(CourseOf(shipper, pending), answers, failure)
      ensures Passed(old(saved), saved, old(server.log), server.log, state, events, pending, accepted, failure,
                     serverNow, server.stamp, writable)
      ensures steady ==> failure.None?
    {
      ghost var settled, last;
      var total;
      total, failure, settled, last, answers := shipper.SendAll(server, pending, serverNow, steady);
      accepted := total.accepted;
      if failure.Some? {
        ghost var n: nat :| settled <= n <= |pending| && Collect.Holds(server, old(server.log), pending, serverNow, n);
        assert Landing(old(server.log), server.log, pending, accepted, serverNow, server.stamp, settled, n);
        return;
      }
      assert pending[..|pending|] == pending;
      Record(state, events, writable);
    }

    predicate Idle(was: Bookmark, now: Bookmark, log: seq<Event>, nowLog: seq<Event>) {
      now == was && nowLog == log
    }

    /** Everything pending landed; the bookmark moved on, unless it could not be written. */
    predicate Shipped(was: Bookmark, now: Bookmark, log: seq<Event>, nowLog: seq<Event>, mark: Bookmark,
            events: seq<Event>, pending: seq<Event>, serverNow: Instant, stamp: Identity, writable: bool)
    {
      && nowLog == log + Collect.Landed(pending, serverNow, stamp)
      && now == if writable then Advanced(mark, overlap, events, target) else was
    }

    /** Some prefix of what was pending landed, of which some first part was acknowledged, and nothing was recorded. */
    ghost predicate Abandoned(was: Bookmark, now: Bookmark, log: seq<Event>, nowLog: seq<Event>,
            pending: seq<Event>, accepted: nat, serverNow: Instant, stamp: Identity)
    {
      && now == was
      && exists m: nat, n: nat :: Landing(log, nowLog, pending, accepted, serverNow, stamp, m, n)
    }

    predicate Landing(log: seq<Event>, nowLog: seq<Event>, pending: seq<Event>, accepted: nat, serverNow: Instant,
            stamp: Identity, m: nat, n: nat)
    {
      && m <= n <= |pending| && nowLog == log + Collect.Landed(pending[..n], serverNow, stamp)
      && accepted == |Collect.Landed(pending[..m], serverNow, stamp)|
    }

    method Read(local: seq<Event>, now: Instant) returns (state: Bookmark, events: seq<Event>)
      ensures state == Rebase(saved, target) && events == ReadFor(store, state, overlap, local, now)
    {
      state, events := saved, [];
      if state.server != "" && state.server != target {
        state := state.(shipped := ZERO_TIME, recent := []);
      }
      var from := state.shipped - overlap;
      if |local| == 0 {
        return;
      }
      if state.shipped == ZERO_TIME {
        from := StartOf(OldestDay(local));
      }
      events := ReadRange(local, from, now);
    }

    /** EventsRange of the store behind the forwarder: day by day from the file store. */
    method ReadRange(log: seq<Event>, from: Instant, to: Instant) returns (events: seq<Event>)
      ensures events == EventsRange(store, log, from, to)
    {
      var first, last := from, to;
      if to < from {
        first, last := to, from;
      }
      if store.Database? {
        return RangeOf(store, log, first, last);
      }
      events := [];
      var day := DayOf(first);
      while day <= DayOf(last)
        invariant DayOf(first) <= day && (day == DayOf(first) || day <= DayOf(last) + 1)
        invariant events == DayFiles(log, DayOf(first), day - 1)
        decreases DayOf(last) - day
      {
        events := events + DayFile(log, day);
        day := day + 1;
      }
    }

    method Record(state: Bookmark, events: seq<Event>, writable: bool)
      modifies this
      ensures saved == if writable then Advanced(state, overlap, events, target) else old(saved)
    {
      var shipped := state.shipped;
      var newest := NewestTimestamp(events);
      if newest > shipped {
        shipped := newest;
      }
      var keys := ListKeys(events, shipped - overlap);
      if !writable {
        return;
      }
      saved := Bookmark(shipped, target, keys);
    }

    method ListPending(events: seq<Event>, recent: seq<Key>) returns (pending: seq<Event>)
      ensures pending == Pending(events, recent)
    {
      pending := [];
      for i := 0 to |events|
        invariant pending == Pending(events[..i], recent)
      {
        assert events[..i + 1][..i] == events[..i];
        if KeyOf(events[i]) in recent {
          continue;
        }
        if events[i].kind == Content {
          continue;
        }
        pending := pending + [events[i]];
      }
      assert events[..|events|] == events;
    }

    method NewestTimestamp(events: seq<Event>) returns (newest: Instant)
      ensures newest == Newest(events)
    {
      newest := ZERO_TIME;
      for i := 0 to |events|
        invariant newest == Newest(events[..i])
      {
        assert events[..i + 1][..i] == events[..i];
        if events[i].timestamp > newest {
          newest := events[i].timestamp;
        }
      }
      assert events[..|events|] == events;
    }

    method ListKeys(events: seq<Event>, cutoff: Instant) returns (keys: seq<Key>)
      ensures keys == KeysWithin(events, cutoff)
    {
      keys := [];
      for i := 0 to |events|
        invariant keys == KeysWithin(events[..i], cutoff)
      {
        assert events[..i + 1][..i] == events[..i];
        if !(events[i].timestamp < cutoff) {
          keys := keys + [KeyOf(events[i])];
        }
      }
      assert events[..|events|] == events;
    }
  }

  // ---------------------------------------------------------------------------------------------
  // What the lists of a pass contain
  // ---------------------------------------------------------------------------------------------

  lemma {:induction false} DayWithinContents(log: seq<Event>, day: Day, from: Instant, to: Instant, ev: Event)
    ensures ev in DayWithin(log, day, from, to)
        <==> ev in log && DayOf(ev.timestamp) == day && from <= ev.timestamp <= to
  {
    if log != [] {
      DayWithinContents(log[..|log| - 1], day, from, to, ev);
    }
  }

  lemma {:induction false} DaysWithinContents(log: seq<Event>, first: Day, last: Day, from: Instant, to: Instant,
          ev: Event)
    ensures ev in DaysWithin(log, first, last, from, to) <==>
            ev in log && first <= DayOf(ev.timestamp) <= last && from <= ev.timestamp <= to
    decreases last - first
  {
    if first <= last {
      DaysWithinContents(log, first, last - 1, from, to, ev);
      DayWithinContents(log, last, from, to, ev);
    }
  }

  /** A day's file is the day between any instants that hold all of it. */
  lemma {:induction false} DayFileIsWithin(log: seq<Event>, day: Day, from: Instant, to: Instant)
    requires from <= StartOf(day) && StartOf(day + 1) <= to + 1
    ensures DayFile(log, day) == DayWithin(log, day, from, to)
  {
    if log != [] {
      DayFileIsWithin(log[..|log| - 1], day, from, to);
    }
  }

  lemma {:induction false} DayFilesAreWithin(log: seq<Event>, first: Day, last: Day, from: Instant, to: Instant)
    requires from <= StartOf(first) && StartOf(last + 1) <= to + 1
    ensures DayFiles(log, first, last) == DaysWithin(log, first, last, from, to)
    decreases last - first
  {
    if first <= last {
      DayFilesAreWithin(log, first, last - 1, from, to);
      DayFileIsWithin(log, last, from, to);
    }
  }

  /** Which instants a read between two of them covers. */
  predicate Covers(store: Store, from: Instant, to: Instant, at: Instant) {
    match store
    case FileStore => DayOf(from) <= DayOf(at) <= DayOf(to)
    case Database => from <= at <= to
  }

  lemma EventsRangeContents(store: Store, log: seq<Event>, from: Instant, to: Instant, ev: Event)
    ensures ev in EventsRange(store, log, from, to) <==>
              && ev in log
              && if to < from then Covers(store, to, from, ev.timestamp) else Covers(store, from, to, ev.timestamp)
  {
    if to < from {
      RangeContents(store, log, to, from, ev);
    } else {
      RangeContents(store, log, from, to, ev);
    }
  }

  lemma RangeContents(store: Store, log: seq<Event>, from: Instant, to: Instant, ev: Event)
    ensures ev in RangeOf(store, log, from, to) <==> ev in log && Covers(store, from, to, ev.timestamp)
  {
    var first, last := StartOf(DayOf(from)), StartOf(DayOf(to) + 1) - 1;
    DaysWithinContents(log, DayOf(from), DayOf(to), from, to, ev);
    DaysWithinContents(log, DayOf(from), DayOf(to), first, last, ev);
    DayFilesAreWithin(log, DayOf(from), DayOf(to), first, last);
    Sorting.SortMembers(DaysWithin(log, DayOf(from), DayOf(to), from, to), Earlier, ev);
  }

  function At(at: Instant): Event -> bool {
    (ev: Event) => ev.timestamp == at
  }

  function On(day: Day): Event -> bool {
    (ev: Event) => DayOf(ev.timestamp) == day
  }

  lemma {:induction false} DayFileIs(log: seq<Event>, day: Day, on: Day)
    ensures Sorting.Filter(DayFile(log, day), On(on)) == if on == day then Sorting.Filter(log, On(on)) else []
  {
    if log != [] {
      var ev := log[|log| - 1];
      var before := DayFile(log[..|log| - 1], day);
      DayFileIs(log[..|log| - 1], day, on);
      if DayOf(ev.timestamp) == day {
        Sorting.FilterSnoc(before, ev, On(on));
      } else {
        assert before + [] == before;
        assert Sorting.Filter(log, On(on)) + [] == Sorting.Filter(log, On(on));
      }
    }
  }

  lemma {:induction false} DayFilesAre(log: seq<Event>, first: Day, last: Day, on: Day)
    ensures Sorting.Filter(DayFiles(log, first, last), On(on))
         == if first <= on <= last then Sorting.Filter(log, On(on)) else []
    decreases last - first
  {
    if first <= last {
      DayFilesAre(log, first, last - 1, on);
      DayFileIs(log, last, on);
      Sorting.FilterConcat(DayFiles(log, first, last - 1), DayFile(log, last), On(on));
    }
  }

  lemma {:induction false} OfTheDay(log: seq<Event>, day: Day)
    ensures forall ev :: ev in DayFile(log, day) ==> DayOf(ev.timestamp) == day
  {
    if log != [] {
      OfTheDay(log[..|log| - 1], day);
    }
  }

  lemma {:induction false} DayFilesAscend(log: seq<Event>, first: Day, last: Day)
    ensures var es := DayFiles(log, first, last);
            && (forall ev :: ev in es ==> DayOf(ev.timestamp) <= last)
            && (forall i, j :: 0 <= i < j < |es| ==> DayOf(es[i].timestamp) <= DayOf(es[j].timestamp))
    decreases last - first
  {
    if first <= last {
      DayFilesAscend(log, first, last - 1);
      OfTheDay(log, last);
    }
  }

  lemma {:induction false} DayWithinIs(log: seq<Event>, day: Day, from: Instant, to: Instant, at: Instant)
    ensures Sorting.Filter(DayWithin(log, day, from, to), At(at))
         == if DayOf(at) == day && from <= at <= to then Sorting.Filter(log, At(at)) else []
  {
    if log != [] {
      var ev := log[|log| - 1];
      var before := DayWithin(log[..|log| - 1], day, from, to);
      DayWithinIs(log[..|log| - 1], day, from, to, at);
      if DayOf(ev.timestamp) == day && from <= ev.timestamp <= to {
        Sorting.FilterSnoc(before, ev, At(at));
      } else {
        assert before + [] == before;
        assert Sorting.Filter(log, At(at)) + [] == Sorting.Filter(log, At(at));
      }
    }
  }

  lemma {:induction false} DaysWithinAre(log: seq<Event>, first: Day, last: Day, from: Instant, to: Instant,
          at: Instant)
    ensures Sorting.Filter(DaysWithin(log, first, last, from, to), At(at))
         == if first <= DayOf(at) <= last && from <= at <= to then Sorting.Filter(log, At(at)) else []
    decreases last - first
  {
    if first <= last {
      DaysWithinAre(log, first, last - 1, from, to, at);
      DayWithinIs(log, last, from, to, at);
      Sorting.FilterConcat(DaysWithin(log, first, last - 1, from, to), DayWithin(log, last, from, to), At(at));
    }
  }

  /** The file store gives its days in turn, each as it was appended. */
  lemma FilesInOrder(log: seq<Event>, from: Instant, to: Instant, day: Day)
    ensures var es := RangeOf(FileStore, log, from, to);
            && (forall i, j :: 0 <= i < j < |es| ==> DayOf(es[i].timestamp) <= DayOf(es[j].timestamp))
            && Sorting.Filter(es, On(day))
               == if DayOf(from) <= day <= DayOf(to) then Sorting.Filter(log, On(day)) else []
  {
    DayFilesAscend(log, DayOf(from), DayOf(to));
    DayFilesAre(log, DayOf(from), DayOf(to), day);
  }

  /** The database gives instant after instant, the events of each as they arrived. */
  lemma InstantsInOrder(log: seq<Event>, from: Instant, to: Instant, at: Instant)
    ensures var es := RangeOf(Database, log, from, to);
            && (forall i, j :: 0 <= i < j < |es| ==> es[i].timestamp <= es[j].timestamp)
            && Sorting.Filter(es, At(at)) == if from <= at <= to then Sorting.Filter(log, At(at)) else []
  {
    var days := DaysWithin(log, DayOf(from), DayOf(to), from, to);
    Sorting.SortSorts(days, Earlier);
    Sorting.SortStable(days, Earlier, At(at));
    DaysWithinAre(log, DayOf(from), DayOf(to), from, to, at);
  }

  lemma {:induction false} PendingContents(events: seq<Event>, recent: seq<Key>, ev: Event)
    ensures ev in Pending(events, recent) <==> ev in events && KeyOf(ev) !in recent && ev.kind != Content
  {
    if events != [] {
      PendingContents(events[..|events| - 1], recent, ev);
    }
  }

  lemma {:induction false} NewestBounds(events: seq<Event>, ev: Event)
    ensures ev in events ==> ev.timestamp <= Newest(events)
    ensures Newest(events) == ZERO_TIME || exists x :: x in events && x.timestamp == Newest(events)
    ensures ZERO_TIME <= Newest(events)
  {
    if events != [] {
      NewestBounds(events[..|events| - 1], ev);
      assert events[|events| - 1] in events;
    }
  }

  lemma {:induction false} KeysWithinContents(events: seq<Event>, cutoff: Instant, key: Key)
    ensures key in KeysWithin(events, cutoff)
        <==> exists ev :: ev in events && ev.timestamp >= cutoff && KeyOf(ev) == key
  {
    if events != [] {
      KeysWithinContents(events[..|events| - 1], cutoff, key);
      assert events[|events| - 1] in events;
    }
  }
}
