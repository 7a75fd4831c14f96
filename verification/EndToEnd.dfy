/** From one machine's transcript to the server's turns: after any run of appends, replays, failed and half-accepted
    attempts, lost checkpoints and crashes, a pass that succeeds leaves a server whose every day folds into the
    turns of that day's events, each taken once. */
module EndToEnd {
  import opened Events
  import opened Fold
  import opened Forward
  import opened Shipping
  import opened Sightings
  import opened Slices
  import Collect
  import Replay
  import Sorting
  import TurnFacts

  // ---------------------------------------------------------------------------------------------
  // One attempt at one day
  // ---------------------------------------------------------------------------------------------

  /** Whatever is shown again is shown with all of its turn that was shown before. */
  ghost predicate Tidy(es: seq<Event>, ws: seq<Event>) {
    Followed(es, ws, In(ws))
  }

  function In(ws: seq<Event>): Event -> bool {
    ev => ev in ws
  }

  /** What is sent again of the events sent before is sent with all that came after it in its turn. */
  ghost predicate SendsTails(es: seq<Event>, sent: seq<Event>, again: Event -> bool) {
    forall a, b :: Before(es, a, b) && SameTurn(a, b) && a in sent && b in sent && again(a) ==> again(b)
  }

  function OpenIn(sent: seq<Event>, again: Event -> bool): Event -> bool {
    ev => ev !in sent || again(ev)
  }

  function DoneIn(sent: seq<Event>, again: Event -> bool): Event -> bool {
    ev => ev in sent && !again(ev)
  }

  lemma BeforeSentIsSent(es: seq<Event>, sent: seq<Event>, a: Event, b: Event)
    requires Introduces(es, sent) && Before(es, a, b) && b in sent
    ensures a in sent
  {
    var y :| 0 <= y < |sent| && sent[y] == b;
    assert Introduced(es, sent[..y], sent[y]);
  }

  /** Nothing that counts as done comes after an open event in its turn. */
  lemma OpenStaysOpen(es: seq<Event>, sent: seq<Event>, again: Event -> bool, a: Event, b: Event)
    requires Introduces(es, sent) && SendsTails(es, sent, again)
    requires Before(es, a, b) && SameTurn(a, b) && OpenIn(sent, again)(a)
    ensures OpenIn(sent, again)(b)
  {
    if b in sent {
      BeforeSentIsSent(es, sent, a, b);
    }
  }

  lemma AppendIntroduces(es: seq<Event>, ws: seq<Event>, more: seq<Event>)
    requires Introduces(es, ws) && forall n :: 0 <= n < |more| ==> Introduced(es, ws + more[..n], more[n])
    ensures Introduces(es, ws + more)
  {
    forall x | 0 <= x < |ws + more| ensures Introduced(es, (ws + more)[..x], (ws + more)[x]) {
      if x < |ws| {
        assert (ws + more)[..x] == ws[..x];
      } else {
        assert (ws + more)[..x] == ws + more[..x - |ws|];
      }
    }
  }

  lemma OpenIntroduced(es: seq<Event>, ws: seq<Event>, sent: seq<Event>, again: Event -> bool, seen: seq<Event>, n: nat)
    requires ShowsAll(sent, ws) && Introduces(es, sent) && Introduces(es, seen)
    requires n < |Sorting.Filter(seen, OpenIn(sent, again))|
    ensures var open := Sorting.Filter(seen, OpenIn(sent, again)); Introduced(es, ws + open[..n], open[n])
  {
    var open := Sorting.Filter(seen, OpenIn(sent, again));
    var y := Sorting.FilterAt(seen, OpenIn(sent, again), n);
    assert Introduced(es, seen[..y], seen[y]);
    forall a | Before(es, a, open[n]) ensures a in ws + open[..n] {
      if a !in sent {
        Sorting.FilterIn(seen[..y], OpenIn(sent, again), a);
      }
    }
  }

  /** Any first part of what is open keeps events first appearing in their order. */
  lemma AttemptIntroduces(es: seq<Event>, ws: seq<Event>, sent: seq<Event>, again: Event -> bool, seen: seq<Event>,
          batch: seq<Event>)
    requires Introduces(es, ws) && ShowsAll(sent, ws) && Introduces(es, sent) && Introduces(es, seen)
    requires batch <= Sorting.Filter(seen, OpenIn(sent, again))
    ensures Introduces(es, ws + batch)
  {
    var open := Sorting.Filter(seen, OpenIn(sent, again));
    forall n | 0 <= n < |batch| ensures Introduced(es, ws + batch[..n], batch[n]) {
      OpenIntroduced(es, ws, sent, again, seen, n);
      assert batch[..n] == open[..n];
    }
    AppendIntroduces(es, ws, batch);
  }

  lemma AppendFollowed(es: seq<Event>, ws: seq<Event>, more: seq<Event>, due: Event -> bool)
    requires forall x :: 0 <= x < |ws| ==> Succeeded(es, ws[x + 1..] + more, ws[x], due)
    requires forall n :: 0 <= n < |more| ==> Succeeded(es, more[n + 1..], more[n], due)
    ensures Followed(es, ws + more, due)
  {
    var all := ws + more;
    forall x | 0 <= x < |all| ensures Succeeded(es, all[x + 1..], all[x], due) {
      if x < |ws| {
        assert all[x + 1..] == ws[x + 1..] + more;
      } else {
        assert all[x + 1..] == more[x - |ws| + 1..];
      }
    }
  }

  /** It leaves nothing that is done unfollowed, whether or not it comes to an end. */
  lemma AttemptFollowed(es: seq<Event>, ws: seq<Event>, sent: seq<Event>, again: Event -> bool, batch: seq<Event>)
    requires Followed(es, ws, DoneIn(sent, again)) && Introduces(es, sent) && SendsTails(es, sent, again)
    requires forall ev :: ev in batch ==> OpenIn(sent, again)(ev)
    ensures Followed(es, ws + batch, DoneIn(sent, again))
  {
    var done := DoneIn(sent, again);
    forall x | 0 <= x < |ws| ensures Succeeded(es, ws[x + 1..] + batch, ws[x], done) {
      assert Succeeded(es, ws[x + 1..], ws[x], done);
    }
    forall n | 0 <= n < |batch| ensures Succeeded(es, batch[n + 1..], batch[n], done) {
      assert batch[n] in batch;
      forall b | Before(es, batch[n], b) && SameTurn(batch[n], b) ensures !done(b) {
        OpenStaysOpen(es, sent, again, batch[n], b);
      }
    }
    AppendFollowed(es, ws, batch, done);
  }

  lemma OpenFollowed(es: seq<Event>, sent: seq<Event>, again: Event -> bool, seen: seq<Event>, n: nat,
          due: Event -> bool)
    requires Introduces(es, sent) && SendsTails(es, sent, again) && Tidy(es, seen)
    requires forall ev :: ev in es && due(ev) ==> ev in seen
    requires n < |Sorting.Filter(seen, OpenIn(sent, again))|
    ensures var open := Sorting.Filter(seen, OpenIn(sent, again)); Succeeded(es, open[n + 1..], open[n], due)
  {
    var open := Sorting.Filter(seen, OpenIn(sent, again));
    var y := Sorting.FilterAt(seen, OpenIn(sent, again), n);
    assert Succeeded(es, seen[y + 1..], seen[y], In(seen));
    forall b | Before(es, open[n], b) && SameTurn(open[n], b) && due(b) ensures b in open[n + 1..] {
      OpenStaysOpen(es, sent, again, open[n], b);
      var i, j := PlacesBefore(es, open[n], b);
      Sorting.FilterIn(seen[y + 1..], OpenIn(sent, again), b);
    }
  }

  /** An attempt that comes to an end, and had read a tidy log, leaves nothing it had read unfollowed. */
  lemma SuccessFollowed(es: seq<Event>, ws: seq<Event>, sent: seq<Event>, again: Event -> bool, seen: seq<Event>,
          due: Event -> bool)
    requires Followed(es, ws, DoneIn(sent, again)) && Introduces(es, sent) && SendsTails(es, sent, again)
    requires Tidy(es, seen) && forall ev :: ev in es && due(ev) ==> ev in seen
    ensures Followed(es, ws + Sorting.Filter(seen, OpenIn(sent, again)), due)
  {
    var open := Sorting.Filter(seen, OpenIn(sent, again));
    forall x | 0 <= x < |ws| ensures Succeeded(es, ws[x + 1..] + open, ws[x], due) {
      assert Succeeded(es, ws[x + 1..], ws[x], DoneIn(sent, again));
      forall b | Before(es, ws[x], b) && SameTurn(ws[x], b) && due(b) ensures b in ws[x + 1..] + open {
        var i, j := PlacesBefore(es, ws[x], b);
        Sorting.FilterIn(seen, OpenIn(sent, again), b);
      }
    }
    forall n | 0 <= n < |open| ensures Succeeded(es, open[n + 1..], open[n], due) {
      OpenFollowed(es, sent, again, seen, n, due);
    }
    AppendFollowed(es, ws, open, due);
  }

  lemma SuccessShowsAll(ws: seq<Event>, sent: seq<Event>, again: Event -> bool, seen: seq<Event>)
    requires ShowsAll(sent, ws)
    ensures ShowsAll(seen, ws + Sorting.Filter(seen, OpenIn(sent, again)))
  {
    forall ev | ev in seen ensures ev in ws + Sorting.Filter(seen, OpenIn(sent, again)) {
      Sorting.FilterIn(seen, OpenIn(sent, again), ev);
    }
  }

  // ---------------------------------------------------------------------------------------------
  // What a pass sends of one day
  // ---------------------------------------------------------------------------------------------

  function AgainIn(c: Setting, mark: Bookmark): Event -> bool {
    (ev: Event) => Again(c, mark, ev.timestamp)
  }

  function Unlisted(recent: seq<Key>): Event -> bool {
    (ev: Event) => KeyOf(ev) !in recent && ev.kind != Content
  }

  lemma {:induction false} PendingIsFilter(es: seq<Event>, recent: seq<Key>)
    ensures Pending(es, recent) == Sorting.Filter(es, Unlisted(recent))
  {
    if es != [] {
      PendingIsFilter(es[..|es| - 1], recent);
    }
  }

  function InFile(day: Day): Event -> bool {
    (ev: Event) => DayOf(ev.timestamp) == day
  }

  lemma {:induction false} DayFileIsFilter(log: seq<Event>, day: Day)
    ensures DayFile(log, day) == Sorting.Filter(log, InFile(day))
  {
    if log != [] {
      DayFileIsFilter(log[..|log| - 1], day);
    }
  }

  /** What of a day is due from its file. */
  function DueOn(recent: seq<Key>, day: Day): Event -> bool {
    (ev: Event) => OnDay(day)(ev) && KeyOf(ev) !in recent
  }

  lemma {:induction false} NothingKept<T>(xs: seq<T>, keep: T -> bool)
    requires forall x :: x in xs ==> !keep(x)
    ensures Sorting.Filter(xs, keep) == []
  {
    if xs != [] {
      assert xs[|xs| - 1] in xs;
      NothingKept(xs[..|xs| - 1], keep);
    }
  }

  lemma FileIsDue(log: seq<Event>, read: Day, recent: seq<Key>, day: Day)
    ensures Shown(Pending(DayFile(log, read), recent), day)
         == if read == day then Sorting.Filter(log, DueOn(recent, day)) else []
  {
    var file := DayFile(log, read);
    var both := (ev: Event) => Unlisted(recent)(ev) && OnDay(day)(ev);
    PendingIsFilter(file, recent);
    DayFileIsFilter(log, read);
    Sorting.FilterNarrows(file, Unlisted(recent), OnDay(day), both);
    if read == day {
      Sorting.FilterNarrows(log, InFile(day), both, DueOn(recent, day));
    } else {
      forall ev | ev in file ensures !both(ev) {
        Sorting.FilterIn(log, InFile(read), ev);
      }
      NothingKept(file, both);
    }
  }

  lemma {:induction false} FilesAreDue(log: seq<Event>, first: Day, last: Day, recent: seq<Key>, day: Day)
    ensures Shown(Pending(DayFiles(log, first, last), recent), day)
         == if first <= day <= last then Sorting.Filter(log, DueOn(recent, day)) else []
    decreases last - first
  {
    if first <= last {
      var before, file := DayFiles(log, first, last - 1), DayFile(log, last);
      FilesAreDue(log, first, last - 1, recent, day);
      FileIsDue(log, last, recent, day);
      PendingIsFilter(before + file, recent);
      PendingIsFilter(before, recent);
      PendingIsFilter(file, recent);
      Sorting.FilterConcat(before, file, Unlisted(recent));
      Sorting.FilterConcat(Pending(before, recent), Pending(file, recent), OnDay(day));
    }
  }

  /** From the file store, what is pending of a day stands in the order of the log. */
  lemma PendingInLogOrder(log: seq<Event>, from: Instant, to: Instant, recent: seq<Key>, day: Day)
    ensures Shown(Pending(EventsRange(FileStore, log, from, to), recent), day)
         == Sorting.Filter(Shown(log, day), In(Pending(EventsRange(FileStore, log, from, to), recent)))
  {
    var events := EventsRange(FileStore, log, from, to);
    var pending := Pending(events, recent);
    var first, last := if to < from then DayOf(to) else DayOf(from), if to < from then DayOf(from) else DayOf(to);
    FilesAreDue(log, first, last, recent, day);
    forall ev ensures ev in pending <==> ev in log && first <= DayOf(ev.timestamp) <= last && Unlisted(recent)(ev) {
      PendingContents(events, recent, ev);
      EventsRangeContents(FileStore, log, from, to, ev);
    }
    var wanted := (ev: Event) => OnDay(day)(ev) && ev in pending;
    Sorting.FilterNarrows(log, OnDay(day), In(pending), wanted);
    if first <= day <= last {
      Sorting.FilterAgrees(log, DueOn(recent, day), wanted);
    } else {
      NothingKept(log, wanted);
    }
  }

  lemma {:induction false} FilterErased(es: seq<Event>, keep: Event -> bool, kept: Event -> bool)
    requires forall ev :: ev in es ==> keep(TurnFacts.EraseEvent(ev)) == kept(ev)
    ensures Sorting.Filter(TurnFacts.EraseAll(es), keep) == TurnFacts.EraseAll(Sorting.Filter(es, kept))
  {
    if es != [] {
      var init, last := es[..|es| - 1], es[|es| - 1];
      assert last in es;
      FilterErased(init, keep, kept);
      SplitLast(es);
      EraseConcat(init, [last]);
      EraseConcat(Sorting.Filter(init, kept), if kept(last) then [last] else []);
      EraseOne(last);
      Sorting.FilterSnoc(TurnFacts.EraseAll(init), TurnFacts.EraseEvent(last), keep);
    }
  }

  lemma EraseOne(ev: Event)
    ensures TurnFacts.EraseAll([ev]) == [TurnFacts.EraseEvent(ev)] && TurnFacts.EraseAll([]) == []
  {
  }

  lemma SentSlice(w: World, day: Day, ev: Event)
    requires ToldApart(w.local) && ev in w.local && OnDay(day)(ev)
    ensures TurnFacts.EraseEvent(ev) in Slice(Sent(w), day) <==> ev in Sent(w)
  {
    if ev in Sent(w) {
      SliceHas(Sent(w), day, ev);
    }
    if TurnFacts.EraseEvent(ev) in Slice(Sent(w), day) {
      var x := SliceFrom(Sent(w), day, TurnFacts.EraseEvent(ev));
      assert x in w.local && KeyOf(x) == KeyOf(ev);
    }
  }

  /** A pass sends, in the order of the log, what is open of the day. */
  lemma PendingIsOpen(c: Setting, w: World, day: Day)
    requires MarkInv(c, w) && w.flight.Flight? && c.store.FileStore?
    requires w.saved.server == "" || w.saved.server == w.target
    ensures Slice(PendingIn(w.flight), day)
         == Sorting.Filter(Slice(Seen(w), day), OpenIn(Slice(Sent(w), day), AgainIn(c, w.saved)))
  {
    var f, log := w.flight, Seen(w);
    var open := OpenIn(Slice(Sent(w), day), AgainIn(c, w.saved));
    if log == [] {
      assert f.events == [];
    } else {
      PendingInLogOrder(log, From(f.mark, c.overlap, log), f.now, f.mark.recent, day);
    }
    forall ev | ev in Shown(log, day) ensures In(PendingIn(f))(ev) == open(TurnFacts.EraseEvent(ev)) {
      Sorting.FilterIn(log, OnDay(day), ev);
      OpenIff(c, w, day, ev);
    }
    FilterErased(Shown(log, day), open, In(PendingIn(f)));
  }

  lemma OpenIff(c: Setting, w: World, day: Day, ev: Event)
    requires MarkInv(c, w) && w.flight.Flight? && ev in Seen(w) && OnDay(day)(ev)
    requires w.saved.server == "" || w.saved.server == w.target
    ensures ev in PendingIn(w.flight) <==>
            OpenIn(Slice(Sent(w), day), AgainIn(c, w.saved))(TurnFacts.EraseEvent(ev))
  {
    PendingIff(c, w, ev);
    assert ev in w.local;
    SentSlice(w, day, ev);
    if w.saved.server == "" {
      NothingSentYet(c, w, ev);
    }
  }

  lemma NothingSentYet(c: Setting, w: World, ev: Event)
    requires MarkInv(c, w) && w.saved.server == "" && ev.kind != Content
    ensures ev !in Sent(w)
  {
    assert ev in Sent(w) ==> Claims(c, w.saved, ev);
  }

  // ---------------------------------------------------------------------------------------------
  // The invariant
  // ---------------------------------------------------------------------------------------------

  function Accepted(w: World): seq<Event> {
    ServerOf(w, w.target).accepted
  }

  /** What goes out again of a day goes out with all of its turn that was sent. */
  ghost predicate ResendsTails(c: Setting, source: seq<Event>, w: World, day: Day) {
    SendsTails(Slice(source, day), Slice(Sent(w), day), AgainIn(c, w.saved))
  }

  /** The hypotheses: one server; timely events; a clock that no event is ahead of; a server that finds what it
      receives plausible; and whenever a pass ends, what it sends again is sent with the rest of its turn. */
  ghost predicate Strict(c: Setting, source: seq<Event>, w: World, a: Action)
    requires Enabled(c, w, a)
  {
    && Orderly(w, a)
    && match a
       case Append(ev) => Timely(c, w, ev)
       case PassStarts(_) => true
       case PassEnds(serverNow, _, _, _) =>
         && (forall ev :: ev in PendingIn(w.flight) ==> Collect.Plausible(ev, serverNow))
         && forall day :: ResendsTails(c, source, w, day)
       case Retarget(_) => false
  }

  ghost predicate StrictRun(c: Setting, source: seq<Event>, w: World, actions: seq<Action>)
    requires Runs(c, w, actions)
    decreases |actions|
  {
    actions == [] || (Strict(c, source, w, actions[0]) && StrictRun(c, source, Next(c, w, actions[0]), actions[1..]))
  }

  /** A pass that is recorded did not read a log in the middle of a replay. */
  ghost predicate ReadsTidy(source: seq<Event>, w: World, a: Action) {
    Recorded(w, a) ==> forall day :: Tidy(Slice(source, day), Slice(Seen(w), day))
  }

  ghost predicate TidyRun(c: Setting, source: seq<Event>, w: World, actions: seq<Action>)
    requires Runs(c, w, actions)
    decreases |actions|
  {
    actions == [] || (ReadsTidy(source, w, actions[0]) && TidyRun(c, source, Next(c, w, actions[0]), actions[1..]))
  }

  /** On the server a day's events first appear in their order, those sent are there, and each is followed by what
      will not be sent again. */
  ghost predicate DayHolds(c: Setting, source: seq<Event>, w: World, day: Day) {
    var es, ws, sent := Slice(source, day), Slice(Accepted(w), day), Slice(Sent(w), day);
    Introduces(es, ws) && ShowsAll(sent, ws) && Followed(es, ws, DoneIn(sent, AgainIn(c, w.saved)))
  }

  ghost predicate Inv(c: Setting, source: seq<Event>, w: World) {
    && MarkInv(c, w) && (w.saved.server == "" || w.saved.server == w.target)
    && Introduces(source, w.local)
    && forall day :: DayHolds(c, source, w, day)
  }

  lemma PrefixIntroduces(es: seq<Event>, ws: seq<Event>, n: nat)
    requires Introduces(es, ws) && n <= |ws|
    ensures Introduces(es, ws[..n])
  {
    forall x | 0 <= x < n ensures Introduced(es, ws[..n][..x], ws[..n][x]) {
      assert ws[..n][..x] == ws[..x];
    }
  }

  /** The day's part of what was read and of what was sent. */
  lemma PartsIntroduce(c: Setting, source: seq<Event>, w: World, day: Day)
    requires Observed(source) && Inv(c, source, w)
    ensures Introduces(Slice(source, day), Slice(Seen(w), day)) && Introduces(Slice(source, day), Slice(Sent(w), day))
  {
    PrefixIntroduces(source, w.local, w.upTo);
    if w.flight.Flight? {
      PrefixIntroduces(source, w.local, w.flight.seen);
    }
    SliceIntroduces(source, Seen(w), day);
    SliceIntroduces(source, Sent(w), day);
  }

  /** A batch whose events are all plausible extends the server's day by the batch's day. */
  lemma AcceptedGrows(c: Setting, w: World, a: Action, day: Day)
    requires a.PassEnds? && Enabled(c, w, a)
    requires forall ev :: ev in PendingIn(w.flight) ==> Collect.Plausible(ev, a.serverNow)
    ensures var p := PendingIn(w.flight);
            var batch := if a.success then p else p[..a.received];
            Slice(Accepted(Next(c, w, a)), day) == Slice(Accepted(w), day) + Slice(batch, day)
  {
    var p := PendingIn(w.flight);
    var batch := if a.success then p else p[..a.received];
    forall ev | ev in batch ensures Collect.Plausible(ev, a.serverNow) {
      assert ev in p;
    }
    SliceOfLanded(batch, a.serverNow, c.stamp, day);
    SliceConcat(Accepted(w), Collect.Landed(batch, a.serverNow, c.stamp), day);
  }

  lemma PrefixOfSlice(es: seq<Event>, n: nat, day: Day)
    requires n <= |es|
    ensures Slice(es[..n], day) <= Slice(es, day)
  {
    assert es == es[..n] + es[n..];
    SliceConcat(es[..n], es[n..], day);
  }

  // ---------------------------------------------------------------------------------------------
  // Every action keeps it
  // ---------------------------------------------------------------------------------------------

  /** An attempt that is not recorded, whatever part of it arrives. */
  lemma UnrecordedHolds(c: Setting, source: seq<Event>, w: World, a: Action, day: Day)
    requires Observed(source) && Inv(c, source, w) && c.store.FileStore?
    requires a.PassEnds? && Enabled(c, w, a) && Strict(c, source, w, a) && !Recorded(w, a)
    ensures DayHolds(c, source, Next(c, w, a), day)
  {
    var es, ws, sent := Slice(source, day), Slice(Accepted(w), day), Slice(Sent(w), day);
    var again := AgainIn(c, w.saved);
    var p := PendingIn(w.flight);
    var batch := Slice(if a.success then p else p[..a.received], day);
    assert DayHolds(c, source, w, day) && ResendsTails(c, source, w, day);
    assert p[..|p|] == p;
    AcceptedGrows(c, w, a, day);
    PrefixOfSlice(p, if a.success then |p| else a.received, day);
    PendingIsOpen(c, w, day);
    PartsIntroduce(c, source, w, day);
    AttemptIntroduces(es, ws, sent, again, Slice(Seen(w), day), batch);
    BatchIsOpen(batch, Slice(Seen(w), day), OpenIn(sent, again));
    AttemptFollowed(es, ws, sent, again, batch);
  }

  lemma BatchIsOpen(batch: seq<Event>, seen: seq<Event>, open: Event -> bool)
    requires batch <= Sorting.Filter(seen, open)
    ensures forall ev :: ev in batch ==> open(ev)
  {
    forall ev | ev in batch ensures open(ev) {
      assert ev in Sorting.Filter(seen, open);
      Sorting.FilterIn(seen, open, ev);
    }
  }

  /** What a pass that succeeds leaves of a day. */
  lemma SuccessHolds(c: Setting, source: seq<Event>, w: World, a: Action, day: Day, due: Event -> bool)
    requires Observed(source) && Inv(c, source, w) && c.store.FileStore?
    requires a.PassEnds? && a.success && Enabled(c, w, a) && Strict(c, source, w, a)
    requires Tidy(Slice(source, day), Slice(Seen(w), day))
    requires forall ev :: ev in Slice(source, day) && due(ev) ==> ev in Slice(Seen(w), day)
    ensures var es, ws := Slice(source, day), Slice(Accepted(Next(c, w, a)), day);
            Introduces(es, ws) && ShowsAll(Slice(Seen(w), day), ws) && Followed(es, ws, due)
  {
    var es, ws, sent := Slice(source, day), Slice(Accepted(w), day), Slice(Sent(w), day);
    var again := AgainIn(c, w.saved);
    assert DayHolds(c, source, w, day) && ResendsTails(c, source, w, day);
    AcceptedGrows(c, w, a, day);
    PendingIsOpen(c, w, day);
    PartsIntroduce(c, source, w, day);
    AttemptIntroduces(es, ws, sent, again, Slice(Seen(w), day), Slice(PendingIn(w.flight), day));
    SuccessFollowed(es, ws, sent, again, Slice(Seen(w), day), due);
    SuccessShowsAll(ws, sent, again, Slice(Seen(w), day));
  }

  /** A recorded success moves the split past everything it had read. */
  lemma RecordedHolds(c: Setting, source: seq<Event>, w: World, a: Action, day: Day)
    requires Observed(source) && Inv(c, source, w) && c.store.FileStore?
    requires a.PassEnds? && Enabled(c, w, a) && Strict(c, source, w, a) && Recorded(w, a)
    requires Tidy(Slice(source, day), Slice(Seen(w), day))
    ensures DayHolds(c, source, Next(c, w, a), day)
  {
    var v := Next(c, w, a);
    RecordedNext(c, w, a);
    assert Sent(v) == Seen(w);
    SuccessHolds(c, source, w, a, day, DoneIn(Slice(Sent(v), day), AgainIn(c, v.saved)));
  }

  lemma EndKeepsInv(c: Setting, source: seq<Event>, w: World, a: Action)
    requires Observed(source) && Inv(c, source, w) && c.store.FileStore?
    requires a.PassEnds? && Enabled(c, w, a) && Strict(c, source, w, a) && ReadsTidy(source, w, a)
    ensures Inv(c, source, Next(c, w, a))
  {
    EndKeepsMark(c, w, a);
    forall day ensures DayHolds(c, source, Next(c, w, a), day) {
      if Recorded(w, a) {
        RecordedHolds(c, source, w, a, day);
      } else {
        UnrecordedHolds(c, source, w, a, day);
      }
    }
  }

  lemma AppendIsProper(c: Setting, source: seq<Event>, w: World, ev: Event)
    requires Observed(source) && Introduces(source, w.local + [ev]) && Timely(c, w, ev)
    ensures Proper(c, w, Append(ev))
  {
    var all := w.local + [ev];
    assert Introduced(source, all[..|w.local|], all[|w.local|]);
    forall other | other in w.local && KeyOf(other) == KeyOf(ev) ensures other == ev {
      var x :| 0 <= x < |w.local| && w.local[x] == other;
      assert Introduced(source, all[..x], all[x]);
      SameKeySame(source, other, ev);
    }
  }

  lemma AppendOnlyAppends(c: Setting, w: World, ev: Event)
    requires w.upTo <= |w.local| && c.store.FileStore?
    ensures var v := Next(c, w, Append(ev));
            && v.local == w.local + [ev] && Sent(v) == Sent(w) && v.saved == w.saved && v.target == w.target
            && Accepted(v) == Accepted(w)
  {
    CutLater(w.local, w.upTo, ev);
  }

  lemma AppendKeepsInv(c: Setting, source: seq<Event>, w: World, ev: Event)
    requires Observed(source) && Inv(c, source, w) && c.store.FileStore?
    requires Strict(c, source, w, Append(ev)) && Introduces(source, w.local + [ev])
    ensures Inv(c, source, Next(c, w, Append(ev)))
  {
    AppendIsProper(c, source, w, ev);
    AppendKeepsMark(c, w, ev);
    AppendOnlyAppends(c, w, ev);
    SameDays(c, source, w, Next(c, w, Append(ev)));
  }

  /** A step that changes neither what was sent, nor the bookmark, nor the server. */
  lemma SameDays(c: Setting, source: seq<Event>, w: World, v: World)
    requires Inv(c, source, w) && Sent(v) == Sent(w) && v.saved == w.saved && Accepted(v) == Accepted(w)
    ensures forall day :: DayHolds(c, source, v, day)
  {
    forall day ensures DayHolds(c, source, v, day) {
      assert DayHolds(c, source, w, day);
    }
  }

  lemma StartKeepsInv(c: Setting, source: seq<Event>, w: World, a: Action)
    requires Inv(c, source, w) && a.PassStarts? && Enabled(c, w, a) && Strict(c, source, w, a)
    ensures Inv(c, source, Next(c, w, a))
  {
    StartKeepsMark(c, w, a);
    SameDays(c, source, w, Next(c, w, a));
  }

  lemma {:induction false} LocalGrows(c: Setting, w: World, actions: seq<Action>)
    requires Runs(c, w, actions)
    ensures w.local <= After(c, w, actions).local
    decreases |actions|
  {
    if actions != [] {
      LocalGrows(c, Next(c, w, actions[0]), actions[1..]);
    }
  }

  lemma EarlierIntroduces(source: seq<Event>, log: seq<Event>, more: seq<Event>)
    requires Introduces(source, more) && log <= more
    ensures Introduces(source, log)
  {
    PrefixIntroduces(source, more, |log|);
  }

  lemma StepKeepsInv(c: Setting, source: seq<Event>, w: World, a: Action)
    requires Observed(source) && Inv(c, source, w) && c.store.FileStore?
    requires Enabled(c, w, a) && Strict(c, source, w, a) && ReadsTidy(source, w, a)
    requires Introduces(source, Next(c, w, a).local)
    ensures Inv(c, source, Next(c, w, a))
  {
    match a {
      case Append(ev) => AppendKeepsInv(c, source, w, ev);
      case PassStarts(_) => StartKeepsInv(c, source, w, a);
      case PassEnds(_, _, _, _) => EndKeepsInv(c, source, w, a);
      case Retarget(_) => assert false;
    }
  }

  lemma {:induction false} InvOverRuns(c: Setting, source: seq<Event>, w: World, actions: seq<Action>)
    requires Observed(source) && Inv(c, source, w) && c.store.FileStore?
    requires Runs(c, w, actions) && StrictRun(c, source, w, actions) && TidyRun(c, source, w, actions)
    requires Introduces(source, After(c, w, actions).local)
    ensures Inv(c, source, After(c, w, actions))
    decreases |actions|
  {
    if actions != [] {
      var v := Next(c, w, actions[0]);
      LocalGrows(c, v, actions[1..]);
      EarlierIntroduces(source, v.local, After(c, w, actions).local);
      StepKeepsInv(c, source, w, actions[0]);
      InvOverRuns(c, source, v, actions[1..]);
    }
  }

  predicate CleanStart(w: World) {
    Initial(w) && w.clock >= ZERO_TIME && Accepted(w) == []
  }

  lemma InitialInv(c: Setting, source: seq<Event>, w: World)
    requires CleanStart(w)
    ensures Inv(c, source, w)
  {
    InitialMark(c, w);
  }

  // ---------------------------------------------------------------------------------------------
  // What a complete delivery leaves
  // ---------------------------------------------------------------------------------------------

  lemma SameTurns(a: seq<Event>, b: seq<Event>, day: Day)
    requires FoldFrom(START, Slice(a, day)) == FoldFrom(START, Slice(b, day))
    ensures Sorting.Map(TurnFacts.EraseTurn, TurnsOf(Shown(a, day)))
         == Sorting.Map(TurnFacts.EraseTurn, TurnsOf(Shown(b, day)))
  {
    TurnFacts.TurnsErase(Shown(a, day));
    TurnFacts.TurnsErase(Shown(b, day));
  }

  /** A run of the shipper over a log of the source's events, and the end of a pass that read all of it. */
  ghost predicate Ships(c: Setting, source: seq<Event>, w: World, actions: seq<Action>, a: Action) {
    && c.store.FileStore? && CleanStart(w) && Runs(c, w, actions) && StrictRun(c, source, w, actions)
    && var u := After(c, w, actions);
       && a.PassEnds? && a.success && Enabled(c, u, a) && Strict(c, source, u, a) && Seen(u) == u.local
  }

  ghost predicate SameDay(es: seq<Event>, source: seq<Event>, day: Day) {
    Sorting.Map(TurnFacts.EraseTurn, TurnsOf(Shown(es, day)))
    == Sorting.Map(TurnFacts.EraseTurn, TurnsOf(Shown(source, day)))
  }

  /** The server's turns for a day are the turns of the source's events of that day, each taken once, without
      content, in the same order and in every field but identity: after any strict run whose recorded passes did
      not read a log in the middle of a replay, as soon as a pass succeeds that read a log which shows the whole
      source and is not in the middle of a replay either. */
  lemma ServerTurnsMatchSourceTurns(c: Setting, source: seq<Event>, w: World, actions: seq<Action>, a: Action, day: Day)
    requires Observed(source) && Ships(c, source, w, actions, a) && TidyRun(c, source, w, actions)
    requires var log := After(c, w, actions).local;
             Introduces(source, log) && ShowsAll(source, log) && Tidy(Slice(source, day), Slice(log, day))
    ensures SameDay(Accepted(Next(c, After(c, w, actions), a)), source, day)
  {
    InitialInv(c, source, w);
    InvOverRuns(c, source, w, actions);
    var u := After(c, w, actions);
    WholeDaySeen(source, Seen(u), day);
    SuccessHolds(c, source, u, a, day, Always());
    var v := Next(c, u, a);
    SliceDistinct(source, day);
    SliceMeasures(source, day);
    SightingsFold(Slice(source, day), Slice(Accepted(v), day));
    SameTurns(Accepted(v), source, day);
  }

  lemma WholeDaySeen(source: seq<Event>, seen: seq<Event>, day: Day)
    requires ShowsAll(source, seen)
    ensures ShowsAll(Slice(source, day), Slice(seen, day))
  {
    forall x | x in Slice(source, day) ensures x in Slice(seen, day) {
      var ev := SliceFrom(source, day, x);
      SliceHas(seen, day, ev);
    }
  }

  // ---------------------------------------------------------------------------------------------
  // A log without replays
  // ---------------------------------------------------------------------------------------------

  lemma ObservedIsDistinct(es: seq<Event>)
    requires Observed(es)
    ensures Distinct(es)
  {
    forall i, j | 0 <= i < j < |es| ensures es[i] != es[j] {
      assert KeyOf(es[i]) != KeyOf(es[j]);
    }
  }

  lemma ItselfIntroduced(es: seq<Event>)
    requires Distinct(es)
    ensures Introduces(es, es)
  {
    forall x | 0 <= x < |es| ensures Introduced(es, es[..x], es[x]) {
      forall a | Before(es, a, es[x]) ensures a in es[..x] {
        var i, j := PlacesBefore(es, a, es[x]);
        OnePlace(es, j, x);
        assert es[..x][i] == a;
      }
    }
  }

  /** The first part of a list of events is in the middle of nothing. */
  lemma PrefixIsTidy(es: seq<Event>, ws: seq<Event>)
    requires Distinct(es) && ws <= es
    ensures Tidy(es, ws)
  {
    forall x | 0 <= x < |ws| ensures Succeeded(es, ws[x + 1..], ws[x], In(ws)) {
      forall b | Before(es, ws[x], b) && b in ws ensures b in ws[x + 1..] {
        var i, j := PlacesBefore(es, ws[x], b);
        OnePlace(es, i, x);
        var y :| 0 <= y < |ws| && ws[y] == b;
        OnePlace(es, j, y);
        assert ws[x + 1..][y - x - 1] == b;
      }
    }
  }

  lemma {:induction false} FreshLogIsTidy(c: Setting, w: World, actions: seq<Action>, source: seq<Event>)
    requires Runs(c, w, actions) && Observed(source) && After(c, w, actions).local <= source
    ensures TidyRun(c, source, w, actions)
    decreases |actions|
  {
    if actions != [] {
      LocalGrows(c, w, actions);
      forall day ensures Tidy(Slice(source, day), Slice(Seen(w), day)) {
        PrefixOfSlice(source, |Seen(w)|, day);
        assert source[..|Seen(w)|] == Seen(w);
        SliceDistinct(source, day);
        PrefixIsTidy(Slice(source, day), Slice(Seen(w), day));
      }
      FreshLogIsTidy(c, Next(c, w, actions[0]), actions[1..], source);
    }
  }

  /** So the server's turns for a day are the local turns of that day, if no event is in the local log twice. */
  lemma ServerTurnsMatchLocalTurns(c: Setting, w: World, actions: seq<Action>, a: Action, day: Day)
    requires Runs(c, w, actions) && Observed(After(c, w, actions).local)
    requires Ships(c, After(c, w, actions).local, w, actions, a)
    ensures SameDay(Accepted(Next(c, After(c, w, actions), a)), After(c, w, actions).local, day)
  {
    var source := After(c, w, actions).local;
    FreshLogIsTidy(c, w, actions, source);
    ObservedIsDistinct(source);
    ItselfIntroduced(source);
    SliceDistinct(source, day);
    PrefixIsTidy(Slice(source, day), Slice(source, day));
    ServerTurnsMatchSourceTurns(c, source, w, actions, a, day);
  }
}
