/** What one finished sweep makes of what an interrupted one left: exactly when it releases a day that no
    query will look at again, and exactly when it replaces an index whose tables do not belong together. */
module Aftermath {
  import opened Archive
  import opened Compactor
  import opened Events
  import opened Freezing
  import opened Lifecycle
  import opened Skipping
  import opened Sweeps
  import Calm
  import Fold
  import Reading
  import Rollup
  import Serving
  import Sorting

  // ---------------------------------------------------------------------------------------------
  // What a sweep does to partitions and window
  // ---------------------------------------------------------------------------------------------

  /** A sweep that writes nothing leaves the partitions alone. */
  lemma {:induction false} NothingWritten(f: Format, hot: Window, parts: Partitions, days: seq<Day>, today: Day)
    requires !Wrote(f, hot, parts, days, today, false)
    ensures CompactEach(f, hot, parts, days, today, false) == parts
  {
    if days != [] {
      NothingWritten(f, hot, parts, days[..|days| - 1], today);
    }
  }

  /** Compacted, with its own row. */
  predicate Finished(parts: Partitions, day: Day) {
    Compacted(parts, day) && PartOf(parts, day).day.Some?
  }

  /** What is finished stays so, and what becomes compacted is finished. */
  lemma {:induction false} SweepFinishesDays(f: Format, hot: Window, parts: Partitions, days: seq<Day>, today: Day,
          day: Day)
    requires Lossless(f) && (Compacted(parts, day) ==> Finished(parts, day))
    ensures var now := CompactEach(f, hot, parts, days, today, false);
            (Compacted(parts, day) ==> Compacted(now, day)) && (Compacted(now, day) ==> Finished(now, day))
  {
    if days != [] {
      SweepFinishesDays(f, hot, parts, days[..|days| - 1], today, day);
    }
  }

  /** The days released are the past, compacted ones that were considered. */
  lemma {:induction false} ReleasedDays(f: Format, hot: Window, parts: Partitions, days: seq<Day>, today: Day, day: Day)
    requires PruneEach(f, hot, parts, days, today).Some?
    ensures day in PruneEach(f, hot, parts, days, today).value
       <==> day in hot && !(day in days && day < today && Compacted(parts, day))
  {
    if days != [] {
      var init, last := days[..|days| - 1], days[|days| - 1];
      ReleasedDays(f, hot, parts, init, today, day);
      assert day in days <==> day in init || day == last;
    }
  }

  // ---------------------------------------------------------------------------------------------
  // A day that is released and hidden
  // ---------------------------------------------------------------------------------------------

  lemma HotAfter(f: Format, s: System, t: Stores, day: Day)
    requires s.prune && Outcome(f, true, false, s.today, StoresOf(s)) == Some(t)
    ensures day in t.hot <==> day in s.hot && !(day < s.today && Compacted(t.parts, day))
    ensures t.parts == CompactEach(f, s.hot, s.parts, Calendar(s.hot), s.today, false)
  {
    ReleasedDays(f, s.hot, t.parts, Calendar(s.hot), s.today, day);
    InOrderHolds(s.hot.Keys);
  }

  lemma CompactedIsFinished(f: Format, s: System, day: Day)
    requires Lossless(f) && DayInv(f, s, day) && Compacted(s.parts, day)
    ensures Finished(s.parts, day)
  {
    FrozenIsPublished(f, day, EventsOn(s.ever, day), CutsOf(s, day));
  }

  lemma GatheredFinished(parts: Partitions, day: Day)
    requires Finished(parts, day)
    ensures day in Gathered(parts).days
  {
  }

  /** After a rebuild no day is hidden that ever had an event. */
  lemma RebuiltHidesNothing(f: Format, s: System, t: Stores, day: Day)
    requires Lossless(f) && Inv(f, s) && s.prune && Outcome(f, true, false, s.today, StoresOf(s)) == Some(t)
    requires EventsOn(s.ever, day) != [] && Rebuilds(f, false, s.today, StoresOf(s))
    ensures !KnownEmpty(LoadIndex(t.cached, t.published), t.hot.Keys, day)
  {
    assert DayInv(f, s, day);
    HotAfter(f, s, t, day);
    if day !in t.hot {
      if Compacted(s.parts, day) {
        CompactedIsFinished(f, s, day);
      }
      SweepFinishesDays(f, s.hot, s.parts, Calendar(s.hot), s.today, day);
      GatheredFinished(t.parts, day);
      assert t.published == PublishUpTo(s.published, Gathered(t.parts), INDEX_PUTS) && t.cached == None;
    }
  }

  /** There is an index, the one in memory or else a published one that is not empty, and it lacks the day. */
  predicate Lacks(cached: Option<Index>, published: Published, day: Day) {
    if cached.Some? then day !in cached.value.days
    else published.days.Some? && published.days.value != map[] && day !in published.days.value
  }

  /** A finished sweep leaves a day skipped that has had events if and only if it wrote nothing, found an index
      in place, that index lacks the day, and the day is released already or is released now. */
  lemma HiddenIff(f: Format, s: System, t: Stores, day: Day)
    requires Lossless(f) && Inv(f, s) && s.prune && Outcome(f, true, false, s.today, StoresOf(s)) == Some(t)
    requires EventsOn(s.ever, day) != []
    ensures KnownEmpty(LoadIndex(t.cached, t.published), t.hot.Keys, day)
       <==> && !Wrote(f, s.hot, s.parts, Calendar(s.hot), s.today, false) && HasIndex(s.published)
            && Lacks(s.cached, s.published, day)
            && (day !in s.hot || (day < s.today && Compacted(s.parts, day)))
  {
    if Rebuilds(f, false, s.today, StoresOf(s)) {
      RebuiltHidesNothing(f, s, t, day);
    } else {
      NothingWritten(f, s.hot, s.parts, Calendar(s.hot), s.today);
      HotAfter(f, s, t, day);
      assert t.published == s.published && t.cached == s.cached;
    }
  }

  // ---------------------------------------------------------------------------------------------
  // A run in which it happens
  // ---------------------------------------------------------------------------------------------

  lemma FullPasses(day: Day, es: seq<Event>)
    ensures FORMAT.passes(FORMAT.full(day, es), es)
  {
    var turns := Fold.TurnsOf(es);
    RowsKeepBlobs(turns);
    RefsAreBlobs(TurnsIn(Sorting.Map(Rollup.ToRow, turns)));
    RefsAreBlobs(turns);
  }

  /** The first sweep over a window of one past day. */
  lemma OneDaySwept(f: Format, s: System, day: Day)
    requires Lossless(f) && s.prune && s.hot.Keys == {day} && s.hot[day] != [] && day < s.today
    requires !Compacted(s.parts, day) && f.passes(f.full(day, s.hot[day]), s.hot[day])
    ensures var parts := s.parts[day := f.full(day, s.hot[day])];
            Outcome(f, true, false, s.today, StoresOf(s))
            == Some(Stores(s.hot - {day}, parts, PublishUpTo(s.published, Gathered(parts), INDEX_PUTS), None))
  {
    var full := f.full(day, s.hot[day]);
    OneDayCalendar(s.hot, day);
    OverlayStep(PartOf(s.parts, day), full, 0);
    assert [day][..0] == [];
    assert CompactEach(f, s.hot, s.parts, [], s.today, false) == s.parts;
    assert CompactEach(f, s.hot, s.parts, [day], s.today, false) == s.parts[day := full];
    assert PruneEach(f, s.hot, s.parts[day := full], [], s.today) == Some(s.hot);
  }

  function NoteOn(day: Day): Event {
    BLANK_EVENT.(timestamp := StartOf(day) + 1, turnID := "t")
  }

  lemma NoteIsOnItsDay(day: Day)
    ensures DayOf(NoteOn(day).timestamp) == day
  {
  }

  function Noted(s: System, ev: Event): System {
    var events := map[s.today := [ev]];
    s.(hot := s.hot + events, ever := s.ever + events, today := s.today + 1)
  }

  lemma FirstEvent(w: Window, day: Day, ev: Event)
    requires day !in w
    ensures w[day := EventsOn(w, day) + [ev]] == w + map[day := [ev]]
  {
    assert [] + [ev] == [ev];
  }

  lemma OneEventNoted(f: Format, s: System, ev: Event)
    requires DayOf(ev.timestamp) == s.today && s.job.Idle? && s.hot == map[] && s.today !in s.ever
    ensures Step(f, Step(f, s, Append(ev)), NextDay) == Noted(s, ev)
  {
    FirstEvent(s.hot, s.today, ev);
    FirstEvent(s.ever, s.today, ev);
  }

  /** One event arrives, and the day passes. */
  lemma OneEventADay(f: Format, start: System, s: System, ev: Event)
    requires DayOf(ev.timestamp) == s.today
    requires Gets(f, start, s, InTime) && s.job.Idle? && s.hot == map[] && s.today !in s.ever
    ensures Gets(f, start, Noted(s, ev), InTime)
  {
    GetsOn(f, start, s, InTime, Append(ev));
    GetsOn(f, start, Step(f, s, Append(ev)), InTime, NextDay);
    OneEventNoted(f, s, ev);
  }

  /** An archive that has swept everything before today. */
  ghost predicate AllSwept(s: System) {
    && s.prune && s.job.Idle? && s.hot == map[] && s.today !in s.ever && s.today !in s.parts
    && HasIndex(s.published) && ReadIndex(s.published).Some? && s.today !in s.published.days.value
  }

  lemma FirstDaySwept(f: Format, start: System, s: System) returns (t: System)
    requires Lossless(f) && Gets(f, start, s, InTime) && s == NewArchive(true, s.today)
    requires f.passes(f.full(s.today, [NoteOn(s.today)]), [NoteOn(s.today)])
    ensures Gets(f, start, t, InTime) && AllSwept(t) && t.today == s.today + 1
  {
    var day, u := s.today, Noted(s, NoteOn(s.today));
    NoteIsOnItsDay(day);
    OneEventADay(f, start, s, NoteOn(day));
    OneDaySwept(f, u, day);
    t := SweepIsARun(f, u, false);
    GetsOn(f, start, u, InTime, Start(false));
    GetsLed(f, start, Step(f, u, Start(false)), t, InTime);
    OneDayIndexed(f, s, t, day);
  }

  lemma OneDayIndexed(f: Format, s: System, t: System, day: Day)
    requires Lossless(f) && s == NewArchive(true, day) && t.prune && t.job.Idle? && t.today == day + 1
    requires t.ever == Noted(s, NoteOn(day)).ever
    requires var parts := map[day := f.full(day, [NoteOn(day)])];
             StoresOf(t) == Stores(Noted(s, NoteOn(day)).hot - {day}, parts,
                                   PublishUpTo(s.published, Gathered(parts), INDEX_PUTS), None)
    ensures AllSwept(t)
  {
    assert day in Gathered(t.parts).days && Gathered(t.parts).days.Keys <= {day};
  }

  lemma SecondDayLeftBehind(f: Format, start: System, s: System) returns (t: System)
    requires Lossless(f) && Gets(f, start, s, InTime) && AllSwept(s)
    requires f.passes(f.full(s.today, [NoteOn(s.today)]), [NoteOn(s.today)])
    ensures Gets(f, start, t, InTime) && LeftBehind(f, t, s.today)
  {
    var u := Noted(s, NoteOn(s.today));
    NoteIsOnItsDay(s.today);
    OneEventADay(f, start, s, NoteOn(s.today));
    var v := CrashBeforeRebuild(f, u, s.today);
    GetsOn(f, start, u, InTime, Start(false));
    GetsLed(f, start, Step(f, u, Start(false)), v, InTime);
    GetsOn(f, start, v, InTime, Crash);
    t := Step(f, v, Crash);
  }

  /** One event a day, a sweep after the first; the second sweep crashes once its partition is written. */
  lemma ADayIsLeftBehind() returns (s: System)
    ensures Gets(FORMAT, NewArchive(true, 1), s, InTime) && LeftBehind(FORMAT, s, 2)
  {
    var start := NewArchive(true, 1);
    FormatIsLossless();
    FullPasses(1, [NoteOn(1)]);
    FullPasses(2, [NoteOn(2)]);
    GetsNowhere(FORMAT, start, InTime);
    var swept := FirstDaySwept(FORMAT, start, start);
    s := SecondDayLeftBehind(FORMAT, start, swept);
  }

  /** And the sweep after that hides the day, with its event in its partition, from every query. */
  lemma ADayGetsHidden() returns (s: System)
    ensures Gets(FORMAT, NewArchive(true, 1), s, InTime) && s.job.Idle?
    ensures EventsOn(s.ever, 2) != [] && PartOf(s.parts, 2) == FORMAT.full(2, EventsOn(s.ever, 2))
    ensures KnownEmpty(LoadIndex(s.cached, s.published), s.hot.Keys, 2)
  {
    FormatIsLossless();
    var left := ADayIsLeftBehind();
    s := UnfinishedSweepHidesADay(FORMAT, left, 2);
    GetsOn(FORMAT, NewArchive(true, 1), left, InTime, Start(false));
    GetsLed(FORMAT, NewArchive(true, 1), Step(FORMAT, left, Start(false)), s, InTime);
  }

  // ---------------------------------------------------------------------------------------------
  // An index whose tables do not belong together
  // ---------------------------------------------------------------------------------------------

  lemma ReachedOn(s: System, t: System)
    requires Serving.Reached(s) && s.job.Idle? && LeadsTo(FORMAT, Step(FORMAT, s, Start(false)), t)
    ensures Serving.Reached(t)
  {
    var prune, today, actions :| Serving.ReachedBy(s, prune, today, actions);
    var start := NewArchive(prune, today);
    assert Gets(FORMAT, start, s, Calm.Undisturbed);
    GetsOn(FORMAT, start, s, Calm.Undisturbed, Start(false));
    GetsLed(FORMAT, start, Step(FORMAT, s, Start(false)), t, Calm.Undisturbed);
    var more :| GetsBy(FORMAT, start, t, Calm.Undisturbed, more);
    assert Serving.ReachedBy(t, prune, today, more);
  }

  /** A freshly gathered index is even. */
  lemma GatheredIsEven(t: System)
    requires Serving.Reached(t) && t.cached == None && ReadIndex(t.published).Some? ==>
        ReadIndex(t.published).value == Gathered(t.parts)
    requires Serving.Reached(t) && t.cached == None
    ensures Serving.Even(Serving.ViewOf(t).idx)
  {
    var idx := Serving.ViewOf(t).idx;
    if idx.Some? {
      forall d | d in idx.value.days && idx.value.days[d].sessions > 0 ensures d in idx.value.sessions {
        Serving.DayIsKnown(t, d);
        Serving.DayRowIsRight(t, d);
        Serving.RowCountsSessions(d, Serving.LedgerOf(t)(d));
      }
    }
  }

  /** A finished sweep leaves an even index if and only if it rebuilds the index, or the index was even. */
  lemma EvenAfterIff(s: System)
    requires Serving.Reached(s) && s.job.Idle? && Outcome(FORMAT, s.prune, false, s.today, StoresOf(s)).Some?
    ensures var t := Outcome(FORMAT, s.prune, false, s.today, StoresOf(s)).value;
            Serving.Even(LoadIndex(t.cached, t.published)) <==>
            Rebuilds(FORMAT, false, s.today, StoresOf(s)) || Serving.Even(LoadIndex(s.cached, s.published))
  {
    var t := SweepIsARun(FORMAT, s, false);
    if Rebuilds(FORMAT, false, s.today, StoresOf(s)) {
      ReachedOn(s, t);
      assert t.published == PublishUpTo(s.published, Gathered(t.parts), INDEX_PUTS) && t.cached == None;
      GatheredIsEven(t);
    } else {
      assert t.published == s.published && t.cached == s.cached;
    }
  }
}
