/** When a day may be skipped without touching storage (knownEmpty in internal/compact/daily.go): over
    every run, at every crash point, and exactly what pruning asks of a sweep for it to stay true. */
module Skipping {
  import opened Events
  import opened Archive
  import opened Lifecycle

  /** A sweep that has published a partition is not interrupted before the first object of the rebuilt
      index is published. */
  predicate Finishes(s: System, a: Action) {
    a.Fail? || a.Crash? ==>
      match s.job
      case Sweeping(_, _, wrote) => !wrote
      case Writing(_, _, _, _, _, _, wrote) => !wrote
      case Publishing(_, placed, wrote) => !wrote || placed > 0
      case _ => true
  }

  predicate Orderly(s: System, a: Action) {
    InTime(s, a) && Finishes(s, a)
  }

  // ---------------------------------------------------------------------------------------------
  // Without pruning
  // ---------------------------------------------------------------------------------------------

  /** The window keeps everything. */
  ghost predicate KeepsAll(s: System) {
    && !s.prune && s.hot == s.ever && !s.job.Pruning? && !s.job.Dropping?
  }

  lemma StepKeepsAll(f: Format, s: System, a: Action)
    requires KeepsAll(s) && Enabled(s, a)
    ensures InTime(s, a) && KeepsAll(Step(f, s, a))
  {
    match a {
      case Work =>
        match s.job {
          case Sweeping(_, _, _) =>
          case Writing(_, _, _, _, _, _, _) =>
          case Publishing(_, _, _) =>
          case _ =>
        }
      case _ =>
    }
  }

  lemma {:induction false} KeepsAllOverRuns(f: Format, today: Day, actions: seq<Action>)
    requires Runs(f, NewArchive(false, today), actions)
    ensures KeepsAll(After(f, NewArchive(false, today), actions))
    ensures Throughout(f, NewArchive(false, today), actions, InTime)
    decreases |actions|
  {
    if actions != [] {
      var init := actions[..|actions| - 1];
      KeepsAllOverRuns(f, today, init);
      StepKeepsAll(f, After(f, NewArchive(false, today), init), actions[|actions| - 1]);
    }
  }

  lemma EmptyDayHasNoPartition(f: Format, s: System, day: Day)
    requires DayInv(f, s, day) && EventsOn(s.ever, day) == []
    ensures PartOf(s.parts, day) == NO_PARTITION
  {
  }

  /** With pruning off a skipped day never held anything, in every reachable state. */
  lemma SkippingIsSafeWithoutPruning(f: Format, today: Day, actions: seq<Action>, day: Day)
    requires Lossless(f) && Runs(f, NewArchive(false, today), actions)
    requires var s := After(f, NewArchive(false, today), actions);
             KnownEmpty(LoadIndex(s.cached, s.published), s.hot.Keys, day)
    ensures var s := After(f, NewArchive(false, today), actions);
            EventsOn(s.ever, day) == [] && PartOf(s.parts, day) == NO_PARTITION
  {
    KeepsAllOverRuns(f, today, actions);
    InvOverRuns(f, false, today, actions);
    var s := After(f, NewArchive(false, today), actions);
    EmptyDayHasNoPartition(f, s, day);
  }

  // ---------------------------------------------------------------------------------------------
  // With pruning
  // ---------------------------------------------------------------------------------------------

  /** The index lists every compacted day. */
  predicate Lists(s: System, idx: Option<Index>) {
    idx.Some? ==> forall d :: d in s.parts && Compacted(s.parts, d) ==> d in idx.value.days
  }

  predicate ListsDropped(s: System, idx: Option<Index>) {
    idx.Some? ==> forall d :: d in s.ever && Dropped(s, d) ==> d in idx.value.days
  }

  predicate Current(s: System) {
    Lists(s, ReadIndex(s.published)) && Lists(s, s.cached)
  }

  predicate IndexInv(s: System) {
    && ListsDropped(s, ReadIndex(s.published)) && ListsDropped(s, s.cached)
    && match s.job
       case Sweeping(_, _, wrote) => wrote || Current(s)
       case Writing(_, _, _, _, _, _, wrote) => wrote || Current(s)
       case Publishing(idx, placed, wrote) =>
         && Lists(s, Some(idx))
         && (placed > 0 ==> s.published.days == Some(idx.days))
         && (placed == 0 && !wrote ==> Current(s))
       case _ => Current(s)
  }

  /** Being compacted, and being dropped, depends on no more than this. */
  lemma ListingStays(s: System, t: System, idx: Option<Index>)
    requires forall d :: d in t.parts && Compacted(t.parts, d) ==> d in s.parts && Compacted(s.parts, d)
    ensures Lists(s, idx) ==> Lists(t, idx)
  {
  }

  lemma DroppedStays(s: System, t: System, idx: Option<Index>)
    requires forall d :: d in t.ever && Dropped(t, d) ==> d in s.ever && Dropped(s, d)
    ensures ListsDropped(s, idx) ==> ListsDropped(t, idx)
  {
  }

  /** Steps that leave window, partitions and published index alone. */
  lemma QuietStep(s: System, t: System)
    requires t.hot == s.hot && t.ever == s.ever && t.parts == s.parts && t.published == s.published
    requires t.cached == s.cached || t.cached == None || t.cached == ReadIndex(s.published)
    ensures ListsDropped(s, ReadIndex(s.published)) && ListsDropped(s, s.cached)
            ==> ListsDropped(t, ReadIndex(t.published)) && ListsDropped(t, t.cached)
    ensures Current(s) ==> Current(t)
    ensures forall idx :: Lists(s, idx) ==> Lists(t, idx)
  {
    forall idx ensures Lists(s, idx) ==> Lists(t, idx) {
      ListingStays(s, t, idx);
    }
    DroppedStays(s, t, ReadIndex(s.published));
    DroppedStays(s, t, s.cached);
  }

  lemma AppendKeepsIndex(f: Format, s: System, ev: Event)
    requires IndexInv(s) && InTime(s, Append(ev))
    ensures IndexInv(Step(f, s, Append(ev)))
  {
    var t := Step(f, s, Append(ev));
    forall idx: Option<Index> ensures Lists(s, idx) ==> Lists(t, idx) {
      ListingStays(s, t, idx);
    }
    DroppedStays(s, t, ReadIndex(s.published));
    DroppedStays(s, t, s.cached);
  }

  /** A gathered index lists every compacted day, since the day's own row was written first. */
  lemma GatheredLists(f: Format, s: System)
    requires Lossless(f) && forall d :: DayInv(f, s, d)
    ensures Lists(s, Some(Gathered(s.parts)))
  {
    forall d | d in s.parts && Compacted(s.parts, d) ensures d in Gathered(s.parts).days {
      assert DayInv(f, s, d);
      FrozenIsPublished(f, d, EventsOn(s.ever, d), CutsOf(s, d));
    }
  }

  /** Only the job changes, from sweeping on: to more of the same, to publishing, or to what comes after. */
  lemma SweepingOn(s: System, job: Job)
    requires IndexInv(s) && s.job.Sweeping?
    requires match job
             case Sweeping(_, _, wrote) => wrote == s.job.wrote
             case Writing(_, _, _, _, _, _, wrote) => wrote == s.job.wrote
             case Publishing(idx, placed, wrote) => placed == 0 && wrote == s.job.wrote && Lists(s, Some(idx))
             case _ => !s.job.wrote
    ensures IndexInv(s.(job := job))
  {
    QuietStep(s, s.(job := job));
  }

  lemma SweepKeepsIndex(f: Format, s: System)
    requires Lossless(f) && (forall d :: DayInv(f, s, d)) && IndexInv(s) && s.job.Sweeping?
    ensures IndexInv(SweepOn(f, s))
  {
    var Sweeping(todo, force, wrote) := s.job;
    if todo == [] {
      GatheredLists(f, s);
      SweepingOn(s, if wrote || force || !HasIndex(s.published) then Publishing(Gathered(s.parts), 0, wrote)
        else Onward(s));
    } else if Writes(s.hot, s.parts, todo[0], s.today, force) {
      var es := EventsOn(s.hot, todo[0]);
      SweepingOn(s, Writing(todo[0], es, f.full(todo[0], es), 0, todo[1..], force, wrote));
    } else {
      SweepingOn(s, Sweeping(todo[1..], force, wrote));
    }
  }

  lemma WriteKeepsIndex(f: Format, s: System)
    requires Inv(f, s) && IndexInv(s) && s.job.Writing?
    ensures IndexInv(WriteOn(s))
  {
    var t := WriteOn(s);
    DroppedStays(s, t, ReadIndex(s.published));
    DroppedStays(s, t, s.cached);
    if s.job.done + 1 < PUTS {
      ListingStays(s, t, ReadIndex(s.published));
      ListingStays(s, t, s.cached);
    }
  }

  /** Every dropped day was compacted, so an index that lists the compacted days lists it. */
  lemma DroppedIsListed(f: Format, s: System, idx: Option<Index>)
    requires (forall d :: DayInv(f, s, d)) && Lists(s, idx)
    ensures ListsDropped(s, idx)
  {
    if idx.Some? {
      forall d | d in s.ever && Dropped(s, d) ensures d in idx.value.days {
        assert DayInv(f, s, d);
      }
    }
  }

  /** The published day table is the one being published from its first Put on. */
  lemma PublishingOn(s: System, t: System, index: Index, placed: IndexStage, wrote: bool)
    requires IndexInv(s) && s.job == Publishing(index, placed, wrote) && ListsDropped(s, Some(index))
    requires t.hot == s.hot && t.ever == s.ever && t.parts == s.parts && t.cached == s.cached
    requires placed < INDEX_PUTS && t.published == PublishNext(s.published, index, placed)
    requires t.job == Publishing(index, placed + 1, wrote)
    ensures IndexInv(t)
  {
    ListingStays(s, t, Some(index));
    DroppedStays(s, t, Some(index));
    DroppedStays(s, t, s.cached);
    DroppedStays(s, t, ReadIndex(s.published));
  }

  lemma PublishingDone(s: System, t: System, index: Index)
    requires IndexInv(s) && s.job.Publishing? && s.job.index == index && s.job.placed == INDEX_PUTS
    requires t.hot == s.hot && t.ever == s.ever && t.parts == s.parts && t.published == s.published
    requires t.cached == None && (t.job.Idle? || t.job.Pruning?)
    ensures IndexInv(t)
  {
    ListingStays(s, t, Some(index));
    DroppedStays(s, t, ReadIndex(s.published));
  }

  lemma PublishKeepsIndex(f: Format, s: System)
    requires Inv(f, s) && IndexInv(s) && s.job.Publishing?
    ensures IndexInv(PublishOn(s))
  {
    DroppedIsListed(f, s, Some(s.job.index));
    if s.job.placed < INDEX_PUTS {
      PublishingOn(s, PublishOn(s), s.job.index, s.job.placed, s.job.wrote);
    } else {
      PublishingDone(s, PublishOn(s), s.job.index);
    }
  }

  lemma DropKeepsIndex(f: Format, s: System)
    requires Inv(f, s) && IndexInv(s) && s.job.Dropping?
    ensures IndexInv(DropOn(s))
  {
    var t := DropOn(s);
    ListingStays(s, t, ReadIndex(s.published));
    ListingStays(s, t, s.cached);
    forall d | d in t.ever && Dropped(t, d) && !(d in s.ever && Dropped(s, d))
      ensures d in s.parts && Compacted(s.parts, d)
    {
    }
  }

  lemma PruneKeepsIndex(f: Format, s: System)
    requires IndexInv(s) && s.job.Pruning?
    ensures IndexInv(PruneOn(f, s))
  {
    var job := PruneOn(f, s).job;
    assert PruneOn(f, s) == s.(job := job);
    QuietStep(s, s.(job := job));
  }

  lemma WorkKeepsIndex(f: Format, s: System)
    requires Lossless(f) && Inv(f, s) && IndexInv(s) && !s.job.Idle?
    ensures IndexInv(Step(f, s, Work))
  {
    if s.job.Sweeping? {
      SweepKeepsIndex(f, s);
    } else if s.job.Writing? {
      WriteKeepsIndex(f, s);
    } else if s.job.Publishing? {
      PublishKeepsIndex(f, s);
    } else if s.job.Pruning? {
      PruneKeepsIndex(f, s);
    } else {
      DropKeepsIndex(f, s);
    }
  }

  /** A failure or a crash ends the sweep; the index is current because the sweep got far enough. */
  lemma InterruptionKeepsIndex(f: Format, s: System, a: Action)
    requires Inv(f, s) && IndexInv(s) && (a.Fail? || a.Crash?) && Finishes(s, a)
    ensures IndexInv(Step(f, s, a))
  {
    QuietStep(s, Step(f, s, a));
  }

  lemma StepKeepsIndex(f: Format, s: System, a: Action)
    requires Lossless(f) && Inv(f, s) && IndexInv(s) && Enabled(s, a) && Orderly(s, a)
    ensures IndexInv(Step(f, s, a))
  {
    match a {
      case Append(ev) => AppendKeepsIndex(f, s, ev);
      case Work => WorkKeepsIndex(f, s);
      case Fail | Crash => InterruptionKeepsIndex(f, s, a);
      case _ => QuietStep(s, Step(f, s, a));
    }
  }

  lemma {:induction false} IndexOverRuns(f: Format, prune: bool, today: Day, actions: seq<Action>)
    requires Lossless(f) && Runs(f, NewArchive(prune, today), actions)
    requires Throughout(f, NewArchive(prune, today), actions, Orderly)
    ensures Throughout(f, NewArchive(prune, today), actions, InTime)
    ensures IndexInv(After(f, NewArchive(prune, today), actions))
    decreases |actions|
  {
    if actions != [] {
      var s := NewArchive(prune, today);
      var init, last := actions[..|actions| - 1], actions[|actions| - 1];
      IndexOverRuns(f, prune, today, init);
      InvOverRuns(f, prune, today, init);
      StepKeepsIndex(f, After(f, s, init), last);
    }
  }

  /** With pruning on, too, a skipped day never held anything: in every reachable state of a run whose
      sweeps, once they have published a partition, get as far as publishing the index's day table. */
  lemma SkippingIsSafeWithPruning(f: Format, prune: bool, today: Day, actions: seq<Action>, day: Day)
    requires Lossless(f) && Runs(f, NewArchive(prune, today), actions)
    requires Throughout(f, NewArchive(prune, today), actions, Orderly)
    requires var s := After(f, NewArchive(prune, today), actions);
             KnownEmpty(LoadIndex(s.cached, s.published), s.hot.Keys, day)
    ensures var s := After(f, NewArchive(prune, today), actions);
            EventsOn(s.ever, day) == [] && PartOf(s.parts, day) == NO_PARTITION
  {
    IndexOverRuns(f, prune, today, actions);
    InvOverRuns(f, prune, today, actions);
    var s := After(f, NewArchive(prune, today), actions);
    assert DayInv(f, s, day);
    if EventsOn(s.ever, day) == [] {
      EmptyDayHasNoPartition(f, s, day);
    } else {
      assert Dropped(s, day);
    }
  }

  // ---------------------------------------------------------------------------------------------
  // Why the sweep has to finish
  // ---------------------------------------------------------------------------------------------

  /** What a crash between CompactDay and RebuildIndex leaves: a complete partition that no index lists,
      next to an index of earlier days. */
  ghost predicate LeftBehind(f: Format, s: System, day: Day) {
    && s.prune && s.job.Idle? && s.cached.None? && day < s.today
    && s.hot.Keys == {day} && s.hot[day] != [] && EventsOn(s.ever, day) == s.hot[day]
    && PartOf(s.parts, day) == f.full(day, s.hot[day]) && f.passes(PartOf(s.parts, day), s.hot[day])
    && HasIndex(s.published) && ReadIndex(s.published).Some? && day !in s.published.days.value
  }

  lemma OneDayCalendar(hot: Window, day: Day)
    requires hot.Keys == {day}
    ensures Calendar(hot) == [day]
  {
    InOrderFrom(hot.Keys, day);
    assert hot.Keys - {day} == {};
  }

  /** How it comes about: yesterday is the only day in the window, its partition is written, and the
      program stops before the index is rebuilt. */
  lemma CrashBeforeRebuild(f: Format, s: System, day: Day) returns (t: System)
    requires Lossless(f) && s.prune && s.job.Idle? && day < s.today
    requires s.hot.Keys == {day} && s.hot[day] != [] && EventsOn(s.ever, day) == s.hot[day]
    requires !Compacted(s.parts, day) && f.passes(f.full(day, s.hot[day]), s.hot[day])
    requires HasIndex(s.published) && ReadIndex(s.published).Some? && day !in s.published.days.value
    ensures LeadsTo(f, Step(f, s, Start(false)), t) && t.job == Sweeping([], false, true)
    ensures LeftBehind(f, Step(f, t, Crash), day)
  {
    OneDayCalendar(s.hot, day);
    t := DayDone(f, Step(f, s, Start(false)));
  }

  /** What comes of it: the next sweep finds nothing to write and an index that is there, so it rebuilds
      nothing, and then releases the day, whose partition passes the check; from then on every query
      passes the day over, although all its events are in the partition. */
  lemma UnfinishedSweepHidesADay(f: Format, s: System, day: Day) returns (t: System)
    requires Lossless(f) && LeftBehind(f, s, day)
    ensures LeadsTo(f, Step(f, s, Start(false)), t) && t.job.Idle?
    ensures KnownEmpty(LoadIndex(t.cached, t.published), t.hot.Keys, day)
    ensures EventsOn(t.ever, day) == s.hot[day] != [] && PartOf(t.parts, day) == f.full(day, s.hot[day])
  {
    OneDayCalendar(s.hot, day);
    var sweeping := Step(f, s, Start(false));
    var passedOver := SweepOn(f, sweeping);
    var pruning := SweepOn(f, passedOver);
    var dropping := PruneOn(f, pruning);
    var dropped := DropOn(dropping);
    t := PruneOn(f, dropped);
    assert passedOver == s.(job := Sweeping([], false, false));
    assert pruning == s.(job := Pruning([day]));
    assert dropping == s.(job := Dropping(day, []));
    StepThenStep(f, sweeping, passedOver, pruning);
    StepThenStep(f, pruning, dropping, dropped);
    LeadsOn(f, sweeping, pruning, dropped);
    OneStep(f, dropped);
    LeadsOn(f, sweeping, dropped, t);
  }

  lemma StepThenStep(f: Format, s: System, t: System, u: System)
    requires t == Step(f, s, Work) && u == Step(f, t, Work)
    ensures LeadsTo(f, s, u)
  {
    OneStep(f, s);
    OneStep(f, t);
    LeadsOn(f, s, t, u);
  }
}
