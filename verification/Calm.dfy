/** When what is stored can be trusted: over every run in which an event reaches a day only until a sweep
    takes it, whatever is interrupted, every compacted day holds all its events and no index is wrong about
    a day it knows the sessions of. */
module Calm {
  import opened Archive
  import opened Events
  import opened Lifecycle
  import opened Skipping

  /** A day is appended to only as long as no sweep has taken it; with pruning on, a sweep that has
      published a partition gets to the first object of the rebuilt index. A failure or a crash may fall
      between any two Puts of a partition. */
  predicate Undisturbed(s: System, a: Action) {
    && (a.Append? ==>
          var d := DayOf(a.ev.timestamp);
          !Compacted(s.parts, d) && !(s.job.Writing? && s.job.day == d))
    && (s.prune ==> Finishes(s, a))
  }

  // ---------------------------------------------------------------------------------------------
  // Partitions, and the indexes made from them
  // ---------------------------------------------------------------------------------------------

  /** The day's partition was begun and not finished. */
  predicate Half(s: System, day: Day) {
    CutsOf(s, day)[0] > 0 && CutsOf(s, day)[5] == 0
  }

  /** A compacted day was made from all its events; a day is written only once it is over, and from all its
      events. */
  predicate WholeDay(s: System, day: Day) {
    var log, c := EventsOn(s.ever, day), CutsOf(s, day);
    && (c[5] == 0 || c[5] == |log|)
    && (c[0] > 0 ==> day < s.today)
    && (s.job.Writing? && s.job.day == day ==> day < s.today && s.job.es == log)
  }

  /** The sweep under way still has every half-written day before it. */
  ghost predicate Redoes(s: System) {
    match s.job
    case Sweeping(todo, _, _) => forall d :: Half(s, d) ==> d in todo
    case Writing(day, _, _, _, todo, _, _) => forall d :: Half(s, d) ==> d == day || d in todo
    case _ => true
  }

  function Entry<V>(m: map<Day, V>, day: Day): Option<V> {
    if day in m then Some(m[day]) else None
  }

  /** The index's entries for a day are the partition's. */
  predicate Agrees(idx: Index, day: Day, p: Partition) {
    && Entry(idx.days, day) == DayEntry(day, p) && Entry(idx.models, day) == ModelsEntry(day, p)
    && Entry(idx.tools, day) == ToolsEntry(day, p) && Entry(idx.projects, day) == ProjectsEntry(day, p)
    && Entry(idx.sessions, day) == SessionsEntry(day, p)
  }

  /** What a table says about a day, if anything, is what a finished partition says. */
  predicate EntryRight<V(==)>(s: System, table: map<Day, V>, entry: (Day, Partition) -> Option<V>, day: Day) {
    day in table ==> CutsOf(s, day)[5] > 0 && entry(day, PartOf(s.parts, day)) == Some(table[day])
  }

  predicate DayRight(s: System, idx: Index, day: Day) {
    && EntryRight(s, idx.days, DayEntry, day) && EntryRight(s, idx.models, ModelsEntry, day)
    && EntryRight(s, idx.tools, ToolsEntry, day) && EntryRight(s, idx.projects, ProjectsEntry, day)
    && EntryRight(s, idx.sessions, SessionsEntry, day)
    && (day in idx.sessions ==> Agrees(idx, day, PartOf(s.parts, day)))
  }

  /** Tables may be of different ages, the sessions never newer than the others; none is wrong. */
  ghost predicate Right(s: System, idx: Option<Index>) {
    idx.Some? ==> forall d :: DayRight(s, idx.value, d)
  }

  /** An index gathered from the partitions as they are. */
  ghost predicate Fresh(s: System, idx: Index) {
    forall d :: DayRight(s, idx, d) && (CutsOf(s, d)[5] > 0 ==> Agrees(idx, d, PartOf(s.parts, d)))
  }

  /** The published tables, those not there yet as empty ones. */
  function AsIndex(p: Published): Index {
    Index(Rows0(p.days), Rows0(p.models), Rows0(p.tools), Rows0(p.projects), Rows0(p.sessions))
  }

  /** The tables published so far are the new ones. */
  predicate Replaced(p: Published, idx: Index, placed: IndexStage) {
    && (placed > 0 ==> p.days == Some(idx.days)) && (placed > 1 ==> p.models == Some(idx.models))
    && (placed > 2 ==> p.tools == Some(idx.tools)) && (placed > 3 ==> p.projects == Some(idx.projects))
    && (placed > 4 ==> p.sessions == Some(idx.sessions))
  }

  ghost predicate IndexRight(s: System) {
    && Right(s, s.cached) && Right(s, Some(AsIndex(s.published)))
    && (s.job.Publishing? ==> Fresh(s, s.job.index) && Replaced(s.published, s.job.index, s.job.placed))
  }

  ghost predicate CalmInv(s: System) {
    (forall d :: WholeDay(s, d)) && Redoes(s) && IndexRight(s)
  }

  // ---------------------------------------------------------------------------------------------
  // Every step keeps it
  // ---------------------------------------------------------------------------------------------

  /** Compacted is having been made from something. */
  lemma CompactedIsCut(f: Format, s: System, day: Day)
    requires Lossless(f) && DayInv(f, s, day)
    ensures Compacted(s.parts, day) <==> CutsOf(s, day)[5] > 0
  {
  }

  lemma UndisturbedIsInTime(f: Format, s: System, a: Action)
    requires Lossless(f) && Inv(f, s) && Undisturbed(s, a)
    ensures InTime(s, a)
  {
    if a.Append? {
      var d := DayOf(a.ev.timestamp);
      assert DayInv(f, s, d);
    }
  }

  /** Indexes stay right as long as finished partitions stay as they are. */
  lemma RightStays(s: System, t: System, idx: Option<Index>)
    requires Right(s, idx)
    requires forall d :: CutsOf(s, d)[5] > 0 ==> CutsOf(t, d)[5] > 0 && PartOf(t.parts, d) == PartOf(s.parts, d)
    ensures Right(t, idx)
  {
    if idx.Some? {
      forall d ensures DayRight(t, idx.value, d) {
        assert DayRight(s, idx.value, d);
      }
    }
  }

  lemma FreshStays(s: System, t: System, idx: Index)
    requires Fresh(s, idx) && t.parts == s.parts && t.cuts == s.cuts
    ensures Fresh(t, idx)
  {
    forall d ensures DayRight(t, idx, d) && (CutsOf(t, d)[5] > 0 ==> Agrees(idx, d, PartOf(t.parts, d))) {
      assert DayRight(s, idx, d);
    }
  }

  lemma ReadingIsRight(s: System)
    requires IndexRight(s)
    ensures Right(s, ReadIndex(s.published)) && Right(s, LoadIndex(s.cached, s.published))
  {
    assert ReadIndex(s.published).Some? ==> ReadIndex(s.published).value == AsIndex(s.published);
  }

  /** Steps that leave the partitions and the published index alone. */
  lemma IndexesStay(s: System, t: System)
    requires IndexRight(s) && t.parts == s.parts && t.cuts == s.cuts && t.published == s.published
    requires t.cached == s.cached || t.cached == None || t.cached == ReadIndex(s.published)
    requires t.job.Publishing? ==> Fresh(s, t.job.index) && Replaced(t.published, t.job.index, t.job.placed)
    ensures IndexRight(t)
  {
    ReadingIsRight(s);
    RightStays(s, t, t.cached);
    RightStays(s, t, Some(AsIndex(s.published)));
    if t.job.Publishing? {
      FreshStays(s, t, t.job.index);
    }
  }

  lemma AppendKeepsCalm(f: Format, s: System, ev: Event)
    requires Lossless(f) && Inv(f, s) && CalmInv(s) && Undisturbed(s, Append(ev))
    ensures CalmInv(Step(f, s, Append(ev)))
  {
    var t, day := Step(f, s, Append(ev)), DayOf(ev.timestamp);
    assert DayInv(f, s, day);
    CompactedIsCut(f, s, day);
    forall d ensures WholeDay(t, d) {
      assert WholeDay(s, d);
    }
    IndexesStay(s, t);
  }

  /** Steps that leave the days alone, and go on to no writing. */
  lemma DaysAsBefore(s: System, t: System)
    requires (forall d :: WholeDay(s, d)) && t.ever == s.ever && t.cuts == s.cuts && t.today >= s.today
    requires t.job.Writing? ==> t.job == s.job
    ensures forall d :: WholeDay(t, d)
  {
    forall d ensures WholeDay(t, d) {
      assert WholeDay(s, d);
    }
  }

  /** Every half-written day is still in the window. */
  lemma HalfIsHot(f: Format, s: System, day: Day)
    requires Lossless(f) && Inv(f, s) && Half(s, day)
    ensures day in s.hot && EventsOn(s.hot, day) == EventsOn(s.ever, day) != [] && !Compacted(s.parts, day)
  {
    assert DayInv(f, s, day);
    CompactedIsCut(f, s, day);
  }

  lemma StartKeepsCalm(f: Format, s: System, force: bool)
    requires Lossless(f) && Inv(f, s) && CalmInv(s) && s.job.Idle?
    ensures CalmInv(Step(f, s, Start(force)))
  {
    var t := Step(f, s, Start(force));
    DaysAsBefore(s, t);
    IndexesStay(s, t);
    InOrderHolds(s.hot.Keys);
    forall d | Half(t, d) ensures d in Calendar(s.hot) {
      assert Half(s, d);
      HalfIsHot(f, s, d);
    }
  }

  /** What RebuildIndex gathers is right, since no partition is half-written by then. */
  lemma GatheredIsFresh(f: Format, s: System)
    requires Lossless(f) && Inv(f, s) && (forall d :: WholeDay(s, d) && !Half(s, d))
    ensures Fresh(s, Gathered(s.parts))
  {
    forall d ensures DayRight(s, Gathered(s.parts), d)
                     && (CutsOf(s, d)[5] > 0 ==> Agrees(Gathered(s.parts), d, PartOf(s.parts, d))) {
      GatheredOn(f, s, d);
    }
  }

  lemma GatheredOn(f: Format, s: System, day: Day)
    requires Lossless(f) && DayInv(f, s, day) && !Half(s, day)
    ensures DayRight(s, Gathered(s.parts), day)
    ensures CutsOf(s, day)[5] > 0 ==> Agrees(Gathered(s.parts), day, PartOf(s.parts, day))
  {
    if CutsOf(s, day)[0] == 0 {
      assert PartOf(s.parts, day) == NO_PARTITION;
    }
  }

  /** The next day is passed over, which only a day that is not half-written can be. */
  lemma PassingOverIsCalm(f: Format, s: System)
    requires Lossless(f) && Inv(f, s) && CalmInv(s) && s.job.Sweeping? && s.job.todo != []
    requires !Writes(s.hot, s.parts, s.job.todo[0], s.today, s.job.force)
    ensures CalmInv(s.(job := Sweeping(s.job.todo[1..], s.job.force, s.job.wrote)))
  {
    var t := s.(job := Sweeping(s.job.todo[1..], s.job.force, s.job.wrote));
    DaysAsBefore(s, t);
    IndexesStay(s, t);
    forall d | Half(t, d) ensures d in t.job.todo {
      assert Half(s, d) && WholeDay(s, d);
      HalfIsHot(f, s, d);
    }
  }

  lemma TakingADayIsCalm(f: Format, s: System)
    requires Inv(f, s) && CalmInv(s) && s.job.Sweeping? && s.job.todo != []
    requires Writes(s.hot, s.parts, s.job.todo[0], s.today, s.job.force)
    ensures CalmInv(SweepOn(f, s))
  {
    var t, day := SweepOn(f, s), s.job.todo[0];
    assert DayInv(f, s, day);
    forall d ensures WholeDay(t, d) {
      assert WholeDay(s, d);
    }
    IndexesStay(s, t);
    assert forall d :: Half(t, d) ==> Half(s, d);
  }

  lemma GatheringIsCalm(f: Format, s: System)
    requires Lossless(f) && Inv(f, s) && CalmInv(s) && s.job.Sweeping? && s.job.todo == []
    ensures CalmInv(s.(job := Publishing(Gathered(s.parts), 0, s.job.wrote)))
  {
    var t := s.(job := Publishing(Gathered(s.parts), 0, s.job.wrote));
    DaysAsBefore(s, t);
    GatheredIsFresh(f, s);
    IndexesStay(s, t);
  }

  lemma SweepEndsCalm(f: Format, s: System)
    requires Lossless(f) && Inv(f, s) && CalmInv(s) && s.job.Sweeping? && s.job.todo == []
    ensures CalmInv(SweepOn(f, s))
  {
    if s.job.wrote || s.job.force || !HasIndex(s.published) {
      GatheringIsCalm(f, s);
    } else {
      OthersKeepCalm(s, s.(job := Onward(s)));
    }
  }

  lemma SweepKeepsCalm(f: Format, s: System)
    requires Lossless(f) && Inv(f, s) && CalmInv(s) && s.job.Sweeping?
    ensures CalmInv(SweepOn(f, s))
  {
    if s.job.todo == [] {
      SweepEndsCalm(f, s);
    } else if Writes(s.hot, s.parts, s.job.todo[0], s.today, s.job.force) {
      TakingADayIsCalm(f, s);
    } else {
      PassingOverIsCalm(f, s);
    }
  }

  /** Writing a finished day again writes what is there. */
  lemma RewriteIsTheSame(f: Format, s: System)
    requires Inv(f, s) && s.job.Writing? && WholeDay(s, s.job.day) && CutsOf(s, s.job.day)[5] > 0
    ensures CutsOf(WriteOn(s), s.job.day) == CutsOf(s, s.job.day)
    ensures PartOf(WriteOn(s).parts, s.job.day) == PartOf(s.parts, s.job.day)
  {
    var day := s.job.day;
    var c, log := CutsOf(s, day), EventsOn(s.ever, day);
    assert DayInv(f, s, day);
    assert c[0] == |log| && forall i :: 0 <= i < PUTS ==> c[i] == |log|;
    assert c[s.job.done := |log|] == c;
    assert log[..|log|] == log;
  }

  lemma WriteKeepsDays(f: Format, s: System)
    requires Inv(f, s) && CalmInv(s) && s.job.Writing?
    ensures (forall d :: WholeDay(WriteOn(s), d)) && Redoes(WriteOn(s))
  {
    var t, day := WriteOn(s), s.job.day;
    assert WholeDay(s, day);
    forall d ensures WholeDay(t, d) && (Half(t, d) ==> Half(s, d) || d == day) {
      assert WholeDay(s, d);
    }
  }

  lemma WriteKeepsCalm(f: Format, s: System)
    requires Inv(f, s) && CalmInv(s) && s.job.Writing?
    ensures CalmInv(WriteOn(s))
  {
    var t := WriteOn(s);
    WriteKeepsDays(f, s);
    assert WholeDay(s, s.job.day);
    if CutsOf(s, s.job.day)[5] > 0 {
      RewriteIsTheSame(f, s);
    }
    RightStays(s, t, s.cached);
    RightStays(s, t, Some(AsIndex(s.published)));
  }

  /** Two tables that are right about a day, either of which may be taken. */
  lemma EitherTable<V>(s: System, a: map<Day, V>, b: map<Day, V>, entry: (Day, Partition) -> Option<V>, day: Day,
          take: bool)
    requires EntryRight(s, a, entry, day) && EntryRight(s, b, entry, day)
    ensures EntryRight(s, if take then a else b, entry, day)
  {
  }

  function Mixed(p: Index, idx: Index, placed: nat): Index {
    Index(if placed == 0 then idx.days else p.days, if placed == 1 then idx.models else p.models,
          if placed == 2 then idx.tools else p.tools, if placed == 3 then idx.projects else p.projects, p.sessions)
  }

  lemma MixedAgrees(p: Index, idx: Index, placed: nat, day: Day, part: Partition)
    requires Agrees(p, day, part) && Agrees(idx, day, part)
    ensures Agrees(Mixed(p, idx, placed), day, part)
  {
  }

  lemma PublishNextIsMixed(p: Published, idx: Index, placed: nat)
    requires placed < INDEX_PUTS - 1
    ensures AsIndex(PublishNext(p, idx, placed)) == Mixed(AsIndex(p), idx, placed)
  {
  }

  /** One more table replaced: those before it are as new, those after it as old as the sessions. */
  lemma OneMoreTable(s: System, p: Index, idx: Index, placed: nat, day: Day)
    requires DayRight(s, p, day) && DayRight(s, idx, day)
    requires CutsOf(s, day)[5] > 0 ==> Agrees(idx, day, PartOf(s.parts, day))
    ensures DayRight(s, Mixed(p, idx, placed), day)
  {
    EitherTable(s, idx.days, p.days, DayEntry, day, placed == 0);
    EitherTable(s, idx.models, p.models, ModelsEntry, day, placed == 1);
    EitherTable(s, idx.tools, p.tools, ToolsEntry, day, placed == 2);
    EitherTable(s, idx.projects, p.projects, ProjectsEntry, day, placed == 3);
    if day in p.sessions {
      MixedAgrees(p, idx, placed, day, PartOf(s.parts, day));
    }
  }

  lemma LastTable(p: Published, idx: Index)
    requires Replaced(p, idx, INDEX_PUTS - 1)
    ensures AsIndex(PublishNext(p, idx, INDEX_PUTS - 1)) == idx
  {
  }

  lemma NextTable(s: System, day: Day)
    requires IndexRight(s) && s.job.Publishing? && s.job.placed < INDEX_PUTS
    ensures DayRight(s, AsIndex(PublishNext(s.published, s.job.index, s.job.placed)), day)
  {
    assert DayRight(s, AsIndex(s.published), day) && DayRight(s, s.job.index, day);
    if s.job.placed < INDEX_PUTS - 1 {
      PublishNextIsMixed(s.published, s.job.index, s.job.placed);
      OneMoreTable(s, AsIndex(s.published), s.job.index, s.job.placed, day);
    } else {
      LastTable(s.published, s.job.index);
    }
  }

  lemma TablePublishedIsCalm(s: System, t: System)
    requires IndexRight(s) && s.job.Publishing? && s.job.placed < INDEX_PUTS
    requires t.parts == s.parts && t.cuts == s.cuts && t.cached == s.cached
    requires t.published == PublishNext(s.published, s.job.index, s.job.placed)
    requires t.job == s.job.(placed := s.job.placed + 1)
    ensures IndexRight(t)
  {
    RightStays(s, t, s.cached);
    FreshStays(s, t, s.job.index);
    forall d ensures DayRight(t, AsIndex(t.published), d) {
      NextTable(s, d);
    }
  }

  lemma PublishKeepsCalm(s: System)
    requires CalmInv(s) && s.job.Publishing?
    ensures CalmInv(PublishOn(s))
  {
    var t := PublishOn(s);
    DaysAsBefore(s, t);
    if s.job.placed < INDEX_PUTS {
      TablePublishedIsCalm(s, t);
    } else {
      IndexesStay(s, t);
    }
  }

  /** Every other step. */
  lemma OthersKeepCalm(s: System, t: System)
    requires CalmInv(s) && t.ever == s.ever && t.parts == s.parts && t.cuts == s.cuts && t.published == s.published
    requires t.today >= s.today
    requires t.job == s.job || t.job.Idle? || t.job.Pruning? || t.job.Dropping?
    requires t.cached == s.cached || t.cached == None || t.cached == ReadIndex(s.published)
    ensures CalmInv(t)
  {
    DaysAsBefore(s, t);
    IndexesStay(s, t);
    assert forall d :: Half(t, d) ==> Half(s, d);
  }

  lemma PruneKeepsCalm(f: Format, s: System)
    requires CalmInv(s) && s.job.Pruning?
    ensures CalmInv(PruneOn(f, s))
  {
    var job := PruneOn(f, s).job;
    assert PruneOn(f, s) == s.(job := job);
    OthersKeepCalm(s, s.(job := job));
  }

  lemma WorkKeepsCalm(f: Format, s: System)
    requires Lossless(f) && Inv(f, s) && CalmInv(s) && !s.job.Idle?
    ensures CalmInv(Step(f, s, Work))
  {
    if s.job.Sweeping? {
      SweepKeepsCalm(f, s);
    } else if s.job.Writing? {
      WriteKeepsCalm(f, s);
    } else if s.job.Publishing? {
      PublishKeepsCalm(s);
    } else if s.job.Pruning? {
      PruneKeepsCalm(f, s);
    } else {
      OthersKeepCalm(s, DropOn(s));
    }
  }

  lemma StepKeepsCalm(f: Format, s: System, a: Action)
    requires Lossless(f) && Inv(f, s) && CalmInv(s) && Enabled(s, a) && Undisturbed(s, a)
    ensures CalmInv(Step(f, s, a))
  {
    match a {
      case Append(ev) => AppendKeepsCalm(f, s, ev);
      case Start(force) => StartKeepsCalm(f, s, force);
      case Work => WorkKeepsCalm(f, s);
      case _ => OthersKeepCalm(s, Step(f, s, a));
    }
  }

  lemma NewIsCalm(prune: bool, today: Day)
    ensures CalmInv(NewArchive(prune, today))
  {
    var s := NewArchive(prune, today);
    forall d ensures WholeDay(s, d) && DayRight(s, AsIndex(s.published), d) {
    }
  }

  lemma {:induction false} CalmOverRuns(f: Format, prune: bool, today: Day, actions: seq<Action>)
    requires Lossless(f) && Runs(f, NewArchive(prune, today), actions)
    requires Throughout(f, NewArchive(prune, today), actions, Undisturbed)
    ensures Throughout(f, NewArchive(prune, today), actions, InTime)
    ensures After(f, NewArchive(prune, today), actions).prune == prune
    ensures prune ==> Throughout(f, NewArchive(prune, today), actions, Orderly)
    ensures CalmInv(After(f, NewArchive(prune, today), actions))
    decreases |actions|
  {
    var s := NewArchive(prune, today);
    if actions == [] {
      NewIsCalm(prune, today);
    } else {
      var init, last := actions[..|actions| - 1], actions[|actions| - 1];
      CalmOverRuns(f, prune, today, init);
      InvOverRuns(f, prune, today, init);
      UndisturbedIsInTime(f, After(f, s, init), last);
      StepKeepsCalm(f, After(f, s, init), last);
      PruneIsFixed(f, After(f, s, init), last);
    }
  }

  lemma PruneIsFixed(f: Format, s: System, a: Action)
    ensures Step(f, s, a).prune == s.prune
  {
    if a.Work? {
      match s.job {
        case Sweeping(_, _, _) => assert SweepOn(f, s).prune == s.prune;
        case Writing(_, _, _, _, _, _, _) => assert WriteOn(s).prune == s.prune;
        case Publishing(_, _, _) => assert PublishOn(s).prune == s.prune;
        case Pruning(_) => assert PruneOn(f, s).prune == s.prune;
        case _ =>
      }
    }
  }

  // ---------------------------------------------------------------------------------------------
  // What it comes to
  // ---------------------------------------------------------------------------------------------

  lemma WholeIsFull(f: Format, s: System, day: Day)
    requires DayInv(f, s, day) && CutsOf(s, day)[5] == |EventsOn(s.ever, day)| > 0
    ensures PartOf(s.parts, day) == f.full(day, EventsOn(s.ever, day))
  {
    var log := EventsOn(s.ever, day);
    assert log[..|log|] == log;
  }

  /** At any moment, sweep under way or not, a day's turns are where they are looked for. */
  lemma CalmDay(f: Format, s: System, day: Day)
    requires Lossless(f) && Inv(f, s) && CalmInv(s)
    ensures var log := EventsOn(s.ever, day);
            if Compacted(s.parts, day) then PartOf(s.parts, day) == f.full(day, log) else EventsOn(s.hot, day) == log
  {
    assert DayInv(f, s, day) && WholeDay(s, day);
    CompactedIsCut(f, s, day);
    if Compacted(s.parts, day) {
      WholeIsFull(f, s, day);
    }
  }

  /** Any index that is loaded is right about the days it has sessions for, and knows no day that is not
      compacted. */
  lemma CalmIndex(f: Format, s: System, day: Day)
    requires Lossless(f) && Inv(f, s) && CalmInv(s)
    ensures var idx, full := LoadIndex(s.cached, s.published), f.full(day, EventsOn(s.ever, day));
            idx.Some? && day in idx.value.days ==>
              && Compacted(s.parts, day) && DayRight(s, idx.value, day) && PartOf(s.parts, day) == full
              && (day in idx.value.sessions ==> Agrees(idx.value, day, full))
  {
    ReadingIsRight(s);
    var idx := LoadIndex(s.cached, s.published);
    if idx.Some? && day in idx.value.days {
      assert DayRight(s, idx.value, day) && DayInv(f, s, day);
      CompactedIsCut(f, s, day);
      CalmDay(f, s, day);
    }
  }

  // ---------------------------------------------------------------------------------------------
  // One day, from the sweep that takes it to its release
  // ---------------------------------------------------------------------------------------------

  /** No event reaches this day once a sweep has taken it. */
  function Spares(day: Day): (System, Action) -> bool {
    (s: System, a: Action) =>
      && InTime(s, a)
      && (a.Append? && DayOf(a.ev.timestamp) == day ==>
         !Compacted(s.parts, day) && !(s.job.Writing? && s.job.day == day))
  }

  predicate AllOrNothing(s: System, day: Day) {
    var log, c := EventsOn(s.ever, day), CutsOf(s, day);
    && (c[5] == 0 || c[5] == |log|)
    && (s.job.Writing? && s.job.day == day ==> s.job.es == log)
  }

  lemma NothingTaken(s: System, t: System, day: Day)
    requires AllOrNothing(s, day) && t.ever == s.ever && t.cuts == s.cuts
    requires t.job.Writing? && t.job.day == day ==> t.job.es == EventsOn(s.ever, day)
    ensures AllOrNothing(t, day)
  {
  }

  lemma SweepSpares(f: Format, s: System, day: Day)
    requires Inv(f, s) && AllOrNothing(s, day) && s.job.Sweeping?
    ensures AllOrNothing(SweepOn(f, s), day)
  {
    if s.job.todo != [] {
      assert DayInv(f, s, s.job.todo[0]);
    }
    NothingTaken(s, SweepOn(f, s), day);
  }

  lemma WriteSpares(s: System, day: Day)
    requires AllOrNothing(s, day) && s.job.Writing?
    ensures AllOrNothing(WriteOn(s), day)
  {
  }

  lemma PruneSpares(f: Format, s: System, day: Day)
    requires AllOrNothing(s, day) && s.job.Pruning?
    ensures AllOrNothing(PruneOn(f, s), day)
  {
    NothingTaken(s, PruneOn(f, s), day);
  }

  lemma WorkSpares(f: Format, s: System, day: Day)
    requires Inv(f, s) && AllOrNothing(s, day) && !s.job.Idle?
    ensures AllOrNothing(Step(f, s, Work), day)
  {
    if s.job.Sweeping? {
      SweepSpares(f, s, day);
    } else if s.job.Writing? {
      WriteSpares(s, day);
    } else if s.job.Publishing? {
      NothingTaken(s, PublishOn(s), day);
    } else if s.job.Pruning? {
      PruneSpares(f, s, day);
    } else {
      NothingTaken(s, DropOn(s), day);
    }
  }

  lemma StepSpares(f: Format, s: System, a: Action, day: Day)
    requires Lossless(f) && Inv(f, s) && Enabled(s, a) && Spares(day)(s, a) && AllOrNothing(s, day)
    ensures AllOrNothing(Step(f, s, a), day)
  {
    if a.Work? {
      WorkSpares(f, s, day);
    } else if a.Append? {
      assert DayInv(f, s, day);
      CompactedIsCut(f, s, day);
    }
  }

  lemma {:induction false} SparedOverRuns(f: Format, prune: bool, today: Day, actions: seq<Action>, day: Day)
    requires Lossless(f) && Runs(f, NewArchive(prune, today), actions)
    requires Throughout(f, NewArchive(prune, today), actions, Spares(day))
    ensures Throughout(f, NewArchive(prune, today), actions, InTime)
    ensures AllOrNothing(After(f, NewArchive(prune, today), actions), day)
    decreases |actions|
  {
    if actions != [] {
      var s := NewArchive(prune, today);
      var init, last := actions[..|actions| - 1], actions[|actions| - 1];
      SparedOverRuns(f, prune, today, init, day);
      InvOverRuns(f, prune, today, init);
      StepSpares(f, After(f, s, init), last, day);
    }
  }

  /** What is released is the rollup of every event the day ever had, measurement by measurement, in every
      run in which no event reaches the day between the sweep that took it and its release. */
  lemma ReleasedInFull(f: Format, prune: bool, today: Day, actions: seq<Action>, day: Day)
    requires Lossless(f) && Runs(f, NewArchive(prune, today), actions)
    requires Throughout(f, NewArchive(prune, today), actions, Spares(day))
    requires Dropped(After(f, NewArchive(prune, today), actions), day)
    ensures var s := After(f, NewArchive(prune, today), actions);
            PartOf(s.parts, day) == f.full(day, EventsOn(s.ever, day))
  {
    var s := After(f, NewArchive(prune, today), actions);
    SparedOverRuns(f, prune, today, actions, day);
    InvOverRuns(f, prune, today, actions);
    assert DayInv(f, s, day);
    CompactedIsCut(f, s, day);
    WholeIsFull(f, s, day);
  }
}
