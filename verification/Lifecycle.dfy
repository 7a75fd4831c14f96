/** The life of an archive, one Put at a time: appends, sweeps that write, publish and prune, failures
    and crashes between any two steps (CompactDay, CompactAll, RecompactAll, RebuildIndex and
    pruneHotWindow under internal/compact). */
module Lifecycle {
  import opened Events
  import opened Archive

  /** What the sweep needs to know of the format: what a day's events are frozen into, when a partition
      passes the check before a drop, and what has to survive the drop. */
  datatype Format = Format(
    full: (Day, seq<Event>) -> Partition,
    passes: (Partition, seq<Event>) -> bool,
    keeps: (Partition, seq<Event>) -> bool)

  ghost predicate Lossless(f: Format) {
    && (forall day, es :: Complete(f.full(day, es)))
    && (forall day, p: Partition, es, log ::
          es <= log && p.turns == f.full(day, es).turns && f.passes(p, log) ==> f.keeps(p, log))
  }

  predicate Complete(p: Partition) {
    p.day.Some? && p.models.Some? && p.tools.Some? && p.projects.Some? && p.sessions.Some? && p.turns.Some?
  }

  /** How many of a partition's Puts a write has made; how many of the index's. */
  type Stage = n: nat | n < PUTS
  type IndexStage = n: nat | n <= INDEX_PUTS

  /** For each of the six objects, how much of the day's log it was made from; 0 when absent. */
  type Cuts = c: seq<nat> | |c| == PUTS witness [0, 0, 0, 0, 0, 0]

  const NO_CUTS: Cuts := [0, 0, 0, 0, 0, 0]

  /** Where the sweep stands. */
  datatype Job =
    | Idle
    | Sweeping(todo: seq<Day>, force: bool, wrote: bool)
    | Writing(day: Day, es: seq<Event>, rows: Partition, done: Stage, todo: seq<Day>, force: bool, wrote: bool)
    | Publishing(index: Index, placed: IndexStage, wrote: bool)
    | Pruning(todo: seq<Day>)
    | Dropping(day: Day, todo: seq<Day>)

  /** The stored state, the cached index, the sweep; and two history variables: every event ever
      appended to a day, and how much of that log each object of its partition was made from. */
  datatype System = System(
    prune: bool,
    today: Day,
    hot: Window,
    parts: Partitions,
    published: Published,
    cached: Option<Index>,
    job: Job,
    ever: Window,
    cuts: map<Day, Cuts>)

  function NewArchive(prune: bool, today: Day): System {
    System(prune, today, map[], map[], NOT_PUBLISHED, None, Idle, map[], map[])
  }

  function CutsOf(s: System, day: Day): Cuts {
    if day in s.cuts then s.cuts[day] else NO_CUTS
  }

  datatype Action = Append(ev: Event) | NextDay | Start(force: bool) | Work | Fail | Crash | Load

  predicate Enabled(s: System, a: Action) {
    match a
    case Start(_) => s.job.Idle?
    case Work | Fail => !s.job.Idle?
    case _ => true
  }

  /** Once the index is settled: prune if asked to. */
  ghost function Onward(s: System): Job {
    if s.prune then Pruning(Calendar(s.hot)) else Idle
  }

  ghost function SweepOn(f: Format, s: System): System
    requires s.job.Sweeping?
  {
    var Sweeping(todo, force, wrote) := s.job;
    if todo == [] then
      if wrote || force || !HasIndex(s.published)
      then s.(job := Publishing(Gathered(s.parts), 0, wrote))
      else s.(job := Onward(s))
    else if Writes(s.hot, s.parts, todo[0], s.today, force)
    then s.(job := Writing(todo[0], EventsOn(s.hot, todo[0]), f.full(todo[0], EventsOn(s.hot, todo[0])), 0,
                           todo[1..], force, wrote))
    else s.(job := Sweeping(todo[1..], force, wrote))
  }

  ghost function WriteOn(s: System): System
    requires s.job.Writing?
  {
    var Writing(day, es, rows, done, todo, force, wrote) := s.job;
    s.(parts := s.parts[day := PutNext(PartOf(s.parts, day), rows, done)],
       cuts := s.cuts[day := CutsOf(s, day)[done := |es|]],
       job := if done + 1 < PUTS then Writing(day, es, rows, done + 1, todo, force, wrote)
              else Sweeping(todo, force, true))
  }

  ghost function PublishOn(s: System): System
    requires s.job.Publishing?
  {
    var Publishing(index, placed, wrote) := s.job;
    if placed < INDEX_PUTS
    then s.(published := PublishNext(s.published, index, placed), job := Publishing(index, placed + 1, wrote))
    else s.(cached := None, job := Onward(s))
  }

  /** A day whose check fails ends the sweep with an error. */
  ghost function PruneOn(f: Format, s: System): System
    requires s.job.Pruning?
  {
    var todo := s.job.todo;
    if todo == [] then s.(job := Idle)
    else if todo[0] >= s.today || !Compacted(s.parts, todo[0]) then s.(job := Pruning(todo[1..]))
    else if f.passes(PartOf(s.parts, todo[0]), EventsOn(s.hot, todo[0])) then s.(job := Dropping(todo[0], todo[1..]))
    else s.(job := Idle)
  }

  ghost function DropOn(s: System): System
    requires s.job.Dropping?
  {
    s.(hot := s.hot - {s.job.day}, job := Pruning(s.job.todo))
  }

  ghost function Step(f: Format, s: System, a: Action): System
  {
    match a
    case Append(ev) =>
      var d := DayOf(ev.timestamp);
      s.(hot := s.hot[d := EventsOn(s.hot, d) + [ev]], ever := s.ever[d := EventsOn(s.ever, d) + [ev]])
    case NextDay => s.(today := s.today + 1)
    case Start(force) => s.(job := Sweeping(Calendar(s.hot), force, false))
    case Fail => s.(job := Idle, cached := if s.job.Publishing? then None else s.cached)
    case Crash => s.(job := Idle, cached := None)
    case Load => s.(cached := LoadIndex(s.cached, s.published))
    case Work =>
      match s.job
      case Idle => s
      case Sweeping(_, _, _) => SweepOn(f, s)
      case Writing(_, _, _, _, _, _, _) => WriteOn(s)
      case Publishing(_, _, _) => PublishOn(s)
      case Pruning(_) => PruneOn(f, s)
      case Dropping(_, _) => DropOn(s)
  }

  ghost predicate Runs(f: Format, s: System, actions: seq<Action>)
    decreases |actions|, 0
  {
    actions == [] || (
      && Runs(f, s, actions[..|actions| - 1])
      && Enabled(After(f, s, actions[..|actions| - 1]), actions[|actions| - 1]))
  }

  ghost function After(f: Format, s: System, actions: seq<Action>): System
    requires Runs(f, s, actions)
    decreases |actions|, 1
  {
    if actions == [] then s else Step(f, After(f, s, actions[..|actions| - 1]), actions[|actions| - 1])
  }

  /** A property of each step of a run. */
  ghost predicate Throughout(f: Format, s: System, actions: seq<Action>, allowed: (System, Action) -> bool)
    requires Runs(f, s, actions)
  {
    actions == [] || (
      && Throughout(f, s, actions[..|actions| - 1], allowed)
      && allowed(After(f, s, actions[..|actions| - 1]), actions[|actions| - 1]))
  }

  // ---------------------------------------------------------------------------------------------
  // What every object was made from
  // ---------------------------------------------------------------------------------------------

  predicate Dropped(s: System, day: Day) {
    EventsOn(s.ever, day) != [] && EventsOn(s.hot, day) == []
  }

  /** No event arrives for a day that was dropped, or between its check and its drop. */
  predicate InTime(s: System, a: Action) {
    a.Append? ==>
      var d := DayOf(a.ev.timestamp);
      EventsOn(s.hot, d) == EventsOn(s.ever, d) && !(s.job.Dropping? && s.job.day == d)
  }

  predicate CutsFit(cuts: Cuts, length: nat) {
    length >= cuts[0] >= cuts[1] >= cuts[2] >= cuts[3] >= cuts[4] >= cuts[5]
  }

  /** The partition whose objects were made from these prefixes of the log. */
  ghost function Frozen(f: Format, day: Day, log: seq<Event>, cuts: Cuts): Partition
    requires CutsFit(cuts, |log|)
  {
    Partition(
      if cuts[0] == 0 then None else f.full(day, log[..cuts[0]]).day,
      if cuts[1] == 0 then None else f.full(day, log[..cuts[1]]).models,
      if cuts[2] == 0 then None else f.full(day, log[..cuts[2]]).tools,
      if cuts[3] == 0 then None else f.full(day, log[..cuts[3]]).projects,
      if cuts[4] == 0 then None else f.full(day, log[..cuts[4]]).sessions,
      if cuts[5] == 0 then None else f.full(day, log[..cuts[5]]).turns)
  }

  ghost predicate DayInv(f: Format, s: System, day: Day) {
    var log := EventsOn(s.ever, day);
    && CutsFit(CutsOf(s, day), |log|)
    && PartOf(s.parts, day) == Frozen(f, day, log, CutsOf(s, day))
    && (day in s.hot ==> s.hot[day] != [])
    && (EventsOn(s.hot, day) == log || EventsOn(s.hot, day) == [])
    && (Dropped(s, day) ==> Compacted(s.parts, day) && f.keeps(PartOf(s.parts, day), log))
  }

  /** Days still to be pruned are in the window, each listed once. */
  predicate Prunable(hot: Window, todo: seq<Day>) {
    && (forall d :: d in todo ==> d in hot)
    && (forall i, j :: 0 <= i < j < |todo| ==> todo[i] < todo[j])
  }

  predicate JobInv(f: Format, s: System) {
    match s.job
    case Writing(day, es, rows, done, _, _, _) =>
      && rows == f.full(day, es)
      && es != [] && es <= EventsOn(s.ever, day) && EventsOn(s.hot, day) == EventsOn(s.ever, day)
      && CutsFit(CutsOf(s, day), |es|)
      && (forall i :: 0 <= i < done ==> CutsOf(s, day)[i] == |es|)
    case Pruning(todo) => Prunable(s.hot, todo)
    case Dropping(day, todo) =>
      && Prunable(s.hot, [day] + todo)
      && f.passes(PartOf(s.parts, day), EventsOn(s.hot, day)) && Compacted(s.parts, day)
      && EventsOn(s.hot, day) == EventsOn(s.ever, day)
    case _ => true
  }

  ghost predicate Inv(f: Format, s: System) {
    JobInv(f, s) && forall d :: DayInv(f, s, d)
  }

  // ---------------------------------------------------------------------------------------------
  // Every step keeps the invariant
  // ---------------------------------------------------------------------------------------------

  lemma FrozenGrows(f: Format, day: Day, log: seq<Event>, more: seq<Event>, cuts: Cuts)
    requires CutsFit(cuts, |log|) && log <= more
    ensures CutsFit(cuts, |more|) && Frozen(f, day, more, cuts) == Frozen(f, day, log, cuts)
  {
    assert forall i :: 0 <= i < PUTS ==> more[..cuts[i]] == log[..cuts[i]];
  }

  /** One Put moves one cut. */
  lemma PutFreezes(f: Format, day: Day, log: seq<Event>, es: seq<Event>, cuts: Cuts, done: Stage)
    requires CutsFit(cuts, |es|) && es <= log && es != []
    requires forall i :: 0 <= i < done ==> cuts[i] == |es|
    ensures CutsFit(cuts[done := |es|], |es|) && CutsFit(cuts, |log|)
    ensures Frozen(f, day, log, cuts[done := |es|]) == PutNext(Frozen(f, day, log, cuts), f.full(day, es), done)
  {
    assert log[..|es|] == es;
  }

  lemma AppendKeepsInv(f: Format, s: System, ev: Event)
    requires Inv(f, s) && InTime(s, Append(ev))
    ensures Inv(f, Step(f, s, Append(ev)))
  {
    var t := Step(f, s, Append(ev));
    var day := DayOf(ev.timestamp);
    forall d ensures DayInv(f, t, d) {
      assert DayInv(f, s, d);
      FrozenGrows(f, d, EventsOn(s.ever, d), EventsOn(t.ever, d), CutsOf(s, d));
    }
  }

  lemma WriteKeepsInv(f: Format, s: System)
    requires Inv(f, s) && s.job.Writing?
    ensures Inv(f, WriteOn(s))
  {
    var t := WriteOn(s);
    var day, es, done := s.job.day, s.job.es, s.job.done;
    assert DayInv(f, s, day);
    PutFreezes(f, day, EventsOn(s.ever, day), es, CutsOf(s, day), done);
    assert !Dropped(s, day);
    forall d ensures DayInv(f, t, d) {
      assert DayInv(f, s, d);
    }
  }

  /** Dropping the first of the days to be pruned leaves the others in the window. */
  lemma PrunableRest(hot: Window, day: Day, todo: seq<Day>)
    requires Prunable(hot, [day] + todo)
    ensures day in hot && Prunable(hot, todo) && Prunable(hot - {day}, todo)
  {
    var all := [day] + todo;
    assert day == all[0];
    forall i | 0 <= i < |todo| ensures todo[i] in hot && day < todo[i] {
      assert todo[i] == all[i + 1];
    }
    forall i, j | 0 <= i < j < |todo| ensures todo[i] < todo[j] {
      assert all[i + 1] < all[j + 1];
    }
  }

  lemma DropKeepsInv(f: Format, s: System)
    requires Lossless(f) && Inv(f, s) && s.job.Dropping?
    ensures Inv(f, DropOn(s))
  {
    var t, day := DropOn(s), s.job.day;
    var log, n := EventsOn(s.ever, day), CutsOf(s, day)[5];
    assert DayInv(f, s, day);
    PrunableRest(s.hot, day, s.job.todo);
    assert PartOf(s.parts, day).turns == f.full(day, log[..n]).turns;
    forall d ensures DayInv(f, t, d) {
      assert DayInv(f, s, d);
    }
  }

  /** A step that touches neither the window nor the partitions. */
  lemma DaysUntouched(f: Format, s: System, t: System)
    requires forall d :: DayInv(f, s, d)
    requires t.hot == s.hot && t.ever == s.ever && t.parts == s.parts && t.cuts == s.cuts
    ensures forall d :: DayInv(f, t, d)
  {
    forall d ensures DayInv(f, t, d) {
      assert DayInv(f, s, d);
    }
  }

  lemma OnwardIsFine(f: Format, s: System)
    requires forall d :: DayInv(f, s, d)
    ensures Inv(f, s.(job := Onward(s)))
  {
    DaysUntouched(f, s, s.(job := Onward(s)));
    InOrderHolds(s.hot.Keys);
  }

  lemma TakingADayIsFine(f: Format, s: System, day: Day, todo: seq<Day>, force: bool, wrote: bool)
    requires (forall d :: DayInv(f, s, d)) && EventsOn(s.hot, day) != []
    ensures Inv(f, s.(job :=
              Writing(day, EventsOn(s.hot, day), f.full(day, EventsOn(s.hot, day)), 0, todo, force, wrote)))
  {
    var es := EventsOn(s.hot, day);
    DaysUntouched(f, s, s.(job := Writing(day, es, f.full(day, es), 0, todo, force, wrote)));
    assert DayInv(f, s, day);
  }

  lemma SweepKeepsInv(f: Format, s: System)
    requires Inv(f, s) && s.job.Sweeping?
    ensures Inv(f, SweepOn(f, s))
  {
    var Sweeping(todo, force, wrote) := s.job;
    if todo == [] {
      if wrote || force || !HasIndex(s.published) {
        DaysUntouched(f, s, SweepOn(f, s));
      } else {
        OnwardIsFine(f, s);
      }
    } else if Writes(s.hot, s.parts, todo[0], s.today, force) {
      TakingADayIsFine(f, s, todo[0], todo[1..], force, wrote);
    } else {
      DaysUntouched(f, s, SweepOn(f, s));
    }
  }

  lemma PublishKeepsInv(f: Format, s: System)
    requires Inv(f, s) && s.job.Publishing?
    ensures Inv(f, PublishOn(s))
  {
    if s.job.placed < INDEX_PUTS {
      DaysUntouched(f, s, PublishOn(s));
    } else {
      DaysUntouched(f, s, s.(cached := None));
      OnwardIsFine(f, s.(cached := None));
    }
  }

  lemma PruneKeepsInv(f: Format, s: System)
    requires Inv(f, s) && s.job.Pruning?
    ensures Inv(f, PruneOn(f, s))
  {
    DaysUntouched(f, s, PruneOn(f, s));
    if s.job.todo != [] {
      var day := s.job.todo[0];
      assert s.job.todo == [day] + s.job.todo[1..];
      PrunableRest(s.hot, day, s.job.todo[1..]);
      assert DayInv(f, s, day);
    }
  }

  lemma WorkKeepsInv(f: Format, s: System)
    requires Lossless(f) && Inv(f, s)
    ensures Inv(f, Step(f, s, Work))
  {
    match s.job {
      case Idle =>
      case Sweeping(_, _, _) => SweepKeepsInv(f, s);
      case Writing(_, _, _, _, _, _, _) => WriteKeepsInv(f, s);
      case Publishing(_, _, _) => PublishKeepsInv(f, s);
      case Pruning(_) => PruneKeepsInv(f, s);
      case Dropping(_, _) => DropKeepsInv(f, s);
    }
  }

  lemma StepKeepsInv(f: Format, s: System, a: Action)
    requires Lossless(f) && Inv(f, s) && Enabled(s, a) && InTime(s, a)
    ensures Inv(f, Step(f, s, a))
  {
    match a {
      case Append(ev) => AppendKeepsInv(f, s, ev);
      case Work => WorkKeepsInv(f, s);
      case _ => DaysUntouched(f, s, Step(f, s, a));
    }
  }

  lemma {:induction false} InvOverRuns(f: Format, prune: bool, today: Day, actions: seq<Action>)
    requires Lossless(f) && Runs(f, NewArchive(prune, today), actions)
    requires Throughout(f, NewArchive(prune, today), actions, InTime)
    ensures Inv(f, After(f, NewArchive(prune, today), actions))
    decreases |actions|
  {
    var s := NewArchive(prune, today);
    if actions == [] {
      forall d ensures DayInv(f, s, d) {
      }
    } else {
      var init, last := actions[..|actions| - 1], actions[|actions| - 1];
      InvOverRuns(f, prune, today, init);
      StepKeepsInv(f, After(f, s, init), last);
    }
  }

  // ---------------------------------------------------------------------------------------------
  // Results about partitions
  // ---------------------------------------------------------------------------------------------

  /** All six objects are there; the turns were made from the first `n` events of the day's log; and if
      that is all of it, every object is the rollup of exactly those turns. */
  ghost predicate FullyPublished(f: Format, p: Partition, day: Day, log: seq<Event>, n: nat) {
    && Complete(p) && 0 < n <= |log|
    && p.turns == f.full(day, log[..n]).turns
    && (n == |log| ==> p == f.full(day, log))
  }

  lemma FrozenIsPublished(f: Format, day: Day, log: seq<Event>, cuts: Cuts)
    requires Lossless(f) && CutsFit(cuts, |log|) && Frozen(f, day, log, cuts).turns.Some?
    ensures FullyPublished(f, Frozen(f, day, log, cuts), day, log, cuts[5])
  {
    if cuts[5] == |log| {
      assert log[..|log|] == log;
    }
  }

  /** Publication by ordering: in every reachable state the last object stands for all six. */
  lemma PublicationByOrdering(f: Format, prune: bool, today: Day, actions: seq<Action>, day: Day) returns (n: nat)
    requires Lossless(f) && Runs(f, NewArchive(prune, today), actions)
    requires Throughout(f, NewArchive(prune, today), actions, InTime)
    requires Compacted(After(f, NewArchive(prune, today), actions).parts, day)
    ensures var s := After(f, NewArchive(prune, today), actions);
            FullyPublished(f, PartOf(s.parts, day), day, EventsOn(s.ever, day), n)
  {
    var s := After(f, NewArchive(prune, today), actions);
    InvOverRuns(f, prune, today, actions);
    assert DayInv(f, s, day);
    n := CutsOf(s, day)[5];
    FrozenIsPublished(f, day, EventsOn(s.ever, day), CutsOf(s, day));
  }

  /** Prune loses nothing: whatever was ever appended to a day is still in the window, or the partition
      has passed the check against all of it. */
  lemma PruneLosesNothing(f: Format, prune: bool, today: Day, actions: seq<Action>, day: Day)
    requires Lossless(f) && Runs(f, NewArchive(prune, today), actions)
    requires Throughout(f, NewArchive(prune, today), actions, InTime)
    ensures var s := After(f, NewArchive(prune, today), actions);
            || EventsOn(s.hot, day) == EventsOn(s.ever, day)
            || (Compacted(s.parts, day) && f.keeps(PartOf(s.parts, day), EventsOn(s.ever, day)))
  {
    InvOverRuns(f, prune, today, actions);
    assert DayInv(f, After(f, NewArchive(prune, today), actions), day);
  }

  // ---------------------------------------------------------------------------------------------
  // Repair
  // ---------------------------------------------------------------------------------------------

  ghost function Worked(f: Format, s: System, n: nat): System
    decreases n
  {
    if n == 0 then s else Step(f, Worked(f, s, n - 1), Work)
  }

  lemma {:induction false} WorkedOn(f: Format, s: System, m: nat, n: nat)
    ensures Worked(f, Worked(f, s, m), n) == Worked(f, s, m + n)
    decreases n
  {
    if n > 0 {
      WorkedOn(f, s, m, n - 1);
    }
  }

  /** Working on from one state gets to the other. */
  ghost predicate LeadsTo(f: Format, s: System, t: System) {
    exists n: nat :: Worked(f, s, n) == t
  }

  lemma LeadsOn(f: Format, s: System, t: System, u: System)
    requires LeadsTo(f, s, t) && LeadsTo(f, t, u)
    ensures LeadsTo(f, s, u)
  {
    var m: nat :| Worked(f, s, m) == t;
    var n: nat :| Worked(f, t, n) == u;
    WorkedOn(f, s, m, n);
  }

  lemma WorkedLeads(f: Format, s: System, n: nat)
    ensures LeadsTo(f, s, Worked(f, s, n))
  {
  }

  lemma OneStep(f: Format, s: System)
    ensures LeadsTo(f, s, Step(f, s, Work))
  {
    assert Worked(f, s, 0) == s;
    WorkedLeads(f, s, 1);
  }

  /** A run of allowed actions gets from one state to the other. */
  ghost predicate GetsBy(f: Format, s: System, t: System, allowed: (System, Action) -> bool, actions: seq<Action>) {
    Runs(f, s, actions) && Throughout(f, s, actions, allowed) && After(f, s, actions) == t
  }

  ghost predicate Gets(f: Format, s: System, t: System, allowed: (System, Action) -> bool) {
    exists actions :: GetsBy(f, s, t, allowed, actions)
  }

  lemma GetsNowhere(f: Format, s: System, allowed: (System, Action) -> bool)
    ensures Gets(f, s, s, allowed)
  {
    assert GetsBy(f, s, s, allowed, []);
  }

  lemma GetsOn(f: Format, s: System, t: System, allowed: (System, Action) -> bool, a: Action)
    requires Gets(f, s, t, allowed) && Enabled(t, a) && allowed(t, a)
    ensures Gets(f, s, Step(f, t, a), allowed)
  {
    var actions :| GetsBy(f, s, t, allowed, actions);
    assert (actions + [a])[..|actions|] == actions;
    assert GetsBy(f, s, Step(f, t, a), allowed, actions + [a]);
  }

  lemma {:induction false} GetsWorking(f: Format, s: System, t: System, allowed: (System, Action) -> bool, n: nat)
    requires Gets(f, s, t, allowed) && forall u :: allowed(u, Work)
    ensures Gets(f, s, Worked(f, t, n), allowed)
  {
    if n > 0 {
      var u := Worked(f, t, n - 1);
      GetsWorking(f, s, t, allowed, n - 1);
      if !u.job.Idle? {
        GetsOn(f, s, u, allowed, Work);
      }
    }
  }

  lemma GetsLed(f: Format, s: System, t: System, u: System, allowed: (System, Action) -> bool)
    requires Gets(f, s, t, allowed) && LeadsTo(f, t, u) && forall u :: allowed(u, Work)
    ensures Gets(f, s, u, allowed)
  {
    var n: nat :| Worked(f, t, n) == u;
    GetsWorking(f, s, t, allowed, n);
  }

  /** From each stage the next is reached, so every stage is. */
  lemma {:induction false} StageByStage(leads: (System, System) -> bool, stage: (System, nat) -> bool, s: System,
          k: nat)
    returns (t: System)
    requires leads(s, s) && forall a, b, c :: leads(a, b) && leads(b, c) ==> leads(a, c)
    requires stage(s, 0)
    requires forall u, j: nat :: j < k && stage(u, j) ==> exists v :: leads(u, v) && stage(v, j + 1)
    ensures leads(s, t) && stage(t, k)
    decreases k
  {
    if k == 0 {
      t := s;
    } else {
      var u := StageByStage(leads, stage, s, k - 1);
      t :| leads(u, t) && stage(t, k - 1 + 1);
    }
  }

  lemma EveryStage(f: Format, stage: (System, nat) -> bool, s: System, k: nat) returns (t: System)
    requires stage(s, 0)
    requires forall u, j: nat :: j < k && stage(u, j) ==> exists v :: LeadsTo(f, u, v) && stage(v, j + 1)
    ensures LeadsTo(f, s, t) && stage(t, k)
  {
    var leads := (a, b) => LeadsTo(f, a, b);
    WorkedLeads(f, s, 0);
    forall a, b, c | leads(a, b) && leads(b, c) ensures leads(a, c) {
      LeadsOn(f, a, b, c);
    }
    forall u, j: nat | j < k && stage(u, j) ensures exists v :: leads(u, v) && stage(v, j + 1) {
      var v :| LeadsTo(f, u, v) && stage(v, j + 1);
      assert leads(u, v);
    }
    t := StageByStage(leads, stage, s, k);
  }

  /** A write that started from these partitions, after `done` of its Puts. */
  ghost predicate HalfWritten(s: System, start: System, done: nat)
    requires start.job.Writing? && done <= PUTS
  {
    var Writing(day, es, rows, _, todo, force, wrote) := start.job;
    && s.hot == start.hot && s.today == start.today && s.prune == start.prune && s.ever == start.ever
    && s.published == start.published && s.cached == start.cached
    && (done > 0 ==> s.parts == start.parts[day := Overlay(PartOf(start.parts, day), rows, done)])
    && (done == 0 ==> s.parts == start.parts)
    && s.job == if done < PUTS then Writing(day, es, rows, done, todo, force, wrote) else Sweeping(todo, force, true)
  }

  lemma OneMorePut(f: Format, s: System, start: System, done: nat)
    requires start.job.Writing? && done < PUTS && HalfWritten(s, start, done)
    ensures HalfWritten(WriteOn(s), start, done + 1)
  {
    OverlayStep(PartOf(start.parts, start.job.day), start.job.rows, done);
  }

  lemma {:induction false} PutsHappen(f: Format, start: System, done: nat)
    requires start.job.Writing? && start.job.done == 0 && done <= PUTS
    ensures HalfWritten(Worked(f, start, done), start, done)
    decreases done
  {
    if done > 0 {
      PutsHappen(f, start, done - 1);
      OneMorePut(f, Worked(f, start, done - 1), start, done - 1);
    }
  }

  /** What a sweep without force leaves: days it wrote, and days it had no reason to. */
  ghost predicate Swept(f: Format, s: System, t: System, todo: seq<Day>) {
    && t.hot == s.hot && t.today == s.today
    && (forall d :: d in todo && d < s.today && EventsOn(s.hot, d) != [] ==> Compacted(t.parts, d))
    && (forall d :: SweptDay(f, s, t, d))
  }

  ghost predicate SweptDay(f: Format, s: System, t: System, d: Day) {
    if Compacted(s.parts, d) then PartOf(t.parts, d) == PartOf(s.parts, d)
    else PartOf(t.parts, d) == PartOf(s.parts, d) || PartOf(t.parts, d) == f.full(d, EventsOn(s.hot, d))
  }

  /** The next day is passed over at once, or written in full. */
  lemma DayDone(f: Format, s: System) returns (t: System)
    requires s.job.Sweeping? && s.job.todo != []
    ensures LeadsTo(f, s, t)
    ensures var day := s.job.todo[0];
            if Writes(s.hot, s.parts, day, s.today, s.job.force)
            then t == s.(parts := s.parts[day := f.full(day, EventsOn(s.hot, day))], cuts := t.cuts,
                         job := Sweeping(s.job.todo[1..], s.job.force, true))
            else t == s.(job := Sweeping(s.job.todo[1..], s.job.force, s.job.wrote))
  {
    var day := s.job.todo[0];
    t := SweepOn(f, s);
    OneStep(f, s);
    if t.job.Writing? {
      var u := t;
      PutsHappen(f, u, PUTS);
      OverlayStep(PartOf(s.parts, day), u.job.rows, 0);
      t := Worked(f, u, PUTS);
      WorkedLeads(f, u, PUTS);
      LeadsOn(f, s, u, t);
    }
  }

  lemma PassedOverIsSwept(f: Format, s: System, t: System, day: Day)
    requires t.hot == s.hot && t.today == s.today && t.parts == s.parts
    requires day < s.today && EventsOn(s.hot, day) != [] ==> Compacted(s.parts, day)
    ensures Swept(f, s, t, [day])
  {
    forall d ensures SweptDay(f, s, t, d) {
    }
  }

  lemma WrittenIsSwept(f: Format, s: System, t: System, day: Day)
    requires Lossless(f) && t.hot == s.hot && t.today == s.today
    requires !Compacted(s.parts, day) && t.parts == s.parts[day := f.full(day, EventsOn(s.hot, day))]
    ensures Swept(f, s, t, [day])
  {
    forall d ensures SweptDay(f, s, t, d) {
    }
  }

  lemma SweptThenSwept(f: Format, s: System, t: System, u: System, todo: seq<Day>, day: Day)
    requires Lossless(f) && Swept(f, s, t, todo) && Swept(f, t, u, [day])
    ensures Swept(f, s, u, todo + [day])
  {
    forall d ensures SweptDay(f, s, u, d) {
      assert SweptDay(f, s, t, d) && SweptDay(f, t, u, d);
    }
    forall d | d in todo + [day] && d < s.today && EventsOn(s.hot, d) != [] ensures Compacted(u.parts, d) {
      assert SweptDay(f, t, u, d);
      assert d in todo || d in [day];
    }
  }

  /** `done` days of the calendar are swept, and the rest is still to do. */
  ghost predicate SweptSoFar(f: Format, s: System, t: System, done: nat)
    requires s.job.Sweeping?
  {
    && done <= |s.job.todo| && Swept(f, s, t, s.job.todo[..done])
    && t.job.Sweeping? && !t.job.force && t.job.todo == s.job.todo[done..]
  }

  lemma NothingSwept(f: Format, s: System)
    requires s.job.Sweeping? && !s.job.force
    ensures SweptSoFar(f, s, s, 0)
  {
    forall d ensures SweptDay(f, s, s, d) {
    }
  }

  lemma SweepOneDay(f: Format, s: System, t: System, done: nat) returns (u: System)
    requires Lossless(f) && s.job.Sweeping? && done < |s.job.todo| && SweptSoFar(f, s, t, done)
    ensures LeadsTo(f, t, u) && SweptSoFar(f, s, u, done + 1)
  {
    var day := s.job.todo[done];
    u := DayDone(f, t);
    if Writes(t.hot, t.parts, day, t.today, false) {
      WrittenIsSwept(f, t, u, day);
    } else {
      PassedOverIsSwept(f, t, u, day);
    }
    SweptThenSwept(f, s, t, u, s.job.todo[..done], day);
    assert s.job.todo[..done] + [day] == s.job.todo[..done + 1];
  }

  lemma SweepFinishes(f: Format, s: System) returns (t: System)
    requires Lossless(f) && s.job.Sweeping? && !s.job.force
    ensures LeadsTo(f, s, t) && t.job.Sweeping? && t.job.todo == [] && Swept(f, s, t, s.job.todo)
  {
    var n := |s.job.todo|;
    var stage := (u: System, j: nat) => SweptSoFar(f, s, u, j);
    NothingSwept(f, s);
    assert s.job.todo[..0] == [] && s.job.todo[..n] == s.job.todo;
    forall u, j: nat | j < n && stage(u, j) ensures exists v :: LeadsTo(f, u, v) && stage(v, j + 1) {
      var v := SweepOneDay(f, s, u, j);
      assert stage(v, j + 1);
    }
    t := EveryStage(f, stage, s, n);
  }

  /** From any idle state, a sweep that is not interrupted repairs every half-written day still in the
      window: each past day has a complete partition, and one that had no turns is now the rollup of
      what the window holds. */
  lemma SweepRepairs(f: Format, s: System) returns (t: System)
    requires Lossless(f) && Inv(f, s) && s.job.Idle?
    ensures LeadsTo(f, Step(f, s, Start(false)), t)
    ensures && t.job.Sweeping? && t.job.todo == [] && t.hot == s.hot
            && forall d :: EventsOn(s.hot, d) != [] && d < s.today ==>
                 Complete(PartOf(t.parts, d))
                 && (!Compacted(s.parts, d) ==> PartOf(t.parts, d) == f.full(d, EventsOn(s.hot, d)))
  {
    var u := Step(f, s, Start(false));
    t := SweepFinishes(f, u);
    InOrderHolds(s.hot.Keys);
    forall d | EventsOn(s.hot, d) != [] && d < s.today
      ensures Complete(PartOf(t.parts, d))
          && (!Compacted(s.parts, d) ==> PartOf(t.parts, d) == f.full(d, EventsOn(s.hot, d)))
    {
      assert d in u.job.todo;
      assert SweptDay(f, u, t, d) && DayInv(f, s, d);
    }
  }
}
