/** An uninterrupted sweep, step by step, ends exactly where the methods of the compactor do. */
module Sweeps {
  import opened Archive
  import opened Compactor
  import opened Events
  import opened Lifecycle

  function StoresOf(s: System): Stores {
    Stores(s.hot, s.parts, s.published, s.cached)
  }

  ghost predicate SameBut(s: System, t: System) {
    s.prune == t.prune && s.today == t.today && s.ever == t.ever
  }

  /** The first `k` days of the sweep are done. */
  ghost predicate SweptTo(f: Format, s: System, t: System, days: seq<Day>, force: bool, k: nat)
    requires k <= |days|
  {
    && SameBut(s, t) && t.hot == s.hot && t.published == s.published && t.cached == s.cached
    && t.parts == CompactEach(f, s.hot, s.parts, days[..k], s.today, force)
    && t.job == Sweeping(days[k..], force, Wrote(f, s.hot, s.parts, days[..k], s.today, force))
  }

  lemma SweepNext(f: Format, s: System, t: System, days: seq<Day>, force: bool, k: nat) returns (v: System)
    requires k < |days| && SweptTo(f, s, t, days, force, k)
    ensures LeadsTo(f, t, v) && SweptTo(f, s, v, days, force, k + 1)
  {
    v := DayDone(f, t);
    assert days[..k + 1][..k] == days[..k];
    assert days[k..][1..] == days[k + 1..];
  }

  lemma NothingSwept(f: Format, s: System, days: seq<Day>, force: bool)
    requires s.job == Sweeping(days, force, false)
    ensures SweptTo(f, s, s, days, force, 0)
  {
    assert days[0..] == days && days[..0] == [];
  }

  lemma SweepTo(f: Format, s: System, days: seq<Day>, force: bool, k: nat) returns (t: System)
    requires s.job == Sweeping(days, force, false) && k <= |days|
    ensures LeadsTo(f, s, t) && SweptTo(f, s, t, days, force, k)
  {
    var stage := (u: System, j: nat) => j <= |days| && SweptTo(f, s, u, days, force, j);
    NothingSwept(f, s, days, force);
    forall u, j: nat | j < k && stage(u, j) ensures exists v :: LeadsTo(f, u, v) && stage(v, j + 1) {
      var v := SweepNext(f, s, u, days, force, j);
      assert stage(v, j + 1);
    }
    t := EveryStage(f, stage, s, k);
  }

  ghost predicate PublishedTo(s: System, t: System, index: Index, wrote: bool, placed: nat)
    requires placed <= INDEX_PUTS
  {
    && SameBut(s, t) && t.hot == s.hot && t.parts == s.parts && t.cached == s.cached
    && t.published == PublishUpTo(s.published, index, placed) && t.job == Publishing(index, placed, wrote)
  }

  lemma {:induction false} PublishAll(f: Format, s: System, placed: nat)
    requires s.job.Publishing? && s.job.placed == 0 && placed <= INDEX_PUTS
    ensures PublishedTo(s, Worked(f, s, placed), s.job.index, s.job.wrote, placed)
  {
    if placed > 0 {
      PublishAll(f, s, placed - 1);
      PublishStep(s.published, s.job.index, placed - 1);
    }
  }

  lemma PublishingEnds(f: Format, s: System) returns (t: System)
    requires s.job.Publishing? && s.job.placed == 0
    ensures LeadsTo(f, s, t) && SameBut(s, t) && t.hot == s.hot && t.parts == s.parts
    ensures t.published == PublishUpTo(s.published, s.job.index, INDEX_PUTS) && t.cached == None && t.job == Onward(t)
  {
    PublishAll(f, s, INDEX_PUTS);
    var u := Worked(f, s, INDEX_PUTS);
    WorkedLeads(f, s, INDEX_PUTS);
    OneStep(f, u);
    t := PublishOn(u);
    LeadsOn(f, s, u, t);
  }

  /** From the last day swept to where pruning would begin. */
  lemma IndexStep(f: Format, s: System) returns (t: System)
    requires s.job.Sweeping? && s.job.todo == []
    ensures LeadsTo(f, s, t)
    ensures SameBut(s, t) && t.job == Onward(t) && t.hot == s.hot && t.parts == s.parts
    ensures var rebuilt := s.job.wrote || s.job.force || !HasIndex(s.published);
            && t.published == (if rebuilt then PublishUpTo(s.published, Gathered(s.parts), INDEX_PUTS) else s.published)
            && t.cached == (if rebuilt then None else s.cached)
  {
    t := SweepOn(f, s);
    OneStep(f, s);
    if t.job.Publishing? {
      var u := t;
      t := PublishingEnds(f, u);
      LeadsOn(f, s, u, t);
    }
  }

  /** The first `k` days of the window were considered for release. */
  ghost predicate PrunedTo(f: Format, s: System, t: System, days: seq<Day>, k: nat)
    requires k <= |days|
  {
    && SameBut(s, t) && t.parts == s.parts && t.published == s.published && t.cached == s.cached
    && PruneEach(f, s.hot, s.parts, days[..k], s.today) == Some(t.hot) && t.job == Pruning(days[k..])
  }

  lemma DayPruned(f: Format, s: System) returns (t: System)
    requires s.job.Pruning? && s.job.todo != []
    requires var d := s.job.todo[0];
             d < s.today && Compacted(s.parts, d) ==> f.passes(PartOf(s.parts, d), EventsOn(s.hot, d))
    ensures LeadsTo(f, s, t)
    ensures var d := s.job.todo[0];
            t == s.(hot := if d < s.today && Compacted(s.parts, d) then s.hot - {d} else s.hot,
                    job := Pruning(s.job.todo[1..]))
  {
    t := PruneOn(f, s);
    OneStep(f, s);
    if t.job.Dropping? {
      var u := t;
      OneStep(f, u);
      t := DropOn(u);
      LeadsOn(f, s, u, t);
    }
  }

  lemma PruneNext(f: Format, s: System, t: System, days: seq<Day>, k: nat) returns (u: System)
    requires k < |days| && PrunedTo(f, s, t, days, k)
    requires PruneEach(f, s.hot, s.parts, days[..k + 1], s.today).Some?
    ensures LeadsTo(f, t, u) && PrunedTo(f, s, u, days, k + 1)
  {
    assert days[..k + 1][..k] == days[..k];
    assert days[k..][1..] == days[k + 1..];
    u := DayPruned(f, t);
  }

  lemma PruneTo(f: Format, s: System, days: seq<Day>, k: nat) returns (t: System)
    requires s.job == Pruning(days) && k <= |days| && PruneEach(f, s.hot, s.parts, days[..k], s.today).Some?
    ensures LeadsTo(f, s, t) && PrunedTo(f, s, t, days, k)
  {
    var stage := (u: System, j: nat) => j <= |days| && PrunedTo(f, s, u, days, j);
    assert days[0..] == days;
    forall u, j: nat | j < k && stage(u, j) ensures exists v :: LeadsTo(f, u, v) && stage(v, j + 1) {
      assert days[..k][..j + 1] == days[..j + 1];
      StoppedForGood(f, s.hot, s.parts, days[..k], s.today, j + 1);
      var v := PruneNext(f, s, u, days, j);
      assert stage(v, j + 1);
    }
    t := EveryStage(f, stage, s, k);
  }

  /** The writing and publishing part of a sweep. */
  lemma IndexingIsARun(f: Format, s: System, force: bool) returns (t: System)
    requires s.job.Idle?
    ensures LeadsTo(f, Step(f, s, Start(force)), t)
    ensures SameBut(s, t) && t.job == Onward(t) && StoresOf(t) == Indexed(f, force, s.today, StoresOf(s))
  {
    var days := Calendar(s.hot);
    var s0 := Step(f, s, Start(force));
    var s1 := SweepTo(f, s0, days, force, |days|);
    assert days[..|days|] == days && days[|days|..] == [];
    t := IndexStep(f, s1);
    LeadsOn(f, s0, s1, t);
  }

  lemma PruningIsARun(f: Format, s: System) returns (t: System)
    requires s.job == Pruning(Calendar(s.hot)) && PruneEach(f, s.hot, s.parts, Calendar(s.hot), s.today).Some?
    ensures LeadsTo(f, s, t) && t.job.Idle? && SameBut(s, t)
    ensures t.hot == PruneEach(f, s.hot, s.parts, Calendar(s.hot), s.today).value
    ensures t.parts == s.parts && t.published == s.published && t.cached == s.cached
  {
    var days := Calendar(s.hot);
    assert days[..|days|] == days && days[|days|..] == [];
    var u := PruneTo(f, s, days, |days|);
    OneStep(f, u);
    t := PruneOn(f, u);
    LeadsOn(f, s, u, t);
  }

  /** CompactAll (and RecompactAll, when forced) is the run of single steps: from any idle state, if no
      day fails the check, starting a sweep and working on ends idle with the stores of `Outcome`. */
  lemma SweepIsARun(f: Format, s: System, force: bool) returns (t: System)
    requires s.job.Idle? && Outcome(f, s.prune, force, s.today, StoresOf(s)).Some?
    ensures LeadsTo(f, Step(f, s, Start(force)), t)
    ensures t.job.Idle? && SameBut(s, t) && StoresOf(t) == Outcome(f, s.prune, force, s.today, StoresOf(s)).value
  {
    t := IndexingIsARun(f, s, force);
    if s.prune {
      var u := PruningIsARun(f, t);
      LeadsOn(f, Step(f, s, Start(force)), t, u);
      t := u;
    }
  }

  // ---------------------------------------------------------------------------------------------
  // Sweeps that fail
  // ---------------------------------------------------------------------------------------------

  /** A sweep of `s` has got to `u`, and failing there leaves the stores `t`. */
  ghost predicate FailsAt(f: Format, s: System, force: bool, u: System, t: Stores) {
    && LeadsTo(f, Step(f, s, Start(force)), u) && SameBut(s, u)
    && Enabled(u, Fail) && StoresOf(Step(f, u, Fail)) == t
  }

  lemma FailsWriting(f: Format, s: System, force: bool, t: Stores) returns (u: System)
    requires s.job.Idle? && StoppedWriting(f, force, s.today, StoresOf(s), t)
    ensures FailsAt(f, s, force, u, t)
  {
    var days, s0 := Calendar(s.hot), Step(f, s, Start(force));
    var n: nat, puts: nat :| n < |days| &&
      BrokenOff(f, s.hot, CompactEach(f, s.hot, s.parts, days[..n], s.today, force), t.parts, days[n], s.today,
        force, puts);
    u := SweepTo(f, s0, days, force, n);
    if puts > 0 {
      var s1 := u;
      u := PutsMade(f, s1, puts);
      LeadsOn(f, s0, s1, u);
    }
  }

  /** The first Puts of the day that is next. */
  lemma PutsMade(f: Format, s: System, puts: nat) returns (u: System)
    requires s.job.Sweeping? && s.job.todo != [] && 0 < puts < PUTS
    requires Writes(s.hot, s.parts, s.job.todo[0], s.today, s.job.force)
    ensures LeadsTo(f, s, u) && SameBut(s, u) && u.job.Writing?
    ensures var day := s.job.todo[0];
            StoresOf(u) == StoresOf(s).(parts := PutSome(f, s.parts, day, EventsOn(s.hot, day), puts))
  {
    var start := SweepOn(f, s);
    OneStep(f, s);
    PutsHappen(f, start, puts);
    u := Worked(f, start, puts);
    WorkedLeads(f, start, puts);
    LeadsOn(f, s, start, u);
  }

  lemma FailsPublishing(f: Format, s: System, force: bool, t: Stores) returns (u: System)
    requires s.job.Idle? && StoppedPublishing(f, force, s.today, StoresOf(s), t)
    ensures FailsAt(f, s, force, u, t)
  {
    var days, s0 := Calendar(s.hot), Step(f, s, Start(force));
    u := SweepTo(f, s0, days, force, |days|);
    assert days[..|days|] == days && days[|days|..] == [];
    if !(t.cached == s.cached && t.published == s.published) {
      var s1 := u;
      var placed: nat :| placed <= INDEX_PUTS && t.published == PublishUpTo(s.published, Gathered(t.parts), placed);
      u := IndexPutsMade(f, s1, placed);
      LeadsOn(f, s0, s1, u);
    }
  }

  /** The first Puts of the index, once every day is swept. */
  lemma IndexPutsMade(f: Format, s: System, placed: nat) returns (u: System)
    requires s.job.Sweeping? && s.job.todo == [] && placed <= INDEX_PUTS
    requires s.job.wrote || s.job.force || !HasIndex(s.published)
    ensures LeadsTo(f, s, u) && SameBut(s, u) && u.job.Publishing?
    ensures StoresOf(u) == StoresOf(s).(published := PublishUpTo(s.published, Gathered(s.parts), placed))
  {
    var start := SweepOn(f, s);
    OneStep(f, s);
    PublishAll(f, start, placed);
    u := Worked(f, start, placed);
    WorkedLeads(f, start, placed);
    LeadsOn(f, s, start, u);
  }

  lemma FailsPruning(f: Format, s: System, force: bool, t: Stores) returns (u: System)
    requires s.job.Idle? && s.prune && StoppedPruning(f, force, s.today, StoresOf(s), t)
    ensures FailsAt(f, s, force, u, t)
  {
    var days, s0 := Calendar(s.hot), Step(f, s, Start(force));
    var n :| 0 <= n <= |days| && PruneEach(f, s.hot, t.parts, days[..n], s.today) == Some(t.hot);
    var s1 := IndexingIsARun(f, s, force);
    u := PruneTo(f, s1, days, n);
    LeadsOn(f, s0, s1, u);
  }

  /** A sweep that CompactAll or RecompactAll gives up is the same run broken off by a failure: wherever the
      methods may leave the stores, some number of single steps and then a failure leaves them. */
  lemma GivingUpIsARun(f: Format, s: System, force: bool, t: Stores) returns (u: System)
    requires s.job.Idle? && Stopped(f, s.prune, force, s.today, StoresOf(s), t)
    ensures FailsAt(f, s, force, u, t)
  {
    if StoppedWriting(f, force, s.today, StoresOf(s), t) {
      u := FailsWriting(f, s, force, t);
    } else if StoppedPublishing(f, force, s.today, StoresOf(s), t) {
      u := FailsPublishing(f, s, force, t);
    } else {
      u := FailsPruning(f, s, force, t);
    }
  }
}
