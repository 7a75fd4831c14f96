/** The sweep as it is written (CompactDay, CompactAll, RecompactAll, RebuildIndex and pruneHotWindow under
    internal/compact), and the run of single steps it amounts to when nothing interrupts it. */
module Compactor {
  import opened Archive
  import opened Events
  import opened Freezing
  import opened Lifecycle
  import opened Rollup
  import Environment
  import Fold
  import Growth
  import Sorting
  import Tables

  // ---------------------------------------------------------------------------------------------
  // What each part of a sweep leaves
  // ---------------------------------------------------------------------------------------------

  /** A day's partition after the first `puts` objects of its new version. */
  ghost function PutSome(f: Format, parts: Partitions, day: Day, es: seq<Event>, puts: nat): Partitions
    requires puts <= PUTS
  {
    if puts == 0 then parts else parts[day := Overlay(PartOf(parts, day), f.full(day, es), puts)]
  }

  ghost function CompactOne(f: Format, hot: Window, parts: Partitions, day: Day, today: Day,
          force: bool): Partitions {
    if Writes(hot, parts, day, today, force) then PutSome(f, parts, day, EventsOn(hot, day), PUTS) else parts
  }

  ghost function CompactEach(f: Format, hot: Window, parts: Partitions, days: seq<Day>, today: Day,
          force: bool): Partitions {
    if days == [] then parts
    else
      var rest := CompactEach(f, hot, parts, days[..|days| - 1], today, force);
      CompactOne(f, hot, rest, days[|days| - 1], today, force)
  }

  /** Whether any of the days was written. */
  ghost predicate Wrote(f: Format, hot: Window, parts: Partitions, days: seq<Day>, today: Day, force: bool) {
    days != [] && (
      || Wrote(f, hot, parts, days[..|days| - 1], today, force)
      || Writes(hot, CompactEach(f, hot, parts, days[..|days| - 1], today, force), days[|days| - 1], today, force))
  }

  /** A day considered for release: a past, compacted day that passes the check is dropped; one that fails
      it stops the sweep. */
  ghost function PruneOne(f: Format, hot: Window, parts: Partitions, day: Day, today: Day): Option<Window> {
    if day >= today || !Compacted(parts, day) then Some(hot)
    else if f.passes(PartOf(parts, day), EventsOn(hot, day)) then Some(hot - {day})
    else None
  }

  ghost function PruneEach(f: Format, hot: Window, parts: Partitions, days: seq<Day>, today: Day): Option<Window> {
    if days == [] then Some(hot)
    else
      var rest := PruneEach(f, hot, parts, days[..|days| - 1], today);
      if rest.None? then None else PruneOne(f, rest.value, parts, days[|days| - 1], today)
  }

  predicate Distinct(days: seq<Day>) {
    forall i, j :: 0 <= i < j < |days| ==> days[i] != days[j]
  }

  /** A sweep writes exactly the days of the list that are over, not empty, and without turns unless it is forced: as
      what their events fold into. */
  lemma {:induction false} CompactedIff(f: Format, hot: Window, parts: Partitions, days: seq<Day>, today: Day,
          force: bool, day: Day)
    requires Distinct(days)
    ensures PartOf(CompactEach(f, hot, parts, days, today, force), day)
         == if day in days && day < today && day in hot && hot[day] != []
               && (force || PartOf(parts, day).turns.None?)
            then f.full(day, hot[day]) else PartOf(parts, day)
    decreases |days|
  {
    if days != [] {
      var init, last := days[..|days| - 1], days[|days| - 1];
      assert last !in init;
      CompactedIff(f, hot, parts, init, today, force, day);
      OverlayStep(PartOf(CompactEach(f, hot, parts, init, today, force), last), f.full(last, EventsOn(hot, last)), 0);
    }
  }

  /** A release that gets through leaves out exactly the days of the list that are over and have their turns, and
      leaves every other day as it is. */
  lemma {:induction false} ReleasedIff(f: Format, hot: Window, parts: Partitions, days: seq<Day>, today: Day,
          day: Day)
    requires PruneEach(f, hot, parts, days, today).Some?
    ensures var now := PruneEach(f, hot, parts, days, today).value;
            && (day in now <==> day in hot && !(day in days && day < today && PartOf(parts, day).turns.Some?))
            && (day in now ==> now[day] == hot[day])
    decreases |days|
  {
    if days != [] {
      ReleasedIff(f, hot, parts, days[..|days| - 1], today, day);
      assert day in days <==> day in days[..|days| - 1] || day == days[|days| - 1];
    }
  }

  /** A day of the list that is over, not empty, and without turns unless they are written anew. */
  predicate Due(hot: Window, parts: Partitions, day: Day, today: Day, force: bool) {
    day < today && day in hot && hot[day] != [] && (force || PartOf(parts, day).turns.None?)
  }

  lemma {:induction false} WroteIff(f: Format, hot: Window, parts: Partitions, days: seq<Day>, today: Day, force: bool)
    requires Distinct(days)
    ensures Wrote(f, hot, parts, days, today, force) <==> exists d :: d in days && Due(hot, parts, d, today, force)
    decreases |days|
  {
    if days != [] {
      var init, last := days[..|days| - 1], days[|days| - 1];
      assert last !in init && forall d :: d in days <==> d in init || d == last;
      WroteIff(f, hot, parts, init, today, force);
      CompactedIff(f, hot, parts, init, today, force, last);
    }
  }

  /** How many of the days are due. */
  ghost function HowMany(hot: Window, parts: Partitions, days: seq<Day>, today: Day, force: bool): nat {
    |Sorting.Filter(days, d => Due(hot, parts, d, today, force))|
  }

  /** Whether the next day of a list is written depends on nothing written before it. */
  lemma OneMoreDay(f: Format, hot: Window, parts: Partitions, days: seq<Day>, n: nat, today: Day, force: bool)
    requires Distinct(days) && n < |days|
    ensures var due := Writes(hot, CompactEach(f, hot, parts, days[..n], today, force), days[n], today, force);
            HowMany(hot, parts, days[..n + 1], today, force)
              == HowMany(hot, parts, days[..n], today, force) + if due then 1 else 0
  {
    assert days[..n + 1][..n] == days[..n] && days[n] !in days[..n];
    CompactedIff(f, hot, parts, days[..n], today, force, days[n]);
  }

  lemma CalendarIs(hot: Window)
    ensures Distinct(Calendar(hot)) && forall d :: d in Calendar(hot) <==> d in hot
  {
    InOrderHolds(hot.Keys);
  }

  lemma {:induction false} OneMorePruned(f: Format, hot: Window, parts: Partitions, days: seq<Day>, i: nat, today: Day)
    requires i < |days|
    ensures PruneEach(f, hot, parts, days[..i + 1], today)
         == var rest := PruneEach(f, hot, parts, days[..i], today);
            if rest.None? then None else PruneOne(f, rest.value, parts, days[i], today)
  {
    assert days[..i + 1][..i] == days[..i];
  }

  lemma DistinctCount(days: seq<Day>, all: set<Day>)
    requires Distinct(days) && forall d :: d in days <==> d in all
    ensures |days| == |all|
    decreases |days|
  {
    if days != [] {
      var init, last := days[..|days| - 1], days[|days| - 1];
      assert last !in init && forall d :: d in days <==> d in init || d == last;
      DistinctCount(init, all - {last});
    } else {
      assert forall d :: d in all ==> d in days;
      assert all == {};
    }
  }

  lemma {:induction false} DistinctFilter(days: seq<Day>, keep: Day -> bool)
    requires Distinct(days)
    ensures Distinct(Sorting.Filter(days, keep))
  {
    if days != [] {
      var init, last := days[..|days| - 1], days[|days| - 1];
      DistinctFilter(init, keep);
      assert last !in init;
      if last in Sorting.Filter(init, keep) {
        Sorting.FilterIn(init, keep, last);
      }
    }
  }

  lemma DaysDue(hot: Window, parts: Partitions, today: Day, force: bool)
    ensures Distinct(Calendar(hot))
    ensures HowMany(hot, parts, Calendar(hot), today, force)
         == |set d | d in hot && Due(hot, parts, d, today, force)|
  {
    var due := (d: Day) => Due(hot, parts, d, today, force);
    CalendarIs(hot);
    DistinctFilter(Calendar(hot), due);
    forall d ensures d in Sorting.Filter(Calendar(hot), due) <==> d in hot && due(d) {
      Sorting.FilterIn(Calendar(hot), due, d);
    }
    DistinctCount(Sorting.Filter(Calendar(hot), due), set d | d in hot && Due(hot, parts, d, today, force));
  }

  /** Once a day fails the check, so does every longer list of days. */
  lemma {:induction false} StoppedForGood(f: Format, hot: Window, parts: Partitions, days: seq<Day>, today: Day,
          k: nat)
    requires k <= |days|
    ensures PruneEach(f, hot, parts, days[..k], today).None? ==> PruneEach(f, hot, parts, days, today).None?
    decreases |days|
  {
    if k == |days| {
      assert days[..k] == days;
    } else {
      StoppedForGood(f, hot, parts, days[..|days| - 1], today, k);
      assert days[..|days| - 1][..k] == days[..k];
    }
  }

  /** How far the writing part of a sweep got: every day before the n-th in full, and of the n-th, if it has
      to be written, some Puts. */
  ghost predicate Partway(f: Format, hot: Window, was: Partitions, now: Partitions, days: seq<Day>, today: Day,
          force: bool) {
    exists n: nat, puts: nat ::
      n < |days|
      && BrokenOff(f, hot, CompactEach(f, hot, was, days[..n], today, force), now, days[n], today, force, puts)
  }

  ghost predicate BrokenOff(f: Format, hot: Window, was: Partitions, now: Partitions, day: Day, today: Day,
          force: bool, puts: nat) {
    && puts < PUTS && (puts > 0 ==> Writes(hot, was, day, today, force))
    && now == PutSome(f, was, day, EventsOn(hot, day), puts)
  }

  /** What a sweep reads and writes. */
  datatype Stores = Stores(hot: Window, parts: Partitions, published: Published, cached: Option<Index>)

  /** Whether the index is published again. */
  ghost predicate Rebuilds(f: Format, force: bool, today: Day, s: Stores) {
    force || Wrote(f, s.hot, s.parts, Calendar(s.hot), today, force) || !HasIndex(s.published)
  }

  ghost function Indexed(f: Format, force: bool, today: Day, s: Stores): Stores {
    var parts := CompactEach(f, s.hot, s.parts, Calendar(s.hot), today, force);
    if Rebuilds(f, force, today, s)
    then Stores(s.hot, parts, PublishUpTo(s.published, Gathered(parts), INDEX_PUTS), None)
    else Stores(s.hot, parts, s.published, s.cached)
  }

  /** Where a sweep that nothing interrupts ends; none when a day fails the check. */
  ghost function Outcome(f: Format, prune: bool, force: bool, today: Day, s: Stores): Option<Stores> {
    var t := Indexed(f, force, today, s);
    if !prune then Some(t)
    else
      match PruneEach(f, t.hot, t.parts, Calendar(t.hot), today)
      case None => None
      case Some(hot) => Some(t.(hot := hot))
  }

  /** A sweep that finishes: every day that is due is written from its events, and no other; the index is published
      again when it is forced, something was written, or it was not whole; and with releases on, exactly the days that
      are over and have their turns leave the window. */
  lemma SweepIs(f: Format, prune: bool, force: bool, today: Day, s: Stores, day: Day)
    requires Outcome(f, prune, force, today, s).Some?
    ensures var t := Outcome(f, prune, force, today, s).value;
            && PartOf(t.parts, day) == (if Due(s.hot, s.parts, day, today, force) then f.full(day, s.hot[day])
                                       else PartOf(s.parts, day))
            && (day in t.hot <==> day in s.hot && !(prune && day < today && PartOf(t.parts, day).turns.Some?))
            && (day in t.hot ==> t.hot[day] == s.hot[day])
            && (if force || s.published.days.None? || s.published.sessions.None?
                   || exists d :: d in s.hot && Due(s.hot, s.parts, d, today, force)
                then t.cached == None && t.published == Published(Some(Gathered(t.parts).days),
                  Some(Gathered(t.parts).models), Some(Gathered(t.parts).tools), Some(Gathered(t.parts).projects),
                  Some(Gathered(t.parts).sessions))
                else t.published == s.published && t.cached == s.cached)
  {
    CalendarIs(s.hot);
    CompactedIff(f, s.hot, s.parts, Calendar(s.hot), today, force, day);
    WroteIff(f, s.hot, s.parts, Calendar(s.hot), today, force);
    if prune {
      ReleasedIff(f, s.hot, Indexed(f, force, today, s).parts, Calendar(s.hot), today, day);
    }
  }

  /** What a sweep that failed leaves: some of its writing done and nothing else; or all of it and some of
      the index published; or the index settled, and only days released that passed the check. */
  ghost predicate StoppedWriting(f: Format, force: bool, today: Day, s: Stores, t: Stores) {
    t == s.(parts := t.parts) && Partway(f, s.hot, s.parts, t.parts, Calendar(s.hot), today, force)
  }

  ghost predicate StoppedPublishing(f: Format, force: bool, today: Day, s: Stores, t: Stores) {
    && Rebuilds(f, force, today, s)
    && t.hot == s.hot && t.parts == CompactEach(f, s.hot, s.parts, Calendar(s.hot), today, force)
    && (|| (t.cached == s.cached && t.published == s.published)
        || (t.cached == None && PublishedSome(s.published, t.published, Gathered(t.parts))))
  }

  ghost predicate PublishedSome(was: Published, now: Published, index: Index) {
    exists placed: nat :: placed <= INDEX_PUTS && now == PublishUpTo(was, index, placed)
  }

  ghost predicate StoppedPruning(f: Format, force: bool, today: Day, s: Stores, t: Stores) {
    && t == Indexed(f, force, today, s).(hot := t.hot)
    && (exists n :: 0 <= n <= |Calendar(s.hot)|
                    && PruneEach(f, s.hot, t.parts, Calendar(s.hot)[..n], today) == Some(t.hot))
  }

  ghost predicate Stopped(f: Format, prune: bool, force: bool, today: Day, s: Stores, t: Stores) {
    || StoppedWriting(f, force, today, s, t)
    || StoppedPublishing(f, force, today, s, t)
    || (prune && StoppedPruning(f, force, today, s, t))
  }

  /** `steady` says that no read or write fails during a call. */
  class Compactor {
    const prune: bool
    var hot: Window
    var parts: Partitions
    var published: Published
    var cached: Option<Index>

    constructor (prune: bool)
      ensures this.prune == prune && hot == map[] && parts == map[]
      ensures published == NOT_PUBLISHED && cached == None
    {
      this.prune, hot, parts, published, cached := prune, map[], map[], NOT_PUBLISHED, None;
    }

    ghost function Held(): Stores
      reads this
    {
      Stores(hot, parts, published, cached)
    }

    /** The rows of a day, computed before anything is written. */
    method Freeze(day: Day, es: seq<Event>) returns (rows: Partition)
      ensures rows == FORMAT.full(day, es)
    {
      var turns := Fold.BuildTurns(es);
      var turnRows := Sorting.Map(ToRow, turns);
      var s := Summarise(day, turns);
      rows := Partition(Some(s.day), Some(s.models), Some(s.tools), Some(s.projects), Some(s.sessions), Some(turnRows));
    }

    /** The six Puts, any of which may fail; those made stay. */
    method WriteAll(day: Day, rows: Partition, steady: bool) returns (ok: bool, ghost puts: nat)
      modifies `parts
      ensures puts <= PUTS && (ok <==> puts == PUTS) && (steady ==> ok)
      ensures parts == if puts == 0 then old(parts)
                       else old(parts)[day := Overlay(PartOf(old(parts), day), rows, puts)]
    {
      ghost var was := PartOf(parts, day);
      puts := 0;
      for i := 0 to PUTS
        invariant puts == i && PartOf(parts, day) == Overlay(was, rows, i)
        invariant parts == if i == 0 then old(parts) else old(parts)[day := Overlay(was, rows, i)]
      {
        var failed := Environment.Fails(steady);
        if failed {
          return false, puts;
        }
        OverlayStep(was, rows, i);
        parts := parts[day := PutNext(PartOf(parts, day), rows, i)];
        puts := i + 1;
      }
      ok := true;
    }

    /** Nothing for today, for a day compacted already unless forced, and for an empty day; otherwise the
        window is read, the rows are computed, and then they are written. */
    method CompactDay(day: Day, today: Day, force: bool, steady: bool)
      returns (wrote: bool, ok: bool, ghost puts: nat)
      modifies `parts
      ensures puts <= PUTS && (wrote ==> ok) && (steady ==> ok)
      ensures ok ==> wrote == Writes(hot, old(parts), day, today, force)
      ensures ok ==> parts == CompactOne(FORMAT, hot, old(parts), day, today, force)
      ensures !ok ==> BrokenOff(FORMAT, hot, old(parts), parts, day, today, force, puts)
    {
      wrote, ok, puts := false, true, 0;
      if day >= today {
        return;
      }
      if Compacted(parts, day) && !force {
        return;
      }
      var failed := Environment.Fails(steady);
      if failed {
        ok := false;
        return;
      }
      var events := EventsOn(hot, day);
      if |events| == 0 {
        return;
      }
      var rows := Freeze(day, events);
      ok, puts := WriteAll(day, rows, steady);
      wrote := ok;
    }

    /** The loop shared by CompactAll and RecompactAll. */
    method CompactDays(days: seq<Day>, today: Day, force: bool, steady: bool) returns (written: nat, ok: bool)
      requires Distinct(days)
      modifies `parts
      ensures steady ==> ok
      ensures ok ==> parts == CompactEach(FORMAT, hot, old(parts), days, today, force)
      ensures ok ==> (written > 0 <==> Wrote(FORMAT, hot, old(parts), days, today, force))
      ensures ok ==> written == HowMany(hot, old(parts), days, today, force)
      ensures !ok ==> Partway(FORMAT, hot, old(parts), parts, days, today, force)
    {
      written := 0;
      for n := 0 to |days|
        invariant parts == CompactEach(FORMAT, hot, old(parts), days[..n], today, force)
        invariant written > 0 <==> Wrote(FORMAT, hot, old(parts), days[..n], today, force)
        invariant written == HowMany(hot, old(parts), days[..n], today, force)
      {
        assert days[..n + 1][..n] == days[..n];
        OneMoreDay(FORMAT, hot, old(parts), days, n, today, force);
        var wrote, done, puts := CompactDay(days[n], today, force, steady);
        if !done {
          return written, false;
        }
        if wrote {
          written := written + 1;
        }
      }
      assert days[..|days|] == days;
      ok := true;
    }

    /** Every partition's rollups, gathered in any order, since every table is keyed by day. */
    method GatherIndex() returns (idx: Index)
      ensures idx == Gathered(parts)
    {
      var left := parts.Keys;
      ghost var seen: Partitions := map[];
      idx := Index(map[], map[], map[], map[], map[]);
      while left != {}
        invariant left <= parts.Keys && seen.Keys == parts.Keys - left
        invariant forall d :: d in seen ==> seen[d] == parts[d]
        invariant idx == Gathered(seen)
        decreases |left|
      {
        ghost var some := Tables.Some(left);
        var d :| d in left;
        GatherOneMore(seen, d, parts[d]);
        idx, seen, left := GatherDay(idx, d, parts[d]), seen[d := parts[d]], left - {d};
      }
      assert seen == parts;
    }

    /** Read every partition, then five Puts; the cached copy is dropped once any of them was tried. */
    method RebuildIndex(steady: bool) returns (ok: bool, ghost placed: nat)
      modifies `published, `cached
      ensures steady ==> ok
      ensures placed <= INDEX_PUTS && published == PublishUpTo(old(published), Gathered(parts), placed)
      ensures ok ==> placed == INDEX_PUTS && cached == None
      ensures cached == None || (cached == old(cached) && published == old(published))
    {
      placed := 0;
      var failed := Environment.Fails(steady);
      if failed {
        return false, 0;
      }
      var idx := GatherIndex();
      for i := 0 to INDEX_PUTS
        invariant placed == i && published == PublishUpTo(old(published), idx, i)
      {
        failed := Environment.Fails(steady);
        if failed {
          cached := None;
          return false, placed;
        }
        PublishStep(old(published), idx, i);
        published := PublishNext(published, idx, i);
        placed := i + 1;
      }
      cached := None;
      ok := true;
    }

    method CountRefs(turns: seq<Fold.Turn>) returns (n: nat)
      ensures n == ContentRefs(turns)
    {
      n := 0;
      for i := 0 to |turns|
        invariant n == ContentRefs(turns[..i])
      {
        assert turns[..i + 1][..i] == turns[..i];
        n := n + |turns[i].contentBlobs|;
      }
      assert turns[..|turns|] == turns;
    }

    /** The check against the window, read back from the partition. */
    method Check(p: Partition, log: seq<Event>) returns (good: bool)
      requires p.turns.Some?
      ensures good == Passes(p, log)
      ensures good <==> && |p.turns.value| == |Fold.TurnsOf(log)|
                        && |Growth.Blobs(TurnsIn(p.turns.value))| == |Growth.Blobs(Fold.TurnsOf(log))|
    {
      var turns := TurnsIn(p.turns.value);
      var want := Fold.BuildTurns(log);
      RefsAreBlobs(turns);
      RefsAreBlobs(want);
      if |turns| != |want| {
        return false;
      }
      var got := CountRefs(turns);
      var due := CountRefs(want);
      good := got == due;
    }

    /** pruneDay: any read, or the drop itself, may fail. */
    method PruneDay(day: Day, today: Day, steady: bool) returns (ok: bool)
      modifies `hot
      ensures steady ==> (ok <==> PruneOne(FORMAT, old(hot), parts, day, today).Some?)
      ensures ok ==> PruneOne(FORMAT, old(hot), parts, day, today) == Some(hot)
      ensures !ok ==> hot == old(hot)
    {
      ok := true;
      if day >= today || !Compacted(parts, day) {
        return;
      }
      var failed := Environment.Fails(steady);
      if failed {
        return false;
      }
      ok := Check(PartOf(parts, day), EventsOn(hot, day));
      if ok {
        failed := Environment.Fails(steady);
        if failed {
          return false;
        }
        hot := hot - {day};
      }
    }

    method PruneHotWindow(today: Day, steady: bool) returns (ok: bool, ghost n: nat)
      modifies `hot
      ensures steady ==> (ok <==> PruneEach(FORMAT, old(hot), parts, Calendar(old(hot)), today).Some?)
      ensures n <= |Calendar(old(hot))| && (ok ==> n == |Calendar(old(hot))|)
      ensures PruneEach(FORMAT, old(hot), parts, Calendar(old(hot))[..n], today) == Some(hot)
    {
      var days := ListDays(hot.Keys);
      n := 0;
      for i := 0 to |days|
        invariant n == i && PruneEach(FORMAT, old(hot), parts, days[..i], today) == Some(hot)
      {
        OneMorePruned(FORMAT, old(hot), parts, days, i, today);
        ok := PruneDay(days[i], today, steady);
        if !ok {
          StoppedForGood(FORMAT, old(hot), parts, days, today, i + 1);
          return;
        }
        n := i + 1;
      }
      assert days[..|days|] == days;
      ok := true;
    }

    method CompactAll(today: Day, steady: bool) returns (written: nat, ok: bool)
      modifies `hot, `parts, `published, `cached
      ensures steady ==> (ok <==> Outcome(FORMAT, prune, false, today, old(Held())).Some?)
      ensures ok ==> Outcome(FORMAT, prune, false, today, old(Held())) == Some(Held())
      ensures !ok ==> Stopped(FORMAT, prune, false, today, old(Held()), Held())
      ensures ok ==> written == |set d | d in old(hot) && Due(old(hot), old(parts), d, today, false)|
    {
      var days := ListDays(hot.Keys);
      DaysDue(hot, parts, today, false);
      ghost var was := Held();
      written, ok := CompactDays(days, today, false, steady);
      if !ok {
        return;
      }
      if written > 0 || !HasIndex(published) {
        var rebuilt, placed := RebuildIndex(steady);
        if !rebuilt {
          assert PublishedSome(was.published, published, Gathered(parts));
          return written, false;
        }
      }
      assert Held() == Indexed(FORMAT, false, today, was);
      if prune {
        ghost var n;
        ok, n := PruneHotWindow(today, steady);
        assert !ok ==> StoppedPruning(FORMAT, false, today, was, Held());
        assert ok ==> Calendar(was.hot)[..n] == Calendar(was.hot);
      }
    }

    method RecompactAll(today: Day, steady: bool) returns (written: nat, ok: bool)
      modifies `hot, `parts, `published, `cached
      ensures steady ==> (ok <==> Outcome(FORMAT, prune, true, today, old(Held())).Some?)
      ensures ok ==> Outcome(FORMAT, prune, true, today, old(Held())) == Some(Held())
      ensures !ok ==> Stopped(FORMAT, prune, true, today, old(Held()), Held())
      ensures ok ==> written == |set d | d in old(hot) && Due(old(hot), old(parts), d, today, true)|
    {
      var days := ListDays(hot.Keys);
      DaysDue(hot, parts, today, true);
      ghost var was := Held();
      written, ok := CompactDays(days, today, true, steady);
      if !ok {
        return;
      }
      var rebuilt, placed := RebuildIndex(steady);
      if !rebuilt {
        assert PublishedSome(was.published, published, Gathered(parts));
        return written, false;
      }
      assert Held() == Indexed(FORMAT, true, today, was);
      if prune {
        ghost var n;
        ok, n := PruneHotWindow(today, steady);
        assert !ok ==> StoppedPruning(FORMAT, true, today, was, Held());
        assert ok ==> Calendar(was.hot)[..n] == Calendar(was.hot);
      }
    }
  }
}
