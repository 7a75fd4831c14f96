/** AggregateRange (internal/compact/source.go): each day from the cheapest copy that can answer, and the
    result the same as counting every turn of the window. */
module Windows {
  import opened Aggregates
  import opened Archive
  import opened Events
  import opened Fold
  import opened Reading
  import opened Rollup
  import Sorting

  function IDs(turns: seq<Turn>): set<string> {
    set t | t in turns :: t.SessionID()
  }

  lemma IDsConcat(a: seq<Turn>, b: seq<Turn>)
    ensures IDs(a + b) == IDs(a) + IDs(b)
  {
    assert forall t :: t in a + b <==> t in a || t in b;
  }

  lemma CountAddsSession(day: Day, turns: seq<Turn>)
    requires turns != []
    ensures CountAll(day, turns).sessions.Keys
         == CountAll(day, turns[..|turns| - 1]).sessions.Keys + {turns[|turns| - 1].SessionID()}
  {
  }

  lemma IDsSnoc(turns: seq<Turn>)
    requires turns != []
    ensures IDs(turns) == IDs(turns[..|turns| - 1]) + {turns[|turns| - 1].SessionID()}
  {
    var init, last := turns[..|turns| - 1], turns[|turns| - 1];
    assert turns == init + [last];
    IDsConcat(init, [last]);
    assert IDs([last]) == {last.SessionID()};
  }

  /** A day's rollup knows the day's sessions. */
  lemma {:induction false} SessionsCounted(day: Day, turns: seq<Turn>)
    ensures CountAll(day, turns).sessions.Keys == IDs(turns)
    decreases |turns|
  {
    if turns != [] {
      SessionsCounted(day, turns[..|turns| - 1]);
      CountAddsSession(day, turns);
      IDsSnoc(turns);
    }
  }

  // ---------------------------------------------------------------------------------------------
  // The aggregate under construction
  // ---------------------------------------------------------------------------------------------

  /** Totals, sessions counted from rollups, sessions seen in turns, and whether no rollup was used. */
  datatype Progress = Progress(agg: Agg, counted: nat, seen: set<string>, exact: bool)

  /** Where counting some turns may take it: their sessions are counted once by a rollup, or seen. */
  ghost predicate Took(was: Progress, now: Progress, turns: seq<Turn>) {
    && now.agg == AddAll(was.agg, turns)
    && (|| (now.counted == was.counted && now.seen == was.seen + IDs(turns) && now.exact == was.exact)
        || (now.counted == was.counted + |IDs(turns)| && now.seen == was.seen && !now.exact))
  }

  method AddRows(agg: Agg, day: DayRow, models: seq<ModelRow>, tools: seq<ToolRow>, projects: seq<ProjectRow>)
    returns (now: Agg)
    ensures now == AddRollup(agg, day, models, tools, projects)
  {
    var byModel, toolCalls, byProject := agg.byModel, agg.toolCalls, agg.byProject;
    for i := 0 to |models|
      invariant byModel == AddModelRows(agg.byModel, models[..i])
    {
      assert models[..i + 1][..i] == models[..i];
      var m := models[i];
      byModel := byModel[m.model := (if m.model in byModel then byModel[m.model] else 0) + m.turns];
    }
    for i := 0 to |tools|
      invariant toolCalls == AddToolRows(agg.toolCalls, tools[..i])
    {
      assert tools[..i + 1][..i] == tools[..i];
      var t := tools[i];
      toolCalls := toolCalls[t.tool := (if t.tool in toolCalls then toolCalls[t.tool] else 0) + t.calls];
    }
    for i := 0 to |projects|
      invariant byProject == AddProjectRows(agg.byProject, projects[..i])
    {
      assert projects[..i + 1][..i] == projects[..i];
      byProject := AddProject(byProject, projects[i].share);
    }
    assert models[..|models|] == models && tools[..|tools|] == tools && projects[..|projects|] == projects;
    now := Agg(PlusTotals(agg.totals, TotalsOfSums(day.sums)), byModel, toolCalls, byProject);
  }

  /** index.add and aggregateFromRollup, each reporting whether it had the day. */
  method AddIndexed(idx: Option<Index>, day: Day, was: Progress) returns (used: bool, now: Progress)
    ensures used <==> idx.Some? && day in idx.value.days
    ensures !used ==> now == was
    ensures used ==> now == Progress(
      AddRollup(was.agg, idx.value.days[day], Table(idx.value.models, day), Table(idx.value.tools, day),
                Table(idx.value.projects, day)),
      was.counted + idx.value.days[day].sessions, was.seen, false)
  {
    used, now := idx.Some? && day in idx.value.days, was;
    if used {
      var row := idx.value.days[day];
      var agg := AddRows(was.agg, row, Table(idx.value.models, day), Table(idx.value.tools, day),
          Table(idx.value.projects, day));
      now := Progress(agg, was.counted + row.sessions, was.seen, false);
    }
  }

  function Rowless<V>(rows: Option<seq<V>>): seq<V> {
    if rows.Some? then rows.value else []
  }

  method AddPartition(p: Partition, was: Progress) returns (used: bool, now: Progress)
    ensures used <==> p.day.Some?
    ensures !used ==> now == was
    ensures used ==> now == Progress(
      AddRollup(was.agg, p.day.value, Rowless(p.models), Rowless(p.tools), Rowless(p.projects)),
      was.counted + p.day.value.sessions, was.seen, false)
  {
    used, now := p.day.Some?, was;
    if used {
      var agg := AddRows(was.agg, p.day.value, Rowless(p.models), Rowless(p.tools), Rowless(p.projects));
      now := Progress(agg, was.counted + p.day.value.sessions, was.seen, false);
    }
  }

  lemma RollupTakes(was: Progress, day: Day, turns: seq<Turn>)
    requires forall t :: t in turns ==> Plain(t)
    ensures SummaryOf(day, turns).day.sessions == |IDs(turns)|
    ensures var s := SummaryOf(day, turns);
            Took(was, Progress(AddRollup(was.agg, s.day, s.models, s.tools, s.projects),
                               was.counted + s.day.sessions, was.seen, false), turns)
  {
    RollupIsItsTurns(was.agg, day, turns);
    SessionsCounted(day, turns);
  }

  lemma StandInCounts(a: Agg, t: Turn, original: Turn)
    requires Stands(t, original) && Plain(original)
    ensures AddTurn(a, t) == AddTurn(a, original)
  {
    RowCountsTheSameIff(a, original);
  }

  lemma TrimOneMore(from: Instant, to: Instant, turns: seq<Turn>, t: Turn)
    ensures Trim(from, to, turns + [t])
         == if Within(from, to, t) then Trim(from, to, turns) + [t] else Trim(from, to, turns)
  {
    assert Trim(from, to, turns) + [] == Trim(from, to, turns);
    assert (turns + [t])[..|turns|] == turns;
  }

  predicate PlainDay(turns: seq<Turn>) {
    forall t :: t in turns ==> Plain(t)
  }

  /** Counting the turns of a day that lie in the window, read as they may be from rows. */
  ghost predicate Counted(from: Instant, to: Instant, was: Progress, originals: seq<Turn>, agg: Agg,
          seen: set<string>) {
    agg == AddAll(was.agg, Trim(from, to, originals)) && seen == was.seen + IDs(Trim(from, to, originals))
  }

  lemma NoneCounted(from: Instant, to: Instant, was: Progress)
    ensures Counted(from, to, was, [], was.agg, was.seen)
  {
    assert IDs([]) == {};
  }

  lemma FrontOneMore<T>(xs: seq<T>, n: nat)
    requires n < |xs|
    ensures xs[..n + 1] == xs[..n] + [xs[n]] && xs[n] in xs
  {
  }

  lemma {:induction false} IDsOneMore(turns: seq<Turn>, t: Turn)
    ensures IDs(turns + [t]) == IDs(turns) + {t.SessionID()}
  {
    IDsConcat(turns, [t]);
  }

  lemma {:induction false} AddOneMore(a: Agg, turns: seq<Turn>, t: Turn)
    ensures AddAll(a, turns + [t]) == AddTurn(AddAll(a, turns), t)
  {
    assert (turns + [t])[..|turns|] == turns;
  }

  lemma {:induction false} OneMoreCounted(from: Instant, to: Instant, was: Progress, originals: seq<Turn>, n: nat,
          agg: Agg, seen: set<string>, t: Turn)
    requires n < |originals| && Stands(t, originals[n]) && PlainDay(originals)
    requires Counted(from, to, was, originals[..n], agg, seen)
    ensures if Within(from, to, t)
            then Counted(from, to, was, originals[..n + 1], AddTurn(agg, t), seen + {t.SessionID()})
            else Counted(from, to, was, originals[..n + 1], agg, seen)
  {
    var before, original := originals[..n], originals[n];
    FrontOneMore(originals, n);
    StandsAlike(t, original);
    TrimOneMore(from, to, before, original);
    if Within(from, to, t) {
      IDsOneMore(Trim(from, to, before), original);
      AddOneMore(was.agg, Trim(from, to, before), original);
      StandInCounts(agg, t, original);
    }
  }

  /** The turn-level path: every turn of the day that lies in the window. */
  method AddTurns(from: Instant, to: Instant, turns: seq<Turn>, was: Progress, ghost originals: seq<Turn>)
    returns (now: Progress)
    ensures AllStand(turns, originals) && PlainDay(originals) ==> Counted(from, to, was, originals, now.agg, now.seen)
    ensures now.counted == was.counted && now.exact == was.exact
  {
    var agg, seen := was.agg, was.seen;
    ghost var good := AllStand(turns, originals) && PlainDay(originals);
    NoneCounted(from, to, was);
    for i := 0 to |turns|
      invariant good ==> Counted(from, to, was, originals[..i], agg, seen)
    {
      var t := turns[i];
      if good {
        OneMoreCounted(from, to, was, originals, i, agg, seen, t);
      }
      if from <= t.StartedAt() <= to {
        agg := AddTurn(agg, t);
        seen := seen + {t.SessionID()};
      }
    }
    assert good ==> originals[..|turns|] == originals;
    now := Progress(agg, was.counted, seen, was.exact);
  }

  // ---------------------------------------------------------------------------------------------
  // One day, then all of them
  // ---------------------------------------------------------------------------------------------

  ghost predicate Ready(v: View, ledger: Ledger, day: Day) {
    HoldsDay(v, ledger, day) && StartOn(ledger(day), day) && PlainDay(ledger(day))
  }

  /** The days a rollup may answer for lie in the window as a whole. */
  predicate Whole(from: Instant, to: Instant, day: Day) {
    var firstWhole := if StartOf(DayOf(from)) < from then DayOf(from) + 1 else DayOf(from);
    var lastWhole := DayOf(to) - 1;
    firstWhole <= day <= lastWhole
  }

  /** That is, the days of which no instant is outside. */
  lemma WholeIff(from: Instant, to: Instant, day: Day)
    ensures Whole(from, to, day) <==> from <= StartOf(day) && StartOf(day + 1) <= to
  {
    DaysAreOrdered(from, StartOf(day));
    DaysAreOrdered(to, StartOf(day + 1));
  }

  lemma WholeIsWhole(from: Instant, to: Instant, turns: seq<Turn>, day: Day)
    requires Whole(from, to, day) && StartOn(turns, day)
    ensures Trim(from, to, turns) == turns
  {
    DaysAreOrdered(from, from);
    assert from <= StartOf(day);
    WholeDay(from, to, turns, day);
  }

  lemma NothingTaken(p: Progress, from: Instant, to: Instant)
    ensures Took(p, p, Trim(from, to, []))
  {
    assert IDs([]) == {};
  }

  lemma IndexTakes(v: View, day: Day, was: Progress, ledger: Ledger)
    requires Ready(v, ledger, day) && v.idx.Some? && day in v.idx.value.days
    ensures v.idx.value.days[day].sessions == |IDs(ledger(day))|
    ensures var idx := v.idx.value;
            Took(was, Progress(AddRollup(was.agg, idx.days[day], Table(idx.models, day), Table(idx.tools, day),
              Table(idx.projects, day)),
                               was.counted + idx.days[day].sessions, was.seen, false), ledger(day))
  {
    RollupTakes(was, day, ledger(day));
  }

  lemma PartitionTakes(v: View, day: Day, was: Progress, ledger: Ledger)
    requires Ready(v, ledger, day) && PartOf(v.parts, day).day.Some?
    ensures PartOf(v.parts, day).day.value.sessions == |IDs(ledger(day))|
    ensures var p := PartOf(v.parts, day);
            Took(was, Progress(AddRollup(was.agg, p.day.value, Rowless(p.models), Rowless(p.tools),
              Rowless(p.projects)),
                               was.counted + p.day.value.sessions, was.seen, false), ledger(day))
  {
    RollupTakes(was, day, ledger(day));
  }

  ghost predicate AllReady(v: View, ledger: Ledger) {
    forall d :: Ready(v, ledger, d)
  }

  predicate HasRollup(v: View, day: Day) {
    (v.idx.Some? && day in v.idx.value.days) || PartOf(v.parts, day).day.Some?
  }

  /** What the copy that answers for the day adds: the loaded index if it has the day, else the partition. */
  function RolledUp(v: View, day: Day, a: Agg): Agg
    requires HasRollup(v, day)
  {
    var p := PartOf(v.parts, day);
    if v.idx.Some? && day in v.idx.value.days then
      var idx := v.idx.value;
      AddRollup(a, idx.days[day], Table(idx.models, day), Table(idx.tools, day), Table(idx.projects, day))
    else AddRollup(a, p.day.value, Rowless(p.models), Rowless(p.tools), Rowless(p.projects))
  }

  /** A whole day answered by a rollup, from the index or from the partition. */
  method AggregateWhole(v: View, day: Day, was: Progress, ghost ledger: Ledger) returns (used: bool, now: Progress)
    ensures used <==> HasRollup(v, day)
    ensures !used ==> now == was
    ensures used ==> now.agg == RolledUp(v, day, was.agg) && now.seen == was.seen && !now.exact
    ensures used && Ready(v, ledger, day) ==>
              Took(was, now, ledger(day)) && SessionsBy(true, was, now, ledger(day))
  {
    used, now := AddIndexed(v.idx, day, was);
    if used {
      if Ready(v, ledger, day) {
        IndexTakes(v, day, was, ledger);
      }
      return;
    }
    used, now := AddPartition(PartOf(v.parts, day), was);
    if used && Ready(v, ledger, day) {
      PartitionTakes(v, day, was, ledger);
    }
  }

  /** The day is answered by a rollup: it lies in the window as a whole, and a copy that is read has one. */
  predicate RolledOn(v: View, from: Instant, to: Instant, day: Day) {
    from <= StartOf(day) && StartOf(day + 1) <= to && !KnownEmpty(v.idx, v.hot, day) && HasRollup(v, day)
  }

  /** Sessions are counted once by a rollup, and seen otherwise. */
  ghost predicate SessionsBy(rolled: bool, was: Progress, now: Progress, turns: seq<Turn>) {
    if rolled then now.counted == was.counted + |IDs(turns)| && now.seen == was.seen
    else now.counted == was.counted && now.seen == was.seen + IDs(turns)
  }

  /** A step of the aggregate over one day does right by a ledger the view holds. */
  ghost predicate DayTook(v: View, ledger: Ledger, from: Instant, to: Instant, day: Day, was: Progress,
          now: Progress) {
    && now.exact == (was.exact && !RolledOn(v, from, to, day))
    && (Ready(v, ledger, day) ==>
          && Took(was, now, Trim(from, to, ledger(day)))
          && SessionsBy(RolledOn(v, from, to, day), was, now, Trim(from, to, ledger(day))))
  }

  method AggregateDay(v: View, from: Instant, to: Instant, day: Day, was: Progress, ghost ledger: Ledger)
    returns (now: Progress)
    ensures DayTook(v, ledger, from, to, day, was, now)
  {
    WholeIff(from, to, day);
    if KnownEmpty(v.idx, v.hot, day) {
      NothingTaken(was, from, to);
      return was;
    }
    if Whole(from, to, day) {
      var used;
      used, now := AggregateWhole(v, day, was, ledger);
      if used {
        if Ready(v, ledger, day) {
          WholeIsWhole(from, to, ledger(day), day);
        }
        return;
      }
    }
    if Ready(v, ledger, day) {
      HoldingADayHoldsItsTurns(v, ledger, day);
      DayStands(v, ledger, day);
    }
    now := AddTurns(from, to, TurnsForDay(v, day), was, ledger(day));
  }

  /** How far the session count can be off: never below the number of sessions, and right on it as long
      as no rollup was used. */
  ghost predicate Bounds(p: Progress, ids: set<string>) {
    && p.seen <= ids && |ids| <= p.counted + |p.seen|
    && (p.exact ==> p.counted == 0 && p.seen == ids)
  }

  lemma UnionSize(a: set<string>, b: set<string>)
    ensures |a + b| == |a| + |b - a| && |b - a| <= |b|
  {
    assert a + b == a + (b - a);
    assert |b| == |b * a| + |b - a| by {
      assert b == (b * a) + (b - a);
    }
  }

  lemma DifferenceShrinks(ids: set<string>, seen: set<string>, b: set<string>)
    requires seen <= ids
    ensures |b - ids| <= |b - seen|
  {
    SubsetSize(b - ids, b - seen);
  }

  lemma SubsetSize(a: set<string>, b: set<string>)
    requires a <= b
    ensures |a| <= |b|
  {
    assert b == a + (b - a);
  }

  lemma BoundsKept(was: Progress, now: Progress, ids: set<string>, turns: seq<Turn>)
    requires Bounds(was, ids) && Took(was, now, turns)
    ensures Bounds(now, ids + IDs(turns))
  {
    var b := IDs(turns);
    UnionSize(ids, b);
    UnionSize(was.seen, b);
    DifferenceShrinks(ids, was.seen, b);
  }

  /** What has been gathered from these turns so far. */
  ghost predicate Gathers(p: Progress, turns: seq<Turn>) {
    p.agg == AddAll(NOTHING, turns) && Bounds(p, IDs(turns))
  }

  lemma GathersMore(was: Progress, now: Progress, before: seq<Turn>, more: seq<Turn>)
    requires Gathers(was, before) && Took(was, now, more)
    ensures Gathers(now, before + more)
  {
    AddConcat(NOTHING, before, more);
    IDsConcat(before, more);
    BoundsKept(was, now, IDs(before), more);
  }

  lemma NothingGathered()
    ensures Gathers(FRESH, [])
  {
    assert IDs([]) == {};
  }

  const FRESH := Progress(NOTHING, 0, {}, true)

  /** Step by step over the days from `first` to before `day`. */
  ghost predicate Reaches(v: View, ledger: Ledger, from: Instant, to: Instant, first: Day, day: Day, p: Progress)
    decreases day - first, 0
  {
    if day <= first then p == FRESH && day == first
    else exists prev, mid :: prev + 1 == day && ReachesVia(v, ledger, from, to, first, prev, mid, p)
  }

  ghost predicate ReachesVia(v: View, ledger: Ledger, from: Instant, to: Instant, first: Day, prev: Day,
          mid: Progress, p: Progress)
    decreases prev - first, 1
  {
    first <= prev && Reaches(v, ledger, from, to, first, prev, mid) && DayTook(v, ledger, from, to, prev, mid, p)
  }

  lemma ReachesOn(v: View, ledger: Ledger, from: Instant, to: Instant, first: Day, day: Day, mid: Progress,
          p: Progress)
    requires first <= day && Reaches(v, ledger, from, to, first, day, mid) && DayTook(v, ledger, from, to, day, mid, p)
    ensures Reaches(v, ledger, from, to, first, day + 1, p)
  {
    assert ReachesVia(v, ledger, from, to, first, day, mid, p);
  }

  lemma ReachesBack(v: View, ledger: Ledger, from: Instant, to: Instant, first: Day, day: Day, p: Progress)
    returns (prev: Day, mid: Progress)
    requires first < day && Reaches(v, ledger, from, to, first, day, p)
    ensures first <= prev == day - 1
    ensures Reaches(v, ledger, from, to, first, prev, mid) && DayTook(v, ledger, from, to, prev, mid, p)
  {
    prev, mid :| prev + 1 == day && ReachesVia(v, ledger, from, to, first, prev, mid, p);
  }

  ghost predicate GathersDays(ledger: Ledger, from: Instant, to: Instant, first: Day, n: nat, p: Progress) {
    Gathers(p, InDays(ledger, from, to, first, n))
  }

  lemma InDaysLast(ledger: Ledger, from: Instant, to: Instant, first: Day, n: nat, day: Day)
    requires day == first + n
    ensures InDays(ledger, from, to, first, n + 1) == InDays(ledger, from, to, first, n) + Trim(from, to, ledger(day))
  {
    assert first + (n + 1) - 1 == day;
  }

  lemma GatherOneDay(v: View, ledger: Ledger, from: Instant, to: Instant, first: Day, n: nat, day: Day,
          was: Progress, now: Progress)
    requires AllReady(v, ledger) && day == first + n
    requires DayTook(v, ledger, from, to, day, was, now) && GathersDays(ledger, from, to, first, n, was)
    ensures GathersDays(ledger, from, to, first, n + 1, now)
  {
    assert Ready(v, ledger, day);
    InDaysLast(ledger, from, to, first, n, day);
    GathersMore(was, now, InDays(ledger, from, to, first, n), Trim(from, to, ledger(day)));
  }

  lemma NoDays(ledger: Ledger, from: Instant, to: Instant, first: Day)
    ensures GathersDays(ledger, from, to, first, 0, FRESH)
  {
    NothingGathered();
  }

  lemma {:induction false} DaysGather(v: View, ledger: Ledger, from: Instant, to: Instant, first: Day, day: Day,
          n: nat, p: Progress)
    requires AllReady(v, ledger) && day == first + n && Reaches(v, ledger, from, to, first, day, p)
    ensures GathersDays(ledger, from, to, first, n, p)
    decreases n
  {
    if n == 0 {
      NoDays(ledger, from, to, first);
    } else {
      var m := n - 1;
      var prev, mid := ReachesBack(v, ledger, from, to, first, day, p);
      DaysGather(v, ledger, from, to, first, prev, m, mid);
      GatherOneDay(v, ledger, from, to, first, m, prev, mid, p);
    }
  }

  /** The sessions of `n` days: those of each day answered by a rollup, day by day, and the others once. */
  ghost function CountedIn(v: View, ledger: Ledger, from: Instant, to: Instant, first: Day, n: nat): nat {
    if n == 0 then 0
    else
      var day := first + n - 1;
      CountedIn(v, ledger, from, to, first, n - 1)
      + if RolledOn(v, from, to, day) then |IDs(Trim(from, to, ledger(day)))| else 0
  }

  ghost function SeenIn(v: View, ledger: Ledger, from: Instant, to: Instant, first: Day, n: nat): set<string> {
    if n == 0 then {}
    else
      var day := first + n - 1;
      SeenIn(v, ledger, from, to, first, n - 1)
      + if RolledOn(v, from, to, day) then {} else IDs(Trim(from, to, ledger(day)))
  }

  lemma CountedLast(v: View, ledger: Ledger, from: Instant, to: Instant, first: Day, n: nat, day: Day)
    requires day == first + n
    ensures CountedIn(v, ledger, from, to, first, n + 1) == CountedIn(v, ledger, from, to, first, n)
              + if RolledOn(v, from, to, day) then |IDs(Trim(from, to, ledger(day)))| else 0
    ensures SeenIn(v, ledger, from, to, first, n + 1) == SeenIn(v, ledger, from, to, first, n)
              + if RolledOn(v, from, to, day) then {} else IDs(Trim(from, to, ledger(day)))
  {
    assert first + (n + 1) - 1 == day;
  }

  ghost predicate CountsDays(v: View, ledger: Ledger, from: Instant, to: Instant, first: Day, n: nat, p: Progress) {
    p.counted == CountedIn(v, ledger, from, to, first, n) && p.seen == SeenIn(v, ledger, from, to, first, n)
  }

  lemma CountOneDay(v: View, ledger: Ledger, from: Instant, to: Instant, first: Day, n: nat, day: Day,
          was: Progress, now: Progress)
    requires AllReady(v, ledger) && day == first + n
    requires DayTook(v, ledger, from, to, day, was, now) && CountsDays(v, ledger, from, to, first, n, was)
    ensures CountsDays(v, ledger, from, to, first, n + 1, now)
  {
    assert Ready(v, ledger, day);
    CountedLast(v, ledger, from, to, first, n, day);
  }

  lemma {:induction false} DaysCount(v: View, ledger: Ledger, from: Instant, to: Instant, first: Day, day: Day,
          n: nat, p: Progress)
    requires AllReady(v, ledger) && day == first + n && Reaches(v, ledger, from, to, first, day, p)
    ensures CountsDays(v, ledger, from, to, first, n, p)
    decreases n
  {
    if n > 0 {
      var m := n - 1;
      var prev, mid := ReachesBack(v, ledger, from, to, first, day, p);
      DaysCount(v, ledger, from, to, first, prev, m, mid);
      CountOneDay(v, ledger, from, to, first, m, prev, mid, p);
    }
  }

  ghost predicate ExactTo(v: View, from: Instant, to: Instant, first: Day, day: Day, p: Progress) {
    p.exact <==> forall d :: first <= d < day ==> !RolledOn(v, from, to, d)
  }

  lemma ExactOneDay(v: View, ledger: Ledger, from: Instant, to: Instant, first: Day, day: Day, was: Progress,
          now: Progress)
    requires first <= day && DayTook(v, ledger, from, to, day, was, now) && ExactTo(v, from, to, first, day, was)
    ensures ExactTo(v, from, to, first, day + 1, now)
  {
  }

  lemma {:induction false} DaysExact(v: View, ledger: Ledger, from: Instant, to: Instant, first: Day, day: Day,
          p: Progress)
    requires first <= day && Reaches(v, ledger, from, to, first, day, p)
    ensures ExactTo(v, from, to, first, day, p)
    decreases day - first
  {
    if first < day {
      var prev, mid := ReachesBack(v, ledger, from, to, first, day, p);
      DaysExact(v, ledger, from, to, first, prev, mid);
      ExactOneDay(v, ledger, from, to, first, prev, mid, p);
    }
  }

  /** The loop over the window's days. */
  method AggregateDays(v: View, from: Instant, to: Instant, first: Day, last: Day, ghost ledger: Ledger)
    returns (p: Progress)
    ensures Reaches(v, ledger, from, to, first, if last < first then first else last + 1, p)
  {
    p := FRESH;
    var day := first;
    while day <= last
      invariant day == first || first < day <= last + 1
      invariant Reaches(v, ledger, from, to, first, day, p)
      decreases last - day
    {
      var next := AggregateDay(v, from, to, day, p, ledger);
      ReachesOn(v, ledger, from, to, first, day, p, next);
      p, day := next, day + 1;
    }
  }

  /** Every total, every per-model and per-tool count and every project's share is what counting each turn
      of the window gives; the session count is never too low, and exact if it says so. */
  method AggregateRange(v: View, from: Instant, to: Instant, ghost ledger: Ledger)
    returns (agg: Agg, sessions: nat, exact: bool)
    ensures AllReady(v, ledger) ==>
              var turns := InWindow(ledger, from, to);
              agg == AddAll(NOTHING, turns) && sessions >= |IDs(turns)| && (exact ==> sessions == |IDs(turns)|)
    ensures AllReady(v, ledger) ==>
              sessions == CountedIn(v, ledger, from, to, DayOf(from), DaysIn(from, to))
                          + |SeenIn(v, ledger, from, to, DayOf(from), DaysIn(from, to))|
    ensures exact <==> forall d :: DayOf(from) <= d <= DayOf(to) ==> !RolledOn(v, from, to, d)
  {
    var p := AggregateDays(v, from, to, DayOf(from), DayOf(to), ledger);
    DaysExact(v, ledger, from, to, DayOf(from), DayOf(from) + DaysIn(from, to), p);
    if AllReady(v, ledger) {
      DaysGather(v, ledger, from, to, DayOf(from), DayOf(from) + DaysIn(from, to), DaysIn(from, to), p);
      DaysCount(v, ledger, from, to, DayOf(from), DayOf(from) + DaysIn(from, to), DaysIn(from, to), p);
    }
    agg, sessions, exact := p.agg, p.counted + |p.seen|, p.exact;
  }
}
