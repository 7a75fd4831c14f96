/** The archive: a hot window of events per day, six objects per compacted day, and one consolidated
    index (internal/compact/compact.go, prune.go, index.go, read.go). An object is written by one atomic
    Put, so a crash can fall between any two. */
module Archive {
  import opened Events
  import opened Rollup
  import opened Tables
  import Fold
  import Sorting

  // ---------------------------------------------------------------------------------------------
  // Objects
  // ---------------------------------------------------------------------------------------------

  /** The six objects of a day's partition, in the order they are written. */
  datatype Partition = Partition(
    day: Option<DayRow>,
    models: Option<seq<ModelRow>>,
    tools: Option<seq<ToolRow>>,
    projects: Option<seq<ProjectRow>>,
    sessions: Option<seq<SessionDayRow>>,
    turns: Option<seq<TurnRow>>)

  const NO_PARTITION := Partition(None, None, None, None, None, None)

  const PUTS := 6

  /** The consolidated rollup. A day without a row of some kind is not in that table. */
  datatype Index = Index(
    days: map<Day, DayRow>,
    models: map<Day, seq<ModelRow>>,
    tools: map<Day, seq<ToolRow>>,
    projects: map<Day, seq<ProjectRow>>,
    sessions: map<Day, seq<SessionDayRow>>)

  /** The five index objects, in the order they are published. */
  datatype Published = Published(
    days: Option<map<Day, DayRow>>,
    models: Option<map<Day, seq<ModelRow>>>,
    tools: Option<map<Day, seq<ToolRow>>>,
    projects: Option<map<Day, seq<ProjectRow>>>,
    sessions: Option<map<Day, seq<SessionDayRow>>>)

  const NOT_PUBLISHED := Published(None, None, None, None, None)

  const INDEX_PUTS := 5

  type Window = map<Day, seq<Event>>
  type Partitions = map<Day, Partition>

  function EventsOn(hot: Window, day: Day): seq<Event> {
    if day in hot then hot[day] else []
  }

  function PartOf(parts: Partitions, day: Day): Partition {
    if day in parts then parts[day] else NO_PARTITION
  }

  predicate Earliest(d: Day, days: set<Day>) {
    d in days && forall e :: e in days ==> d <= e
  }

  lemma {:induction false} EarliestExists(days: set<Day>) returns (d: Day)
    requires days != {}
    ensures Earliest(d, days)
    decreases |days|
  {
    var some := Tables.Some(days);
    var rest := days - {some};
    assert forall e :: e in days ==> e == some || e in rest;
    if rest == {} {
      d := some;
    } else {
      var first := EarliestExists(rest);
      d := if some < first then some else first;
    }
  }

  ghost function InOrder(days: set<Day>): (list: seq<Day>)
    decreases |days|
  {
    if days == {} then []
    else
      assert exists d :: Earliest(d, days) by { var _ := EarliestExists(days); }
      var d :| Earliest(d, days);
      [d] + InOrder(days - {d})
  }

  /** Store.Days: the days the window holds, oldest first. */
  ghost function Calendar(hot: Window): seq<Day> {
    InOrder(hot.Keys)
  }

  lemma InOrderFrom(days: set<Day>, d: Day)
    requires Earliest(d, days)
    ensures InOrder(days) == [d] + InOrder(days - {d})
  {
  }

  lemma HeadFirst(first: Day, days: set<Day>, rest: seq<Day>)
    requires Earliest(first, days)
    requires forall d :: d in rest <==> d in days - {first}
    requires forall i, j :: 0 <= i < j < |rest| ==> rest[i] < rest[j]
    ensures forall d :: d in [first] + rest <==> d in days
    ensures forall i, j :: 0 <= i < j < |[first] + rest| ==> ([first] + rest)[i] < ([first] + rest)[j]
  {
    var list := [first] + rest;
    forall i, j | 0 <= i < j < |list| ensures list[i] < list[j] {
      assert list[j] == rest[j - 1] && list[j] in rest;
    }
  }

  lemma {:induction false} InOrderHolds(days: set<Day>)
    ensures forall d :: d in InOrder(days) <==> d in days
    ensures forall i, j :: 0 <= i < j < |InOrder(days)| ==> InOrder(days)[i] < InOrder(days)[j]
    decreases |days|
  {
    if days == {} {
      assert InOrder(days) == [];
    } else {
      var first := EarliestExists(days);
      InOrderFrom(days, first);
      InOrderHolds(days - {first});
      HeadFirst(first, days, InOrder(days - {first}));
    }
  }

  /** The days of a set, oldest first. */
  method ListDays(days: set<Day>) returns (list: seq<Day>)
    ensures list == InOrder(days)
  {
    var left := days;
    list := [];
    while left != {}
      invariant list + InOrder(left) == InOrder(days)
      decreases |left|
    {
      ghost var first := EarliestExists(left);
      assert first in left && forall e :: e in left ==> first <= e;
      var d :| d in left && forall e :: e in left ==> d <= e;
      InOrderFrom(left, d);
      assert list + ([d] + InOrder(left - {d})) == (list + [d]) + InOrder(left - {d});
      list, left := list + [d], left - {d};
    }
  }

  /** IsCompacted: the last object written is there. */
  predicate Compacted(parts: Partitions, day: Day) {
    PartOf(parts, day).turns.Some?
  }

  // ---------------------------------------------------------------------------------------------
  // Writing a partition
  // ---------------------------------------------------------------------------------------------

  /** Everything a day's turns are frozen into. */
  ghost function FullOf(day: Day, turns: seq<Fold.Turn>): Partition {
    var s := SummaryOf(day, turns);
    Partition(Some(s.day), Some(s.models), Some(s.tools), Some(s.projects), Some(s.sessions),
              Some(Sorting.Map(ToRow, turns)))
  }

  ghost function Full(day: Day, es: seq<Event>): Partition {
    FullOf(day, Fold.TurnsOf(es))
  }

  /** One Put: the next object of `full` replaces the one that was there. */
  function PutNext(p: Partition, full: Partition, done: nat): Partition
    requires done < PUTS
  {
    match done
    case 0 => p.(day := full.day)
    case 1 => p.(models := full.models)
    case 2 => p.(tools := full.tools)
    case 3 => p.(projects := full.projects)
    case 4 => p.(sessions := full.sessions)
    case _ => p.(turns := full.turns)
  }

  /** After the first `done` Puts. */
  function Overlay(p: Partition, full: Partition, done: nat): Partition
    requires done <= PUTS
  {
    Partition(
      if done > 0 then full.day else p.day,
      if done > 1 then full.models else p.models,
      if done > 2 then full.tools else p.tools,
      if done > 3 then full.projects else p.projects,
      if done > 4 then full.sessions else p.sessions,
      if done > 5 then full.turns else p.turns)
  }

  lemma OverlayStep(p: Partition, full: Partition, done: nat)
    requires done < PUTS
    ensures PutNext(Overlay(p, full, done), full, done) == Overlay(p, full, done + 1)
    ensures Overlay(p, full, 0) == p && Overlay(p, full, PUTS) == full
  {
  }

  /** CompactDay goes on to write: the day is over, not compacted yet unless forced, and not empty. */
  predicate Writes(hot: Window, parts: Partitions, day: Day, today: Day, force: bool) {
    day < today && (force || !Compacted(parts, day)) && EventsOn(hot, day) != []
  }

  // ---------------------------------------------------------------------------------------------
  // The index
  // ---------------------------------------------------------------------------------------------

  /** One turn of a compacted day, in the narrow projection that is probed for sessions. */
  function Probe(rows: seq<SessionDayRow>, day: Day, turn: TurnRow): seq<SessionDayRow> {
    if rows == [] then [SessionRowOf(day, turn.sessionID, turn.ts)]
    else if rows[0].sessionID == turn.sessionID then
      [PlusSession(rows[0], SessionRowOf(day, turn.sessionID, turn.ts))] + rows[1..]
    else [rows[0]] + Probe(rows[1..], day, turn)
  }

  function ProbeAll(day: Day, turns: seq<TurnRow>): seq<SessionDayRow> {
    if turns == [] then [] else Probe(ProbeAll(day, turns[..|turns| - 1]), day, turns[|turns| - 1])
  }

  /** ReadSessionDays: the prepared rows, or rows derived from the turns of an older partition. */
  function SessionDays(day: Day, p: Partition): seq<SessionDayRow> {
    if p.sessions.Some? then p.sessions.value
    else if p.turns.Some? then ProbeAll(day, p.turns.value)
    else []
  }

  /** A table keyed by day: an entry for every day whose partition yields one. */
  function TableOf<V>(parts: Partitions, entry: (Day, Partition) -> Option<V>): map<Day, V> {
    map d | d in parts && entry(d, parts[d]).Some? :: entry(d, parts[d]).value
  }

  function Rowed<V>(rows: Option<seq<V>>): Option<seq<V>> {
    if rows.Some? && rows.value != [] then rows else None
  }

  function DayEntry(d: Day, p: Partition): Option<DayRow> { p.day }

  function ModelsEntry(d: Day, p: Partition): Option<seq<ModelRow>> { Rowed(p.models) }

  function ToolsEntry(d: Day, p: Partition): Option<seq<ToolRow>> { Rowed(p.tools) }

  function ProjectsEntry(d: Day, p: Partition): Option<seq<ProjectRow>> { Rowed(p.projects) }

  function SessionsEntry(d: Day, p: Partition): Option<seq<SessionDayRow>> { Rowed(Some(SessionDays(d, p))) }

  /** RebuildIndex: every partition's rollups, whether or not the partition is complete. */
  function Gathered(parts: Partitions): Index {
    Index(TableOf(parts, DayEntry), TableOf(parts, ModelsEntry), TableOf(parts, ToolsEntry),
          TableOf(parts, ProjectsEntry), TableOf(parts, SessionsEntry))
  }

  function Entered<V>(table: map<Day, V>, d: Day, entry: Option<V>): map<Day, V> {
    if entry.Some? then table[d := entry.value] else table
  }

  /** One more partition's rollups entered into the tables. */
  function GatherDay(idx: Index, d: Day, p: Partition): Index {
    Index(Entered(idx.days, d, DayEntry(d, p)), Entered(idx.models, d, ModelsEntry(d, p)),
          Entered(idx.tools, d, ToolsEntry(d, p)), Entered(idx.projects, d, ProjectsEntry(d, p)),
          Entered(idx.sessions, d, SessionsEntry(d, p)))
  }

  lemma TableOneMore<V>(parts: Partitions, d: Day, p: Partition, entry: (Day, Partition) -> Option<V>)
    requires d !in parts
    ensures TableOf(parts[d := p], entry) == Entered(TableOf(parts, entry), d, entry(d, p))
  {
  }

  lemma GatherOneMore(parts: Partitions, d: Day, p: Partition)
    requires d !in parts
    ensures Gathered(parts[d := p]) == GatherDay(Gathered(parts), d, p)
  {
    TableOneMore(parts, d, p, DayEntry);
    TableOneMore(parts, d, p, ModelsEntry);
    TableOneMore(parts, d, p, ToolsEntry);
    TableOneMore(parts, d, p, ProjectsEntry);
    TableOneMore(parts, d, p, SessionsEntry);
  }

  function PublishNext(now: Published, idx: Index, done: nat): Published
    requires done < INDEX_PUTS
  {
    match done
    case 0 => now.(days := Some(idx.days))
    case 1 => now.(models := Some(idx.models))
    case 2 => now.(tools := Some(idx.tools))
    case 3 => now.(projects := Some(idx.projects))
    case _ => now.(sessions := Some(idx.sessions))
  }

  function PublishUpTo(now: Published, idx: Index, done: nat): Published
    requires done <= INDEX_PUTS
  {
    Published(
      if done > 0 then Some(idx.days) else now.days,
      if done > 1 then Some(idx.models) else now.models,
      if done > 2 then Some(idx.tools) else now.tools,
      if done > 3 then Some(idx.projects) else now.projects,
      if done > 4 then Some(idx.sessions) else now.sessions)
  }

  lemma PublishStep(now: Published, idx: Index, done: nat)
    requires done < INDEX_PUTS
    ensures PublishNext(PublishUpTo(now, idx, done), idx, done) == PublishUpTo(now, idx, done + 1)
    ensures PublishUpTo(now, idx, 0) == now
  {
  }

  predicate HasIndex(published: Published) {
    published.days.Some? && published.sessions.Some?
  }

  function Rows0<V>(o: Option<map<Day, V>>): map<Day, V> {
    if o.Some? then o.value else map[]
  }

  /** readIndex: no index at all unless its day table holds something. */
  function ReadIndex(p: Published): Option<Index> {
    if p.days.None? || p.days.value == map[] then None
    else Some(Index(p.days.value, Rows0(p.models), Rows0(p.tools), Rows0(p.projects), Rows0(p.sessions)))
  }

  /** loadIndex: the cached copy if there is one. */
  function LoadIndex(cached: Option<Index>, published: Published): Option<Index> {
    if cached.Some? then cached else ReadIndex(published)
  }

  /** knownEmpty: the index does not cover the day and the window does not hold it; without an index
      nothing is known. */
  predicate KnownEmpty(idx: Option<Index>, hot: set<Day>, day: Day) {
    idx.Some? && day !in idx.value.days && day !in hot
  }

  // ---------------------------------------------------------------------------------------------
  // Releasing a day
  // ---------------------------------------------------------------------------------------------

  /** contentRefs */
  function ContentRefs(turns: seq<Fold.Turn>): nat {
    if turns == [] then 0 else ContentRefs(turns[..|turns| - 1]) + |turns[|turns| - 1].contentBlobs|
  }

  function TurnsIn(rows: seq<TurnRow>): seq<Fold.Turn> {
    Sorting.Map(FromRow, rows)
  }

  /** The check before a day is dropped: as many turns and as many content references. */
  predicate Passes(p: Partition, log: seq<Event>) {
    && p.turns.Some?
    && |p.turns.value| == |Fold.TurnsOf(log)|
    && ContentRefs(TurnsIn(p.turns.value)) == ContentRefs(Fold.TurnsOf(log))
  }
}
