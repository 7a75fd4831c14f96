/** What a query sees, and what it means for that to stand for the turns actually captured. */
module Reading {
  import opened Archive
  import opened Events
  import opened Fold
  import opened Rollup
  import Sorting

  /** The turns of each day, in the order BuildTurns gives them. */
  type Ledger = Day -> seq<Turn>

  /** The stored state a query reads: the days the window holds, what BuildTurns makes of a day's events
      there, the partitions, and the index that was loaded. */
  datatype View = View(hot: set<Day>, built: Ledger, parts: Partitions, idx: Option<Index>)

  function Table<V>(m: map<Day, seq<V>>, day: Day): seq<V> {
    if day in m then m[day] else []
  }

  /** The index's rows for a day are those of its summary. */
  ghost predicate Covers(idx: Index, day: Day, s: Summary) {
    && day in idx.days && idx.days[day] == s.day
    && Table(idx.models, day) == s.models && Table(idx.tools, day) == s.tools
    && Table(idx.projects, day) == s.projects && Table(idx.sessions, day) == s.sessions
  }

  /** The view holds a day's turns: as a complete partition or as events still in the window, rightly
      indexed if indexed at all, and not skipped if there are any. */
  ghost predicate HoldsDay(v: View, ledger: Ledger, day: Day) {
    var turns := ledger(day);
    && (PartOf(v.parts, day) == FullOf(day, turns)
        || (PartOf(v.parts, day) == NO_PARTITION && v.built(day) == turns))
    && (v.idx.Some? && day in v.idx.value.days ==>
          Covers(v.idx.value, day, SummaryOf(day, turns)) && PartOf(v.parts, day) == FullOf(day, turns))
    && (KnownEmpty(v.idx, v.hot, day) ==> turns == [])
  }

  /** A day's turns start on that day. */
  predicate StartOn(turns: seq<Turn>, day: Day) {
    forall t :: t in turns ==> DayOf(t.StartedAt()) == day
  }

  // ---------------------------------------------------------------------------------------------
  // One day's turns
  // ---------------------------------------------------------------------------------------------

  function TurnsForDay(v: View, day: Day): seq<Turn> {
    if Compacted(v.parts, day) then TurnsIn(PartOf(v.parts, day).turns.value)
    else v.built(day)
  }

  /** A turn as it was folded, or as it came back from its row. */
  predicate Stands(t: Turn, original: Turn) {
    t == original || t == FromRow(ToRow(original))
  }

  predicate AllStand(ts: seq<Turn>, originals: seq<Turn>) {
    |ts| == |originals| && forall i :: 0 <= i < |ts| ==> Stands(ts[i], originals[i])
  }

  /** What reading a day's turns takes: the rows of all of them if the day is compacted, all its events if
      not. Whatever else a partition that is not finished holds is not looked at. */
  ghost predicate HoldsTurns(v: View, ledger: Ledger, day: Day) {
    if Compacted(v.parts, day) then PartOf(v.parts, day).turns.value == Sorting.Map(ToRow, ledger(day))
    else v.built(day) == ledger(day)
  }

  lemma HoldingADayHoldsItsTurns(v: View, ledger: Ledger, day: Day)
    requires HoldsDay(v, ledger, day)
    ensures HoldsTurns(v, ledger, day)
  {
  }

  lemma DayStands(v: View, ledger: Ledger, day: Day)
    requires HoldsTurns(v, ledger, day)
    ensures AllStand(TurnsForDay(v, day), ledger(day))
  {
  }

  lemma StandsAlike(t: Turn, original: Turn)
    requires Stands(t, original)
    ensures t.SessionID() == original.SessionID() && t.StartedAt() == original.StartedAt()
  {
  }

  // ---------------------------------------------------------------------------------------------
  // Windows
  // ---------------------------------------------------------------------------------------------

  predicate Within(from: Instant, to: Instant, t: Turn) {
    from <= t.StartedAt() <= to
  }

  function Trim(from: Instant, to: Instant, turns: seq<Turn>): seq<Turn> {
    Sorting.Filter(turns, t => Within(from, to, t))
  }

  /** The turns of `n` days, day by day, trimmed to a window's instants. */
  function InDays(ledger: Ledger, from: Instant, to: Instant, first: Day, n: nat): seq<Turn> {
    if n == 0 then []
    else InDays(ledger, from, to, first, n - 1) + Trim(from, to, ledger(first + n - 1))
  }

  function DaysIn(from: Instant, to: Instant): nat {
    if DayOf(to) < DayOf(from) then 0 else DayOf(to) - DayOf(from) + 1
  }

  /** Every turn whose start lies in the window. */
  function InWindow(ledger: Ledger, from: Instant, to: Instant): seq<Turn> {
    InDays(ledger, from, to, DayOf(from), DaysIn(from, to))
  }

  lemma TrimIn(from: Instant, to: Instant, turns: seq<Turn>, t: Turn)
    ensures t in Trim(from, to, turns) <==> t in turns && Within(from, to, t)
  {
    Sorting.FilterIn(turns, u => Within(from, to, u), t);
  }

  lemma {:induction false} InDaysIn(ledger: Ledger, from: Instant, to: Instant, first: Day, n: nat, t: Turn)
    ensures t in InDays(ledger, from, to, first, n)
       <==> Within(from, to, t) && exists d :: first <= d < first + n && t in ledger(d)
    decreases n
  {
    if n > 0 {
      InDaysIn(ledger, from, to, first, n - 1, t);
      TrimIn(from, to, ledger(first + n - 1), t);
    }
  }

  lemma DaysAreOrdered(a: Instant, b: Instant)
    ensures a <= b ==> DayOf(a) <= DayOf(b)
    ensures DayOf(a) < DayOf(b) ==> a < b
    ensures StartOf(DayOf(a)) <= a < StartOf(DayOf(a) + 1)
  {
  }

  /** It is every turn of every day that starts in the window, since turns start on their day. */
  lemma InWindowIsAll(ledger: Ledger, from: Instant, to: Instant, t: Turn, day: Day)
    requires forall d :: StartOn(ledger(d), d)
    requires t in ledger(day) && Within(from, to, t)
    ensures t in InWindow(ledger, from, to)
  {
    assert StartOn(ledger(day), day);
    DaysAreOrdered(from, t.StartedAt());
    DaysAreOrdered(t.StartedAt(), to);
    InDaysIn(ledger, from, to, DayOf(from), DaysIn(from, to), t);
  }

  lemma {:induction false} FilterAll<T>(xs: seq<T>, keep: T -> bool)
    requires forall x :: x in xs ==> keep(x)
    ensures Sorting.Filter(xs, keep) == xs
  {
    if xs != [] {
      var init, last := xs[..|xs| - 1], xs[|xs| - 1];
      assert last in xs && xs == init + [last];
      FilterAll(init, keep);
    }
  }

  /** A day that lies in the window as a whole is not trimmed. */
  lemma WholeDay(from: Instant, to: Instant, turns: seq<Turn>, day: Day)
    requires StartOn(turns, day) && from <= StartOf(day) && day < DayOf(to)
    ensures Trim(from, to, turns) == turns
  {
    forall t | t in turns ensures Within(from, to, t) {
      DaysAreOrdered(t.StartedAt(), to);
    }
    FilterAll(turns, t => Within(from, to, t));
  }
}
