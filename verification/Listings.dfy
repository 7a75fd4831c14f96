/** What a paged list stands for: the sessions of the turns really captured. */
module Listings {
  import opened Archive
  import opened Events
  import opened Fold
  import opened Paging
  import opened Reading
  import opened Sessions
  import opened Tables
  import Aggregates
  import Rollup
  import Sorting
  import Windows

  /** A session's part of some turns. */
  function Part(turns: seq<Turn>, id: string): seq<Turn> {
    Sorting.Filter(turns, (t: Turn) => t.SessionID() == id)
  }

  /** The same request over the turns as they were folded. */
  function Raw(s: Scan, ledger: Ledger): Scan {
    Scan(ledger, s.idx, s.from, s.to)
  }

  // ---------------------------------------------------------------------------------------------
  // Read from rows or from events, the same sessions
  // ---------------------------------------------------------------------------------------------

  ghost predicate ReadyOn(v: View, ledger: Ledger, day: Day) {
    HoldsTurns(v, ledger, day) && Windows.PlainDay(ledger(day))
  }

  /** What a listing asks of the stored state: every day's turns, and nothing of rollups or of partitions
      that are not finished. */
  ghost predicate TurnsReady(v: View, ledger: Ledger) {
    forall d :: ReadyOn(v, ledger, d)
  }

  lemma DayStandsNarrow(v: View, ledger: Ledger, day: Day)
    requires HoldsTurns(v, ledger, day)
    ensures AllStandNarrow(NarrowTurns(v, day), ledger(day))
  {
  }

  ghost predicate StandIn(ts: seq<Turn>, originals: seq<Turn>) {
    AllStandNarrow(ts, originals) && forall t :: t in originals ==> Aggregates.Plain(t)
  }

  lemma StandInConcat(a: seq<Turn>, x: seq<Turn>, b: seq<Turn>, y: seq<Turn>)
    requires StandIn(a, x) && StandIn(b, y)
    ensures StandIn(a + b, x + y)
  {
    forall i | 0 <= i < |a + b| ensures StandsNarrow((a + b)[i], (x + y)[i]) {
      if i >= |a| {
        assert StandsNarrow(b[i - |a|], y[i - |a|]);
      }
    }
  }

  lemma OneMoreStands(s: Scan, a: seq<Turn>, x: seq<Turn>, t: Turn, original: Turn, id: string)
    requires StandIn(a, x) && StandsNarrow(t, original) && Aggregates.Plain(original)
    ensures StandIn(a + if Mine(s, id, t) then [t] else [], x + if Mine(s, id, original) then [original] else [])
  {
    NarrowSumsTheSame(NewSession(id), t, original);
    if Mine(s, id, t) {
      StandInConcat(a, x, [t], [original]);
    } else {
      StandInConcat(a, x, [], []);
    }
  }

  lemma {:induction false} FilterStands(s: Scan, ts: seq<Turn>, originals: seq<Turn>, id: string)
    requires AllStandNarrow(ts, originals) && Windows.PlainDay(originals)
    ensures StandIn(Sorting.Filter(ts, t => Mine(s, id, t)), Sorting.Filter(originals, t => Mine(s, id, t)))
    decreases |ts|
  {
    if ts != [] {
      var n := |ts| - 1;
      var mine := t => Mine(s, id, t);
      assert originals[n] in originals;
      FilterStands(s, ts[..n], originals[..n], id);
      OneMoreStands(s, Sorting.Filter(ts[..n], mine), Sorting.Filter(originals[..n], mine), ts[n], originals[n], id);
    }
  }

  lemma OnDayStands(v: View, s: Scan, ledger: Ledger, day: Day, id: string)
    requires ReadyOn(v, ledger, day) && s.read(day) == NarrowTurns(v, day)
    ensures StandIn(OnDay(s, day, id), OnDay(Raw(s, ledger), day, id))
  {
    DayStandsNarrow(v, ledger, day);
    FilterStands(s, NarrowTurns(v, day), ledger(day), id);
    SameMine(s, Raw(s, ledger), ledger(day), id);
  }

  lemma {:induction false} SeenStands(s: Scan, ledger: Ledger, n: nat, id: string)
    requires forall d :: StandIn(OnDay(s, d, id), OnDay(Raw(s, ledger), d, id))
    ensures StandIn(Seen(s, n, id), Seen(Raw(s, ledger), n, id))
    decreases n
  {
    if n > 0 {
      var day := DayOf(s.to) - (n - 1);
      SeenStands(s, ledger, n - 1, id);
      StandInConcat(Seen(s, n - 1, id), Seen(Raw(s, ledger), n - 1, id), OnDay(s, day, id),
        OnDay(Raw(s, ledger), day, id));
    }
  }

  lemma {:induction false} SameMine(s: Scan, r: Scan, turns: seq<Turn>, id: string)
    requires s.from == r.from && s.to == r.to
    ensures Sorting.Filter(turns, t => Mine(s, id, t)) == Sorting.Filter(turns, t => Mine(r, id, t))
  {
    if turns != [] {
      SameMine(s, r, turns[..|turns| - 1], id);
    }
  }

  // ---------------------------------------------------------------------------------------------
  // Newest day first or oldest day first, the same sessions
  // ---------------------------------------------------------------------------------------------

  lemma Regroup<T>(a: seq<T>, b: seq<T>, c: seq<T>)
    ensures a + (b + c) == (a + b) + c && a + [] == a && [] + a == a
  {
  }

  lemma {:induction false} InDaysFront(ledger: Ledger, from: Instant, to: Instant, first: Day, n: nat)
    requires n > 0
    ensures InDays(ledger, from, to, first, n)
         == Trim(from, to, ledger(first)) + InDays(ledger, from, to, first + 1, n - 1)
    decreases n
  {
    var head := Trim(from, to, ledger(first));
    if n == 1 {
      Regroup(head, [], []);
    } else {
      InDaysFront(ledger, from, to, first, n - 1);
      Regroup(head, InDays(ledger, from, to, first + 1, n - 2), Trim(from, to, ledger(first + n - 1)));
    }
  }

  lemma {:induction false} PartOfTrim(s: Scan, turns: seq<Turn>, id: string)
    ensures Part(Trim(s.from, s.to, turns), id) == Sorting.Filter(turns, t => Mine(s, id, t))
  {
    if turns != [] {
      var init, last := turns[..|turns| - 1], turns[|turns| - 1];
      PartOfTrim(s, init, id);
      var trimmed := Trim(s.from, s.to, init);
      Sorting.FilterConcat(trimmed, if Within(s.from, s.to, last) then [last] else [],
                           (t: Turn) => t.SessionID() == id);
      assert [last][..0] == [];
    }
  }

  /** The session's turns of some days, oldest first. */
  function Forwards(s: Scan, first: Day, n: nat, id: string): seq<Turn> {
    Part(InDays(s.read, s.from, s.to, first, n), id)
  }

  lemma ForwardsFront(s: Scan, first: Day, n: nat, id: string)
    requires n > 0
    ensures Forwards(s, first, n, id) == OnDay(s, first, id) + Forwards(s, first + 1, n - 1, id)
  {
    InDaysFront(s.read, s.from, s.to, first, n);
    Sorting.FilterConcat(Trim(s.from, s.to, s.read(first)), InDays(s.read, s.from, s.to, first + 1, n - 1),
                         (t: Turn) => t.SessionID() == id);
    PartOfTrim(s, s.read(first), id);
  }

  lemma OldestSeenLast(s: Scan, first: Day, n: nat, id: string)
    requires n > 0 && first + n == DayOf(s.to) + 1
    ensures Seen(s, n, id) == Seen(s, n - 1, id) + OnDay(s, first, id)
  {
    assert DayOf(s.to) - (n - 1) == first;
  }

  lemma {:induction false} BackwardsSums(s: Scan, first: Day, n: nat, id: string, x: Session)
    requires first + n == DayOf(s.to) + 1
    ensures Sum(x, Seen(s, n, id)) == Sum(x, Forwards(s, first, n, id))
    decreases n
  {
    if n > 0 {
      BackwardsSums(s, first + 1, n - 1, id, Sum(x, OnDay(s, first, id)));
      ForwardsFront(s, first, n, id);
      OldestSeenLast(s, first, n, id);
      MovedToTheFront(x, OnDay(s, first, id), Seen(s, n - 1, id), Forwards(s, first + 1, n - 1, id));
    }
  }

  lemma MovedToTheFront(x: Session, older: seq<Turn>, newer: seq<Turn>, newest: seq<Turn>)
    requires Sum(Sum(x, older), newer) == Sum(Sum(x, older), newest)
    ensures Sum(x, newer + older) == Sum(x, older + newest)
  {
    SumSwaps(x, newer, older);
    SumConcat(x, older, newer);
    SumConcat(x, older, newest);
  }

  lemma WholeStands(v: View, ledger: Ledger, s: Scan, id: string)
    requires TurnsReady(v, ledger) && forall d :: s.read(d) == NarrowTurns(v, d)
    ensures SessionOf(s, id) == SessionOf(Raw(s, ledger), id)
  {
    forall d ensures StandIn(OnDay(s, d, id), OnDay(Raw(s, ledger), d, id)) {
      assert ReadyOn(v, ledger, d);
      OnDayStands(v, s, ledger, d, id);
    }
    SeenStands(s, ledger, AllDays(s), id);
    NarrowSummary(NewSession(id), Whole(s, id), Whole(Raw(s, ledger), id));
  }

  lemma SessionIsItsWindow(s: Scan, id: string)
    requires s.from <= s.to
    ensures SessionOf(s, id) == Summary(id, Part(InWindow(s.read, s.from, s.to), id))
  {
    DaysAreOrdered(s.from, s.to);
    BackwardsSums(s, DayOf(s.from), AllDays(s), id, NewSession(id));
  }

  /** A listed session is what summing its turns of the window, as they were folded, comes to: however
      its days were stored, and although they were met newest first. */
  lemma SessionIsRaw(v: View, ledger: Ledger, from: Instant, to: Instant, id: string)
    requires TurnsReady(v, ledger)
    ensures var s := ScanOf(v, from, to);
            SessionOf(s, id) == Summary(id, Part(InWindow(ledger, s.from, s.to), id))
  {
    var s := ScanOf(v, from, to);
    WholeStands(v, ledger, s, id);
    SessionIsItsWindow(Raw(s, ledger), id);
  }

  // ---------------------------------------------------------------------------------------------
  // The whole list
  // ---------------------------------------------------------------------------------------------

  /** The sessions that have a turn in the window. */
  function InWindowIDs(s: Scan): set<string> {
    Windows.IDs(InWindow(s.read, s.from, s.to))
  }

  lemma SessionsArePresent(s: Scan, id: string)
    requires s.from <= s.to
    ensures id in InWindowIDs(s) <==> Present(s, id)
  {
    var turns := InWindow(s.read, s.from, s.to);
    DaysAreOrdered(s.from, s.to);
    if id in InWindowIDs(s) {
      var t :| t in turns && t.SessionID() == id;
      InDaysIn(s.read, s.from, s.to, DayOf(s.from), AllDays(s), t);
      SeenIn(s, AllDays(s), id, t);
    }
    if Present(s, id) {
      var t := Whole(s, id)[0];
      SeenIn(s, AllDays(s), id, t);
      InDaysIn(s.read, s.from, s.to, DayOf(s.from), AllDays(s), t);
    }
  }

  ghost function ListOf(s: Scan): seq<Session> {
    Sorting.SortBy(Sorting.Map(id => SessionOf(s, id), Ascending(InWindowIDs(s))), Newer)
  }

  /** One session for each id, in the order of the ids. */
  ghost predicate OneEach(s: Scan, ids: seq<string>, gathered: seq<Session>) {
    && |gathered| == |ids| && (forall i :: 0 <= i < |ids| ==>
       gathered[i] == SessionOf(s, ids[i]) && gathered[i].id == ids[i])
    && (forall i, j :: 0 <= i < j < |ids| ==> ids[i] != ids[j])
  }

  lemma GatheredIn(s: Scan, ids: seq<string>, gathered: seq<Session>, x: Session)
    requires OneEach(s, ids, gathered)
    ensures x in gathered <==> x.id in ids && x == SessionOf(s, x.id)
  {
    if x.id in ids && x == SessionOf(s, x.id) {
      var i :| 0 <= i < |ids| && ids[i] == x.id;
      assert gathered[i] == x;
    }
  }

  lemma SortedDescends(gathered: seq<Session>)
    requires forall i, j :: 0 <= i < j < |gathered| ==> gathered[i].id != gathered[j].id
    ensures Descending(Sorting.SortBy(gathered, Newer))
  {
    var list, key := Sorting.SortBy(gathered, Newer), (x: Session) => x.id;
    NewerIsStrict();
    Sorting.SortSorts(gathered, Newer);
    DistinctKeys(gathered, list, key);
    forall i, j | 0 <= i < j < |list| ensures Newer(list[i], list[j]) {
      assert key(list[i]) != key(list[j]);
      NewerIsTotal(list[i], list[j]);
    }
  }

  lemma IDsAreDistinct(ids: set<string>)
    ensures forall i, j :: 0 <= i < j < |Ascending(ids)| ==> Ascending(ids)[i] != Ascending(ids)[j]
  {
    AscendingHolds(ids);
    forall i, j | 0 <= i < j < |Ascending(ids)| ensures Ascending(ids)[i] != Ascending(ids)[j] {
      Sorting.LessIsTotal(Ascending(ids)[i], Ascending(ids)[j]);
    }
  }

  lemma GatheredOneEach(s: Scan, ids: seq<string>)
    requires forall i, j :: 0 <= i < j < |ids| ==> ids[i] != ids[j]
    ensures OneEach(s, ids, Sorting.Map(id => SessionOf(s, id), ids))
  {
    forall i | 0 <= i < |ids| ensures SessionOf(s, ids[i]).id == ids[i] {
      SummaryHasID(ids[i], Whole(s, ids[i]));
    }
  }

  /** There always is a whole list. */
  lemma ListingExists(s: Scan)
    requires s.from <= s.to
    ensures Listing(s, ListOf(s))
  {
    var ids := Ascending(InWindowIDs(s));
    var gathered := Sorting.Map(id => SessionOf(s, id), ids);
    AscendingHolds(InWindowIDs(s));
    IDsAreDistinct(InWindowIDs(s));
    GatheredOneEach(s, ids);
    SortedDescends(gathered);
    forall x ensures x in ListOf(s) <==> Present(s, x.id) && x == SessionOf(s, x.id) {
      Sorting.SortMembers(gathered, Newer, x);
      SessionsArePresent(s, x.id);
      GatheredIn(s, ids, gathered, x);
    }
  }
}
