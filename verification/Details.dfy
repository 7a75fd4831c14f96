/** One session with its turns (SessionDetail and daysHolding in internal/compact/page.go): only the days
    that may hold it are read, idle gaps and all, and nothing of it is missed. */
module Details {
  import opened Archive
  import opened Events
  import opened Fold
  import opened Listings
  import opened Paging
  import opened Reading
  import opened Rollup
  import opened Sessions
  import opened Tables
  import Growth
  import Sorting
  import Windows

  /** A day is passed over only if it is compacted, the index covers it, and the index does not place the
      session on it. */
  predicate MayHold(v: View, id: string, day: Day) {
    v.idx.None? || !Compacted(v.parts, day) || day !in v.idx.value.days || day in DaysFor(v.idx, id)
  }

  /** The days among the `n` from `first` on that are read. */
  function DaysWhere(isRead: Day -> bool, first: Day, n: nat): seq<Day> {
    if n == 0 then []
    else DaysWhere(isRead, first, n - 1) + if isRead(first + n - 1) then [first + n - 1] else []
  }

  function Holding(v: View, id: string): Day -> bool {
    d => MayHold(v, id, d)
  }

  method ListHolding(v: View, id: string, from: Instant, to: Instant) returns (days: seq<Day>)
    ensures days == DaysWhere(Holding(v, id), DayOf(from), DaysIn(from, to))
  {
    var first := DayOf(from);
    days := [];
    for n := 0 to DaysIn(from, to)
      invariant days == DaysWhere(Holding(v, id), first, n)
    {
      var day := first + n;
      if v.idx.None? || !Compacted(v.parts, day) {
        days := days + [day];
      } else if day !in v.idx.value.days {
        // compacted but not yet in the index: it cannot be ruled out
        days := days + [day];
      } else if day in DaysFor(v.idx, id) {
        days := days + [day];
      }
    }
  }

  // ---------------------------------------------------------------------------------------------
  // A day that is passed over holds nothing
  // ---------------------------------------------------------------------------------------------

  /** A day's rollup names exactly the sessions that have a turn on it. */
  lemma SessionRowsName(day: Day, turns: seq<Turn>, id: string)
    ensures NamesSession(SummaryOf(day, turns).sessions, id) <==> id in Windows.IDs(turns)
  {
    var c := CountAll(day, turns);
    CountFiles(day, turns);
    Windows.SessionsCounted(day, turns);
    RowsAreSorted(c.sessions, (r: SessionDayRow) => r.sessionID);
    if id in c.sessions {
      assert EntryOf(c.sessions, c.sessions.Keys, (r: SessionDayRow) => r.sessionID, c.sessions[id]);
      assert c.sessions[id] in Rows(c.sessions);
    }
  }

  /** No day is passed over that holds a turn of the session. */
  ghost predicate NeverPassesOver(v: View, ledger: Ledger, id: string) {
    forall d :: id in Windows.IDs(ledger(d)) ==> MayHold(v, id, d)
  }

  /** A day that the index covers with the sessions of all its turns is never passed over wrongly. */
  lemma CoveredDayIsNamed(v: View, ledger: Ledger, id: string, day: Day)
    requires v.idx.Some? && Table(v.idx.value.sessions, day) == SummaryOf(day, ledger(day)).sessions
    requires id in Windows.IDs(ledger(day))
    ensures MayHold(v, id, day)
  {
    SessionRowsName(day, ledger(day), id);
  }

  lemma NoPartOfOthers(turns: seq<Turn>, id: string)
    requires id !in Windows.IDs(turns)
    ensures Part(turns, id) == []
  {
    if Part(turns, id) != [] {
      Sorting.FilterIn(turns, (u: Turn) => u.SessionID() == id, Part(turns, id)[0]);
    }
  }

  // ---------------------------------------------------------------------------------------------
  // Gathering and ordering
  // ---------------------------------------------------------------------------------------------

  /** The session's turns among these, in the window. */
  function Chosen(from: Instant, to: Instant, turns: seq<Turn>, id: string): seq<Turn> {
    Part(Trim(from, to, turns), id)
  }

  lemma ChosenLast(from: Instant, to: Instant, turns: seq<Turn>, id: string)
    requires turns != []
    ensures var init, last := turns[..|turns| - 1], turns[|turns| - 1];
            Chosen(from, to, turns, id) ==
              Chosen(from, to, init, id) + if last.SessionID() == id && Within(from, to, last) then [last] else []
  {
    var init, last := turns[..|turns| - 1], turns[|turns| - 1];
    assert turns == init + [last];
    Windows.TrimOneMore(from, to, init, last);
    PartOneMore(Trim(from, to, init), last, id);
  }

  lemma PartOneMore(turns: seq<Turn>, t: Turn, id: string)
    ensures Part(turns + [t], id) == Part(turns, id) + if t.SessionID() == id then [t] else []
    ensures turns + [] == turns
  {
    assert (turns + [t])[..|turns|] == turns;
  }

  lemma ChosenIsTheirs(from: Instant, to: Instant, turns: seq<Turn>, id: string)
    ensures forall t :: t in Chosen(from, to, turns, id) <==>
              t in turns && from <= t.StartedAt() <= to && t.SessionID() == id
  {
    forall t ensures t in Chosen(from, to, turns, id) <==>
        t in turns && from <= t.StartedAt() <= to && t.SessionID() == id {
      TrimIn(from, to, turns, t);
      Sorting.FilterIn(Trim(from, to, turns), (u: Turn) => u.SessionID() == id, t);
    }
  }

  /** The session's turns of some days, in the window. */
  function Found(read: Ledger, from: Instant, to: Instant, id: string, days: seq<Day>): seq<Turn> {
    if days == [] then []
    else Found(read, from, to, id, days[..|days| - 1]) + Chosen(from, to, read(days[|days| - 1]), id)
  }

  method Find(v: View, from: Instant, to: Instant, id: string, days: seq<Day>) returns (found: seq<Turn>)
    ensures found == Found(d => TurnsForDay(v, d), from, to, id, days)
  {
    found := [];
    for i := 0 to |days|
      invariant found == Found(d => TurnsForDay(v, d), from, to, id, days[..i])
    {
      assert days[..i + 1][..i] == days[..i];
      var part := FindOn(TurnsForDay(v, days[i]), from, to, id);
      found := found + part;
    }
    assert days[..|days|] == days;
  }

  method FindOn(turns: seq<Turn>, from: Instant, to: Instant, id: string) returns (part: seq<Turn>)
    ensures part == Chosen(from, to, turns, id)
  {
    part := [];
    for i := 0 to |turns|
      invariant part == Chosen(from, to, turns[..i], id)
    {
      var t := turns[i];
      assert turns[..i + 1][..i] == turns[..i];
      ChosenLast(from, to, turns[..i + 1], id);
      if t.SessionID() == id && from <= t.StartedAt() <= to {
        part := part + [t];
      }
    }
    assert turns[..|turns|] == turns;
  }

  lemma FoundOneMore(read: Ledger, from: Instant, to: Instant, id: string, days: seq<Day>, day: Day)
    ensures Found(read, from, to, id, days + [day]) == Found(read, from, to, id, days) + Chosen(from, to, read(day), id)
  {
    assert (days + [day])[..|days|] == days;
  }

  lemma PartLastDay(ledger: Ledger, from: Instant, to: Instant, id: string, first: Day, n: nat)
    requires n > 0
    ensures Part(InDays(ledger, from, to, first, n), id)
         == Part(InDays(ledger, from, to, first, n - 1), id) + Chosen(from, to, ledger(first + n - 1), id)
  {
    Sorting.FilterConcat(InDays(ledger, from, to, first, n - 1), Trim(from, to, ledger(first + n - 1)),
      (t: Turn) => t.SessionID() == id);
  }

  lemma PassedOverAddsNothing(v: View, ledger: Ledger, from: Instant, to: Instant, id: string, day: Day)
    requires NeverPassesOver(v, ledger, id) && !MayHold(v, id, day)
    ensures Chosen(from, to, ledger(day), id) == []
  {
    NoPartOfOthers(ledger(day), id);
    NoneOfNone(from, to, ledger(day), id);
  }

  ghost predicate HoldsAllTurns(v: View, ledger: Ledger) {
    forall d :: HoldsTurns(v, ledger, d)
  }

  lemma HoldsOne(v: View, ledger: Ledger, day: Day)
    requires HoldsAllTurns(v, ledger)
    ensures HoldsTurns(v, ledger, day)
  {
  }

  lemma LastDayFound(isRead: Day -> bool, ledger: Ledger, from: Instant, to: Instant, id: string, first: Day, n: nat)
    requires n > 0 && (!isRead(first + n - 1) ==> Chosen(from, to, ledger(first + n - 1), id) == [])
    ensures Found(ledger, from, to, id, DaysWhere(isRead, first, n))
         == Found(ledger, from, to, id, DaysWhere(isRead, first, n - 1)) + Chosen(from, to, ledger(first + n - 1), id)
  {
    var before := DaysWhere(isRead, first, n - 1);
    Regroup(before, [], []);
    FoundOneMore(ledger, from, to, id, before, first + n - 1);
    Regroup(Found(ledger, from, to, id, before), [], []);
  }

  /** Going through the days that are read is going through all days, when those left out hold nothing. */
  lemma {:induction false} NothingMissed(isRead: Day -> bool, ledger: Ledger, from: Instant, to: Instant,
          id: string, first: Day, n: nat)
    requires forall d :: !isRead(d) ==> Chosen(from, to, ledger(d), id) == []
    ensures Found(ledger, from, to, id, DaysWhere(isRead, first, n)) == Part(InDays(ledger, from, to, first, n), id)
    decreases n
  {
    if n > 0 {
      NothingMissed(isRead, ledger, from, to, id, first, n - 1);
      PartLastDay(ledger, from, to, id, first, n);
      LastDayFound(isRead, ledger, from, to, id, first, n);
    }
  }

  lemma NoneOfNone(from: Instant, to: Instant, turns: seq<Turn>, id: string)
    requires Part(turns, id) == []
    ensures Part(Trim(from, to, turns), id) == []
  {
    var part := Part(Trim(from, to, turns), id);
    if part != [] {
      Sorting.FilterIn(Trim(from, to, turns), (u: Turn) => u.SessionID() == id, part[0]);
      TrimIn(from, to, turns, part[0]);
      Sorting.FilterIn(turns, (u: Turn) => u.SessionID() == id, part[0]);
    }
  }

  // ---------------------------------------------------------------------------------------------
  // Turns from rows stand for the turns themselves
  // ---------------------------------------------------------------------------------------------

  lemma {:induction false} ChosenStands(from: Instant, to: Instant, ts: seq<Turn>, originals: seq<Turn>, id: string)
    requires AllStand(ts, originals)
    ensures AllStand(Chosen(from, to, ts, id), Chosen(from, to, originals, id))
    decreases |ts|
  {
    if ts != [] {
      var n := |ts| - 1;
      var t, original := ts[n], originals[n];
      ChosenStands(from, to, ts[..n], originals[..n], id);
      StandsAlike(t, original);
      ChosenLast(from, to, ts, id);
      ChosenLast(from, to, originals, id);
    }
  }

  lemma AllStandConcat(a: seq<Turn>, x: seq<Turn>, b: seq<Turn>, y: seq<Turn>)
    requires AllStand(a, x) && AllStand(b, y)
    ensures AllStand(a + b, x + y)
  {
    forall i | 0 <= i < |a + b| ensures Stands((a + b)[i], (x + y)[i]) {
      if i >= |a| {
        assert Stands(b[i - |a|], y[i - |a|]);
      }
    }
  }

  lemma {:induction false} FoundStands(read: Ledger, ledger: Ledger, from: Instant, to: Instant, id: string,
          days: seq<Day>)
    requires forall d :: AllStand(read(d), ledger(d))
    ensures AllStand(Found(read, from, to, id, days), Found(ledger, from, to, id, days))
  {
    if days != [] {
      var init, day := days[..|days| - 1], days[|days| - 1];
      FoundStands(read, ledger, from, to, id, init);
      ChosenStands(from, to, read(day), ledger(day), id);
      AllStandConcat(Found(read, from, to, id, init), Found(ledger, from, to, id, init),
                     Chosen(from, to, read(day), id), Chosen(from, to, ledger(day), id));
    }
  }

  lemma {:induction false} InsertStands(xs: seq<Turn>, ys: seq<Turn>, x: Turn, y: Turn)
    requires AllStand(xs, ys) && Stands(x, y)
    ensures AllStand(Sorting.InsertBy(xs, x, StartsBefore), Sorting.InsertBy(ys, y, StartsBefore))
    decreases |xs|
  {
    StandsAlike(x, y);
    if xs == [] {
      AllStandConcat(xs, ys, [x], [y]);
    } else {
      var n := |xs| - 1;
      StandsAlike(xs[n], ys[n]);
      if StartsBefore(x, xs[n]) {
        InsertStands(xs[..n], ys[..n], x, y);
        AllStandConcat(Sorting.InsertBy(xs[..n], x, StartsBefore), Sorting.InsertBy(ys[..n], y, StartsBefore),
          [xs[n]], [ys[n]]);
      } else {
        AllStandConcat(xs, ys, [x], [y]);
      }
    }
  }

  lemma {:induction false} SortStands(xs: seq<Turn>, ys: seq<Turn>)
    requires AllStand(xs, ys)
    ensures AllStand(Sorting.SortBy(xs, StartsBefore), Sorting.SortBy(ys, StartsBefore))
    decreases |xs|
  {
    if xs != [] {
      var n := |xs| - 1;
      SortStands(xs[..n], ys[..n]);
      InsertStands(Sorting.SortBy(xs[..n], StartsBefore), Sorting.SortBy(ys[..n], StartsBefore), xs[n], ys[n]);
    }
  }

  /** The session's turns in the window, oldest first. */
  function TurnsOfSession(ledger: Ledger, from: Instant, to: Instant, id: string): seq<Turn> {
    Sorting.SortBy(Part(InWindow(ledger, from, to), id), StartsBefore)
  }

  /** What the days that are read yield. */
  function DetailOf(v: View, from: Instant, to: Instant, id: string): seq<Turn> {
    Sorting.SortBy(Found(d => TurnsForDay(v, d), from, to, id,
      DaysWhere(Holding(v, id), DayOf(from), DaysIn(from, to))), StartsBefore)
  }

  lemma DetailIsWhole(v: View, ledger: Ledger, from: Instant, to: Instant, id: string)
    requires HoldsAllTurns(v, ledger) && NeverPassesOver(v, ledger, id)
    ensures AllStand(DetailOf(v, from, to, id), TurnsOfSession(ledger, from, to, id))
  {
    var days := DaysWhere(Holding(v, id), DayOf(from), DaysIn(from, to));
    var found := Found(d => TurnsForDay(v, d), from, to, id, days);
    forall d ensures AllStand(TurnsForDay(v, d), ledger(d)) {
      HoldsOne(v, ledger, d);
      DayStands(v, ledger, d);
    }
    FoundStands(d => TurnsForDay(v, d), ledger, from, to, id, days);
    forall d | !Holding(v, id)(d) ensures Chosen(from, to, ledger(d), id) == [] {
      PassedOverAddsNothing(v, ledger, from, to, id, d);
    }
    NothingMissed(Holding(v, id), ledger, from, to, id, DayOf(from), DaysIn(from, to));
    SortStands(found, Part(InWindow(ledger, from, to), id));
  }

  /** A turn on a day that is passed over is missing from the detail of its own instant. */
  lemma PassedOverIsMissing(v: View, ledger: Ledger, day: Day, t: Turn)
    requires (forall d :: StartOn(ledger(d), d)) && t in ledger(day) && !MayHold(v, t.SessionID(), day)
    ensures var at, id := t.StartedAt(), t.SessionID();
            DetailOf(v, at, at, id) == [] && TurnsOfSession(ledger, at, at, id) != []
  {
    var at, id := t.StartedAt(), t.SessionID();
    assert StartOn(ledger(day), day);
    assert DayOf(at) == day && DaysIn(at, at) == 1;
    assert DaysWhere(Holding(v, id), day, 0) == [] && DaysWhere(Holding(v, id), day, 1) == [];
    SortLength(Found(d => TurnsForDay(v, d), at, at, id, []));
    InWindowIsAll(ledger, at, at, t, day);
    var all := InWindow(ledger, at, at);
    Sorting.FilterIn(all, (u: Turn) => u.SessionID() == id, t);
    SortLength(Part(all, id));
  }

  /** A conversation's detail is whole in every window if and only if no day is passed over that holds a turn
      of it. */
  lemma DetailIsWholeIff(v: View, ledger: Ledger, id: string)
    requires HoldsAllTurns(v, ledger) && forall d :: StartOn(ledger(d), d)
    ensures (forall from, to :: AllStand(DetailOf(v, from, to, id), TurnsOfSession(ledger, from, to, id)))
       <==> NeverPassesOver(v, ledger, id)
  {
    if NeverPassesOver(v, ledger, id) {
      forall from, to ensures AllStand(DetailOf(v, from, to, id), TurnsOfSession(ledger, from, to, id)) {
        DetailIsWhole(v, ledger, from, to, id);
      }
    } else {
      var d :| id in Windows.IDs(ledger(d)) && !MayHold(v, id, d);
      var t :| t in ledger(d) && t.SessionID() == id;
      PassedOverIsMissing(v, ledger, d, t);
      assert !AllStand(DetailOf(v, t.StartedAt(), t.StartedAt(), id),
          TurnsOfSession(ledger, t.StartedAt(), t.StartedAt(), id));
    }
  }

  lemma SortedFound(turns: seq<Turn>)
    ensures var sorted := Sorting.SortBy(turns, StartsBefore);
            && (forall i, j :: 0 <= i < j < |sorted| ==> sorted[i].StartedAt() <= sorted[j].StartedAt())
            && (forall t :: t in sorted <==> t in turns)
  {
    Growth.StartsAreOrdered();
    Sorting.SortSorts(turns, StartsBefore);
    forall t ensures t in Sorting.SortBy(turns, StartsBefore) <==> t in turns {
      Sorting.SortMembers(turns, StartsBefore, t);
    }
  }

  lemma {:induction false} FoundIsTheirs(read: Ledger, from: Instant, to: Instant, id: string, days: seq<Day>)
    ensures forall t :: t in Found(read, from, to, id, days) ==> from <= t.StartedAt() <= to && t.SessionID() == id
    decreases |days|
  {
    if days != [] {
      FoundIsTheirs(read, from, to, id, days[..|days| - 1]);
      ChosenIsTheirs(from, to, read(days[|days| - 1]), id);
    }
  }

  lemma SortLength(turns: seq<Turn>)
    ensures |Sorting.SortBy(turns, StartsBefore)| == |turns|
  {
    Growth.StartsAreOrdered();
    Sorting.SortSorts(turns, StartsBefore);
  }

  /** Every turn of the session in the window, across all days, in start order, although days the index
      rules out are not read. */
  method SessionDetail(v: View, from: Instant, to: Instant, id: string, ghost ledger: Ledger)
    returns (turns: seq<Turn>, ok: bool)
    ensures forall i, j :: 0 <= i < j < |turns| ==> turns[i].StartedAt() <= turns[j].StartedAt()
    ensures var lo, hi := if to < from then to else from, if to < from then from else to;
            && turns == DetailOf(v, lo, hi, id) && (ok <==> turns != [])
            && (forall t :: t in turns ==> lo <= t.StartedAt() <= hi && t.SessionID() == id)
            && (HoldsAllTurns(v, ledger) && NeverPassesOver(v, ledger, id) ==>
                  AllStand(turns, TurnsOfSession(ledger, lo, hi, id)))
  {
    var lo, hi := from, to;
    if to < from {
      lo, hi := to, from;
    }
    var days := ListHolding(v, id, lo, hi);
    var found := Find(v, lo, hi, id, days);
    if HoldsAllTurns(v, ledger) && NeverPassesOver(v, ledger, id) {
      DetailIsWhole(v, ledger, lo, hi, id);
    }
    turns := Sorting.SortBy(found, StartsBefore);
    ok := |found| != 0;
    SortLength(found);
    SortedFound(found);
    FoundIsTheirs(d => TurnsForDay(v, d), lo, hi, id, days);
  }
}
