/** The session list, a page at a time (internal/compact/page.go): days are walked backwards, a session is
    held back while an older day may still add to it, and the scan stops as soon as a page is full. */
module Paging {
  import opened Archive
  import opened Events
  import opened Fold
  import opened Reading
  import opened Sessions
  import Rollup
  import Sorting
  import Windows

  // ---------------------------------------------------------------------------------------------
  // A session's turns, as the scan meets them
  // ---------------------------------------------------------------------------------------------

  /** A listing request: which days, which instants, and the turns each day reads as. */
  datatype Scan = Scan(read: Ledger, idx: Option<Index>, from: Instant, to: Instant)

  /** sessionTurnsForDay */
  function NarrowTurns(v: View, day: Day): seq<Turn> {
    if Compacted(v.parts, day) then Sorting.Map(Narrow, PartOf(v.parts, day).turns.value) else v.built(day)
  }

  /** The request's window, whichever way round it was given. */
  function ScanOf(v: View, from: Instant, to: Instant): Scan {
    if to < from then Scan(d => NarrowTurns(v, d), v.idx, to, from) else Scan(d => NarrowTurns(v, d), v.idx, from, to)
  }

  predicate Mine(s: Scan, id: string, t: Turn) {
    Within(s.from, s.to, t) && t.SessionID() == id
  }

  function OnDay(s: Scan, day: Day, id: string): seq<Turn> {
    Sorting.Filter(s.read(day), t => Mine(s, id, t))
  }

  /** The session's turns on the `n` newest days of the window, newest day first. */
  function Seen(s: Scan, n: nat, id: string): seq<Turn> {
    if n == 0 then [] else Seen(s, n - 1, id) + OnDay(s, DayOf(s.to) - (n - 1), id)
  }

  function AllDays(s: Scan): nat {
    DaysIn(s.from, s.to)
  }

  /** All of the session's turns in the window. */
  function Whole(s: Scan, id: string): seq<Turn> {
    Seen(s, AllDays(s), id)
  }

  lemma OnDayIn(s: Scan, day: Day, id: string, t: Turn)
    ensures t in OnDay(s, day, id) <==> t in s.read(day) && Mine(s, id, t)
  {
    Sorting.FilterIn(s.read(day), u => Mine(s, id, u), t);
  }

  lemma {:induction false} SeenIn(s: Scan, n: nat, id: string, t: Turn)
    ensures t in Seen(s, n, id) <==> Mine(s, id, t) && exists d :: DayOf(s.to) - n < d <= DayOf(s.to) && t in s.read(d)
    decreases n
  {
    if n > 0 {
      SeenIn(s, n - 1, id, t);
      OnDayIn(s, DayOf(s.to) - (n - 1), id, t);
    }
  }

  // ---------------------------------------------------------------------------------------------
  // The oldest day a session is known to touch
  // ---------------------------------------------------------------------------------------------

  predicate NamesSession(rows: seq<Rollup.SessionDayRow>, id: string) {
    exists r :: r in rows && r.sessionID == id
  }

  /** index.daysFor */
  function DaysFor(idx: Option<Index>, id: string): set<Day> {
    if idx.None? then {} else set d | d in idx.value.sessions && NamesSession(idx.value.sessions[d], id)
  }

  ghost function OldestIndexed(idx: Option<Index>, id: string): Option<Day> {
    if DaysFor(idx, id) == {} then None else Some(InOrder(DaysFor(idx, id))[0])
  }

  lemma OldestIndexedIs(idx: Option<Index>, id: string, d: Day)
    requires d in DaysFor(idx, id)
    ensures OldestIndexed(idx, id).Some? && OldestIndexed(idx, id).value <= d
    ensures OldestIndexed(idx, id).value in DaysFor(idx, id)
  {
    var list := InOrder(DaysFor(idx, id));
    InOrderHolds(DaysFor(idx, id));
    assert d in list;
    assert list[0] in list;
  }

  /** earliestDay */
  function EarliestDay(turns: seq<Turn>): Day
    requires turns != []
  {
    var last := DayOf(turns[|turns| - 1].StartedAt());
    if |turns| == 1 then last
    else
      var rest := EarliestDay(turns[..|turns| - 1]);
      if last < rest then last else rest
  }

  lemma {:induction false} EarliestDayIs(turns: seq<Turn>)
    requires turns != []
    ensures exists t :: t in turns && DayOf(t.StartedAt()) == EarliestDay(turns)
    ensures forall t :: t in turns ==> EarliestDay(turns) <= DayOf(t.StartedAt())
  {
    var init, last := turns[..|turns| - 1], turns[|turns| - 1];
    assert last in turns && forall t :: t in init ==> t in turns;
    assert forall t :: t in turns ==> t in init || t == last;
    if |turns| > 1 {
      EarliestDayIs(init);
    }
  }

  /** oldestDay: what has been seen, pulled back to what the index knows. */
  ghost function OldestDay(idx: Option<Index>, id: string, seen: seq<Turn>): Day
    requires seen != []
  {
    var oldest := EarliestDay(seen);
    var indexed := OldestIndexed(idx, id);
    if indexed.Some? && indexed.value < oldest then indexed.value else oldest
  }

  // ---------------------------------------------------------------------------------------------
  // What the listing rests on
  // ---------------------------------------------------------------------------------------------

  /** Every turn is read on the day it starts, and the index places its session there unless that is the
      newest day that holds any turn. */
  predicate PlacedTurn(s: Scan, day: Day, t: Turn, newest: Day) {
    DayOf(t.StartedAt()) == day && day <= newest && (day < newest ==> day in DaysFor(s.idx, t.SessionID()))
  }

  ghost predicate Placed(s: Scan, newest: Day) {
    forall d, t :: t in s.read(d) ==> PlacedTurn(s, d, t, newest)
  }

  /** What has been met once `day` is read. */
  function MetBy(s: Scan, day: Day, id: string): seq<Turn>
    requires day <= DayOf(s.to) + 1
  {
    Seen(s, DayOf(s.to) + 1 - day, id)
  }

  lemma MetByIn(s: Scan, day: Day, id: string, t: Turn)
    requires day <= DayOf(s.to) + 1
    ensures t in MetBy(s, day, id) <==> Mine(s, id, t) && exists d :: day <= d <= DayOf(s.to) && t in s.read(d)
  {
    SeenIn(s, DayOf(s.to) + 1 - day, id, t);
  }

  /** The days a session has no turns on add nothing. */
  lemma {:induction false} NothingAdded(s: Scan, id: string, m: nat, n: nat)
    requires m <= n && forall d :: DayOf(s.to) - n < d <= DayOf(s.to) - m ==> OnDay(s, d, id) == []
    ensures Seen(s, n, id) == Seen(s, m, id)
    decreases n
  {
    if m < n {
      NothingAdded(s, id, m, n - 1);
      assert OnDay(s, DayOf(s.to) - (n - 1), id) == [];
    }
  }

  /** Once no known day of a session is left to read, all its turns have been met; and that is known from
      the turns met so far. */
  lemma NothingOlder(s: Scan, newest: Day, day: Day, id: string)
    requires Placed(s, newest) && day <= DayOf(s.to) + 1 && MetBy(s, day, id) != []
    requires OldestDay(s.idx, id, MetBy(s, day, id)) > day
    ensures forall d :: d <= day ==> OnDay(s, d, id) == []
  {
    var some := MetBy(s, day, id)[0];
    MetByIn(s, day, id, some);
    EarliestDayIs(MetBy(s, day, id));
    forall d | d <= day ensures OnDay(s, d, id) == [] {
      if OnDay(s, d, id) != [] {
        var t := OnDay(s, d, id)[0];
        OnDayIn(s, d, id, t);
        var e :| day <= e <= DayOf(s.to) && some in s.read(e);
        assert PlacedTurn(s, d, t, newest) && PlacedTurn(s, e, some, newest);
        if d < newest {
          OldestIndexedIs(s.idx, id, d);
        }
      }
    }
  }

  predicate Present(s: Scan, id: string) {
    Whole(s, id) != []
  }

  /** The oldest day a session is known to touch, knowing all its turns. */
  ghost function Known(s: Scan, id: string): Day
    requires Present(s, id)
  {
    OldestDay(s.idx, id, Whole(s, id))
  }

  /** The session moves on only when nothing of it is left to read: complete means whole. */
  lemma CompleteIsWhole(s: Scan, newest: Day, day: Day, id: string)
    requires Placed(s, newest) && DayOf(s.from) <= day <= DayOf(s.to) + 1 && MetBy(s, day, id) != []
    requires OldestDay(s.idx, id, MetBy(s, day, id)) > day
    ensures Whole(s, id) == MetBy(s, day, id) && Known(s, id) > day
  {
    NothingOlder(s, newest, day, id);
    NothingAdded(s, id, DayOf(s.to) + 1 - day, AllDays(s));
  }

  lemma KnownNoLater(s: Scan, newest: Day, d: Day, id: string)
    requires Placed(s, newest) && DayOf(s.from) <= d <= DayOf(s.to) && OnDay(s, d, id) != []
    ensures Present(s, id) && Known(s, id) <= d
  {
    var t := OnDay(s, d, id)[0];
    OnDayIn(s, d, id, t);
    SeenIn(s, AllDays(s), id, t);
    EarliestDayIs(Whole(s, id));
    assert PlacedTurn(s, d, t, newest);
  }

  /** A session whose oldest known day has been passed has been met in full. */
  lemma PassedIsMet(s: Scan, newest: Day, day: Day, id: string)
    requires Placed(s, newest) && DayOf(s.from) <= day <= DayOf(s.to) + 1
    requires Present(s, id) && Known(s, id) > day
    ensures MetBy(s, day, id) == Whole(s, id)
  {
    forall d | DayOf(s.from) <= d <= day && d <= DayOf(s.to) ensures OnDay(s, d, id) == [] {
      if OnDay(s, d, id) != [] {
        KnownNoLater(s, newest, d, id);
      }
    }
    NothingAdded(s, id, DayOf(s.to) + 1 - day, AllDays(s));
  }

  // ---------------------------------------------------------------------------------------------
  // One day of the scan
  // ---------------------------------------------------------------------------------------------

  type Pending = map<string, seq<Turn>>

  function TurnsFor(pending: Pending, id: string): seq<Turn> {
    if id in pending then pending[id] else []
  }

  /** The day's turns joined to those of their sessions. */
  ghost predicate Joins(s: Scan, pending: Pending, turns: seq<Turn>, merged: Pending, id: string) {
    var more := Sorting.Filter(turns, t => Mine(s, id, t));
    && TurnsFor(merged, id) == TurnsFor(pending, id) + more
    && (id in merged <==> id in pending || more != [])
  }

  lemma JoinOne(s: Scan, pending: Pending, turns: seq<Turn>, merged: Pending, t: Turn, id: string)
    requires Joins(s, pending, turns, merged, id)
    ensures var now := if Within(s.from, s.to, t)
                       then merged[t.SessionID() := TurnsFor(merged, t.SessionID()) + [t]] else merged;
            Joins(s, pending, turns + [t], now, id)
  {
    assert (turns + [t])[..|turns|] == turns;
  }

  method JoinDay(s: Scan, day: Day, pending: Pending) returns (merged: Pending)
    ensures forall id :: Joins(s, pending, s.read(day), merged, id)
  {
    var turns := s.read(day);
    merged := pending;
    for i := 0 to |turns|
      invariant forall id :: Joins(s, pending, turns[..i], merged, id)
    {
      var t := turns[i];
      ghost var was := merged;
      if Within(s.from, s.to, t) {
        merged := merged[t.SessionID() := TurnsFor(merged, t.SessionID()) + [t]];
      }
      ghost var done := turns[..i + 1];
      assert done == turns[..i] + [t];
      forall id ensures Joins(s, pending, done, merged, id) {
        JoinOne(s, pending, turns[..i], was, t, id);
      }
    }
    assert turns[..|turns|] == turns;
  }

  method EarliestIndexed(idx: Option<Index>, id: string) returns (d: Option<Day>)
    ensures d == OldestIndexed(idx, id)
  {
    var list := ListDays(DaysFor(idx, id));
    InOrderHolds(DaysFor(idx, id));
    if |list| == 0 {
      assert forall e :: e in DaysFor(idx, id) ==> e in list;
      d := None;
    } else {
      assert list[0] in list;
      d := Some(list[0]);
    }
  }

  method OldestDayOf(idx: Option<Index>, id: string, seen: seq<Turn>) returns (d: Day)
    requires seen != []
    ensures d == OldestDay(idx, id, seen)
  {
    d := EarliestDay(seen);
    var indexed := EarliestIndexed(idx, id);
    if indexed.Some? && indexed.value < d {
      d := indexed.value;
    }
  }

  predicate NoneEmpty(pending: Pending) {
    forall id :: id in pending ==> pending[id] != []
  }

  /** No older day can add to the session. */
  ghost predicate Ripe(s: Scan, day: Day, pending: Pending, id: string)
    requires NoneEmpty(pending)
  {
    id in pending && OldestDay(s.idx, id, pending[id]) > day
  }

  function Once(b: bool): nat {
    if b then 1 else 0
  }

  /** How often a session is added to the list by a settling of the sessions `among`. */
  ghost function Added(s: Scan, day: Day, pending: Pending, among: set<string>, keep: Session -> bool,
          x: Session): nat
    requires NoneEmpty(pending)
  {
    Once(x.id in among && Ripe(s, day, pending, x.id) && x == Summary(x.id, pending[x.id]) && keep(x))
  }

  ghost predicate Settled(s: Scan, day: Day, pending: Pending, among: set<string>, keep: Session -> bool,
          left: Pending, was: seq<Session>, now: seq<Session>)
    requires NoneEmpty(pending)
  {
    && (forall id :: id in left <==> id in pending && !(id in among && Ripe(s, day, pending, id)))
    && (forall id :: id in left ==> left[id] == pending[id])
    && (forall x :: multiset(now)[x] == multiset(was)[x] + Added(s, day, pending, among, keep, x))
  }

  lemma SummaryHasID(id: string, turns: seq<Turn>)
    ensures Summary(id, turns).id == id
  {
    SumKeepsID(NewSession(id), turns);
  }

  lemma {:induction false} SumKeepsID(x: Session, turns: seq<Turn>)
    ensures Sum(x, turns).id == x.id
  {
    if turns != [] {
      SumKeepsID(x, turns[..|turns| - 1]);
    }
  }

  lemma NothingSettled(s: Scan, day: Day, pending: Pending, keep: Session -> bool, complete: seq<Session>)
    requires NoneEmpty(pending)
    ensures Settled(s, day, pending, {}, keep, pending, complete, complete)
  {
  }

  /** One pending session: listed if it is wanted, once nothing older can be missing. */
  method SettleNext(s: Scan, day: Day, pending: Pending, ghost among: set<string>, keep: Session -> bool,
          left: Pending, ghost was: seq<Session>, now: seq<Session>, id: string)
    returns (nextLeft: Pending, next: seq<Session>)
    requires NoneEmpty(pending) && id in pending && id !in among
    requires Settled(s, day, pending, among, keep, left, was, now)
    ensures Settled(s, day, pending, among + {id}, keep, nextLeft, was, next)
  {
    nextLeft, next := left, now;
    var oldest := OldestDayOf(s.idx, id, pending[id]);
    if oldest > day {
      var x := Summarize(id, pending[id]);
      nextLeft := left - {id};
      if keep(x) {
        next := now + [x];
      }
    }
    SettleOne(s, day, pending, among, keep, left, was, now, id);
  }

  /** The source's range over the pending sessions, which deletes as it goes, in no particular order. */
  method Settle(s: Scan, day: Day, pending: Pending, keep: Session -> bool, complete: seq<Session>)
    returns (left: Pending, now: seq<Session>)
    requires NoneEmpty(pending)
    ensures Settled(s, day, pending, pending.Keys, keep, left, complete, now)
  {
    left, now := pending, complete;
    var todo := pending.Keys;
    ghost var among: set<string> := {};
    NothingSettled(s, day, pending, keep, complete);
    while todo != {}
      invariant todo + among == pending.Keys && todo !! among
      invariant Settled(s, day, pending, among, keep, left, complete, now)
      decreases |todo|
    {
      var id :| id in todo;
      left, now := SettleNext(s, day, pending, among, keep, left, complete, now, id);
      todo, among := todo - {id}, among + {id};
    }
    assert among == pending.Keys;
  }

  lemma SettleOne(s: Scan, day: Day, pending: Pending, among: set<string>, keep: Session -> bool,
          left: Pending, was: seq<Session>, now: seq<Session>, id: string)
    requires NoneEmpty(pending) && id in pending && id !in among
    requires Settled(s, day, pending, among, keep, left, was, now)
    ensures var ripe, x := Ripe(s, day, pending, id), Summary(id, pending[id]);
            Settled(s, day, pending, among + {id}, keep, if ripe then left - {id} else left, was,
                    if ripe && keep(x) then now + [x] else now)
  {
    var x := Summary(id, pending[id]);
    SummaryHasID(id, pending[id]);
    forall y ensures Added(s, day, pending, among + {id}, keep, y)
                  == Added(s, day, pending, among, keep, y) + Once(Ripe(s, day, pending, id) && keep(x) && y == x)
    {
    }
    assert multiset(now + [x]) == multiset(now) + multiset{x};
  }

  // ---------------------------------------------------------------------------------------------
  // Where the scan stands
  // ---------------------------------------------------------------------------------------------

  /** A session of the window, in full. */
  function SessionOf(s: Scan, id: string): Session {
    Summary(id, Whole(s, id))
  }

  /** Whether a session has been listed once every day from `day` on is read. */
  ghost predicate Listed(s: Scan, day: Day, keep: Session -> bool, x: Session) {
    Present(s, x.id) && Known(s, x.id) > day && x == SessionOf(s, x.id) && keep(x)
  }

  ghost predicate HeldBack(s: Scan, day: Day, pending: Pending, id: string)
    requires day <= DayOf(s.to) + 1
  {
    var met := MetBy(s, day, id);
    && (id in pending <==> met != [] && OldestDay(s.idx, id, met) <= day)
    && (id in pending ==> pending[id] == met)
  }

  ghost predicate At(s: Scan, day: Day, pending: Pending, keep: Session -> bool, complete: seq<Session>)
    requires day <= DayOf(s.to) + 1
  {
    && (forall id :: HeldBack(s, day, pending, id))
    && (forall x :: multiset(complete)[x] == Once(Listed(s, day, keep, x)))
  }

  lemma AtTheStart(s: Scan, newest: Day, keep: Session -> bool)
    requires Placed(s, newest) && DayOf(s.from) <= DayOf(s.to)
    ensures At(s, DayOf(s.to) + 1, map[], keep, [])
  {
    var start := DayOf(s.to) + 1;
    forall x ensures !Listed(s, start, keep, x) {
      if Present(s, x.id) && Known(s, x.id) > start {
        DaysAreOrdered(s.from, s.to);
        PassedIsMet(s, newest, start, x.id);
      }
    }
  }

  /** Reading one more day adds to a session that is still held back, and to no other. */
  lemma JoiningIsMeeting(s: Scan, newest: Day, day: Day, pending: Pending, merged: Pending, id: string)
    requires Placed(s, newest) && day <= DayOf(s.to)
    requires HeldBack(s, day + 1, pending, id) && Joins(s, pending, s.read(day), merged, id)
    ensures id in merged ==> merged[id] == MetBy(s, day, id) && merged[id] != []
    ensures id !in merged && MetBy(s, day, id) != [] ==>
              MetBy(s, day, id) == MetBy(s, day + 1, id) && OldestDay(s.idx, id, MetBy(s, day, id)) > day + 1
    ensures id in merged && MetBy(s, day + 1, id) != [] ==> OldestDay(s.idx, id, MetBy(s, day + 1, id)) <= day + 1
  {
    var n := DayOf(s.to) + 1 - day;
    assert MetBy(s, day, id) == MetBy(s, day + 1, id) + OnDay(s, day, id);
    if MetBy(s, day + 1, id) != [] && OldestDay(s.idx, id, MetBy(s, day + 1, id)) > day + 1 {
      NothingOlder(s, newest, day + 1, id);
      assert OnDay(s, day, id) == [];
    }
  }

  lemma HoldingOn(s: Scan, newest: Day, day: Day, pending: Pending, merged: Pending, left: Pending, id: string)
    requires Placed(s, newest) && day <= DayOf(s.to) && NoneEmpty(merged)
    requires HeldBack(s, day + 1, pending, id) && Joins(s, pending, s.read(day), merged, id)
    requires id in left <==> id in merged && !Ripe(s, day, merged, id)
    requires id in left ==> left[id] == merged[id]
    ensures HeldBack(s, day, left, id)
  {
    JoiningIsMeeting(s, newest, day, pending, merged, id);
  }

  /** A session that this day completes was not complete before. */
  lemma CompletedNow(s: Scan, newest: Day, day: Day, pending: Pending, merged: Pending, id: string)
    requires Placed(s, newest) && DayOf(s.from) <= day <= DayOf(s.to) && NoneEmpty(merged)
    requires HeldBack(s, day + 1, pending, id) && Joins(s, pending, s.read(day), merged, id)
    requires id in merged && OldestDay(s.idx, id, merged[id]) > day
    ensures Present(s, id) && Known(s, id) == day + 1 && Whole(s, id) == merged[id]
  {
    JoiningIsMeeting(s, newest, day, pending, merged, id);
    CompleteIsWhole(s, newest, day, id);
    if Known(s, id) > day + 1 {
      PassedIsMet(s, newest, day + 1, id);
    }
  }

  /** Any other session that is complete by now was complete before. */
  lemma CompletedBefore(s: Scan, newest: Day, day: Day, pending: Pending, merged: Pending, id: string)
    requires Placed(s, newest) && DayOf(s.from) <= day <= DayOf(s.to) && NoneEmpty(merged)
    requires HeldBack(s, day + 1, pending, id) && Joins(s, pending, s.read(day), merged, id)
    requires id in merged ==> OldestDay(s.idx, id, merged[id]) <= day
    ensures Present(s, id) && Known(s, id) > day ==> Known(s, id) > day + 1
  {
    if Present(s, id) && Known(s, id) > day {
      PassedIsMet(s, newest, day, id);
      JoiningIsMeeting(s, newest, day, pending, merged, id);
    }
  }

  lemma ListedNow(s: Scan, day: Day, merged: Pending, keep: Session -> bool, x: Session)
    requires NoneEmpty(merged) && Ripe(s, day, merged, x.id)
    requires Present(s, x.id) && Known(s, x.id) == day + 1 && Whole(s, x.id) == merged[x.id]
    ensures Once(Listed(s, day, keep, x))
         == Once(Listed(s, day + 1, keep, x)) + Added(s, day, merged, merged.Keys, keep, x)
  {
  }

  lemma ListedBefore(s: Scan, day: Day, merged: Pending, keep: Session -> bool, x: Session)
    requires NoneEmpty(merged) && !Ripe(s, day, merged, x.id)
    requires Present(s, x.id) && Known(s, x.id) > day ==> Known(s, x.id) > day + 1
    ensures Once(Listed(s, day, keep, x))
         == Once(Listed(s, day + 1, keep, x)) + Added(s, day, merged, merged.Keys, keep, x)
  {
  }

  /** What settling a day adds to the list is exactly what that day completes. */
  lemma ListingOn(s: Scan, newest: Day, day: Day, pending: Pending, merged: Pending, keep: Session -> bool, x: Session)
    requires Placed(s, newest) && DayOf(s.from) <= day <= DayOf(s.to) && NoneEmpty(merged)
    requires HeldBack(s, day + 1, pending, x.id) && Joins(s, pending, s.read(day), merged, x.id)
    ensures Once(Listed(s, day, keep, x))
         == Once(Listed(s, day + 1, keep, x)) + Added(s, day, merged, merged.Keys, keep, x)
  {
    if Ripe(s, day, merged, x.id) {
      CompletedNow(s, newest, day, pending, merged, x.id);
      ListedNow(s, day, merged, keep, x);
    } else {
      CompletedBefore(s, newest, day, pending, merged, x.id);
      ListedBefore(s, day, merged, keep, x);
    }
  }

  lemma DayRead(s: Scan, newest: Day, day: Day, pending: Pending, merged: Pending, left: Pending,
          keep: Session -> bool, was: seq<Session>, now: seq<Session>)
    requires Placed(s, newest) && DayOf(s.from) <= day <= DayOf(s.to) && NoneEmpty(merged)
    requires At(s, day + 1, pending, keep, was) && forall id :: Joins(s, pending, s.read(day), merged, id)
    requires Settled(s, day, merged, merged.Keys, keep, left, was, now)
    ensures At(s, day, left, keep, now)
  {
    forall id ensures HeldBack(s, day, left, id) {
      assert HeldBack(s, day + 1, pending, id);
      assert Joins(s, pending, s.read(day), merged, id);
      HoldingOn(s, newest, day, pending, merged, left, id);
    }
    forall x ensures multiset(now)[x] == Once(Listed(s, day, keep, x)) {
      assert HeldBack(s, day + 1, pending, x.id);
      assert Joins(s, pending, s.read(day), merged, x.id);
      ListingOn(s, newest, day, pending, merged, keep, x);
    }
  }

  // ---------------------------------------------------------------------------------------------
  // The order of the list
  // ---------------------------------------------------------------------------------------------

  /** Latest end first, the id breaking ties. */
  predicate Newer(a: Session, b: Session) {
    a.endedAt > b.endedAt || (a.endedAt == b.endedAt && Sorting.Less(b.id, a.id))
  }

  lemma NewerIsTotal(a: Session, b: Session)
    ensures !(Newer(a, b) && Newer(b, a))
    ensures a.id != b.id ==> Newer(a, b) || Newer(b, a)
    ensures a.id == b.id && a.endedAt == b.endedAt ==> !Newer(a, b)
  {
    Sorting.LessIsTotal(a.id, b.id);
  }

  lemma NewerIsTransitive(a: Session, b: Session, c: Session)
    requires Newer(a, b) && Newer(b, c)
    ensures Newer(a, c)
  {
    if Sorting.Less(b.id, a.id) && Sorting.Less(c.id, b.id) {
      Sorting.LessIsTransitive(c.id, b.id, a.id);
    }
  }

  lemma NewerIsStrict()
    ensures Sorting.StrictWeak(Newer)
  {
    forall x, y, z
      ensures !Newer(x, x) && (Newer(x, y) && Newer(y, z) ==> Newer(x, z))
          && (Newer(x, z) ==> Newer(x, y) || Newer(y, z))
    {
      NewerIsTotal(x, x);
      NewerIsTotal(x, y);
      NewerIsTotal(y, z);
      if Newer(x, y) && Newer(y, z) {
        NewerIsTransitive(x, y, z);
      }
      if Newer(x, z) && Newer(y, x) {
        NewerIsTransitive(y, x, z);
      }
      if Newer(x, z) && x.id == y.id {
        Sorting.LessIsTotal(x.id, z.id);
      }
    }
  }

  ghost predicate Descending(xs: seq<Session>) {
    forall i, j :: 0 <= i < j < |xs| ==> Newer(xs[i], xs[j])
  }

  /** The whole unpaged list: every session of the window, in order. */
  ghost predicate Listing(s: Scan, all: seq<Session>) {
    && Descending(all)
    && forall x :: x in all <==> Present(s, x.id) && x == SessionOf(s, x.id)
  }

  lemma {:induction false} DescendingFilter(xs: seq<Session>, keep: Session -> bool)
    requires Descending(xs)
    ensures Descending(Sorting.Filter(xs, keep))
  {
    if xs != [] {
      var init, last := xs[..|xs| - 1], xs[|xs| - 1];
      DescendingFilter(init, keep);
      var kept := Sorting.Filter(init, keep);
      forall i | 0 <= i < |kept| ensures Newer(kept[i], last) {
        Sorting.FilterIn(init, keep, kept[i]);
      }
    }
  }

  /** A descending list holds nothing twice. */
  lemma {:induction false} OnceEach(xs: seq<Session>, x: Session)
    requires Descending(xs)
    ensures multiset(xs)[x] == Once(x in xs)
  {
    if xs != [] {
      var init, last := xs[..|xs| - 1], xs[|xs| - 1];
      OnceEach(init, x);
      Sorting.SplitLast(xs);
      if x in init && x == last {
        var i :| 0 <= i < |init| && init[i] == x;
        NewerIsTotal(xs[i], last);
      }
    }
  }

  /** Sorting any gathering of the right sessions gives the list. */
  lemma SortIsListing(gathered: seq<Session>, list: seq<Session>)
    requires Descending(list) && forall x :: multiset(gathered)[x] == Once(x in list)
    requires forall x, y :: x in list && y in list && x != y ==> x.id != y.id
    ensures Sorting.SortBy(gathered, Newer) == list
  {
    NewerIsStrict();
    Sorting.SortSorts(gathered, Newer);
    forall x ensures multiset(gathered)[x] == multiset(list)[x] {
      OnceEach(list, x);
    }
    assert multiset(gathered) == multiset(list);
    var sorted := Sorting.SortBy(gathered, Newer);
    forall x, y | x in sorted && y in sorted && x != y ensures Newer(x, y) || Newer(y, x) {
      assert x in multiset(sorted) && y in multiset(sorted);
      NewerIsTotal(x, y);
    }
    forall i, j | 0 <= i < j < |list| ensures !Newer(list[j], list[i]) {
      NewerIsTotal(list[i], list[j]);
    }
    Sorting.SortedIsUnique(sorted, list, Newer);
  }

  // ---------------------------------------------------------------------------------------------
  // Pages
  // ---------------------------------------------------------------------------------------------

  /** The last session of a page; an empty id is no cursor. */
  datatype Cursor = Cursor(endedAt: Instant, id: string)

  const NO_CURSOR := Cursor(ZERO_TIME, "")

  function CursorOf(x: Session): Cursor {
    Cursor(x.endedAt, x.id)
  }

  predicate After(c: Cursor, x: Session) {
    c.id == "" || (if x.endedAt == c.endedAt then Sorting.Less(x.id, c.id) else x.endedAt < c.endedAt)
  }

  /** What one request may list: what comes after its cursor and matches its filter. */
  function Wanted(c: Cursor, matches: Session -> bool): Session -> bool {
    x => After(c, x) && matches(x)
  }

  datatype Page = Page(sessions: seq<Session>, next: Option<Cursor>)

  /** A page cut from a list: as much as fits, and where to go on if there is more. */
  function PageOf(list: seq<Session>, limit: nat): Page
    requires limit > 0
  {
    if |list| > limit then Page(list[..limit], Some(CursorOf(list[limit - 1]))) else Page(list, None)
  }

  function LimitOf(limit: int): (n: nat)
    ensures n > 0
  {
    if limit <= 0 then 50 else limit
  }

  /** Whatever is still held back when no day is left is complete by definition. */
  method Flush(pending: Pending, keep: Session -> bool, complete: seq<Session>) returns (now: seq<Session>)
    ensures forall x :: multiset(now)[x] == multiset(complete)[x]
                        + Once(x.id in pending && x == Summary(x.id, pending[x.id]) && keep(x))
  {
    now := complete;
    var todo := pending.Keys;
    while todo != {}
      invariant todo <= pending.Keys
      invariant forall x :: multiset(now)[x] == multiset(complete)[x]
                            + Once(x.id in pending.Keys - todo && x == Summary(x.id, pending[x.id]) && keep(x))
      decreases |todo|
    {
      var id :| id in todo;
      var x := Summarize(id, pending[id]);
      SummaryHasID(id, pending[id]);
      ghost var was := now;
      if keep(x) {
        now := now + [x];
      }
      assert multiset(was + [x]) == multiset(was) + multiset{x};
      todo := todo - {id};
    }
  }

  lemma AllMetByTheFirstDay(s: Scan, id: string)
    requires s.from <= s.to
    ensures DayOf(s.from) <= DayOf(s.to) + 1 && MetBy(s, DayOf(s.from), id) == Whole(s, id)
  {
    DaysAreOrdered(s.from, s.to);
  }

  lemma FlushedIsAll(s: Scan, newest: Day, pending: Pending, keep: Session -> bool, complete: seq<Session>, x: Session)
    requires Placed(s, newest) && s.from <= s.to && DayOf(s.from) <= DayOf(s.to)
    requires At(s, DayOf(s.from), pending, keep, complete)
    ensures multiset(complete)[x] + Once(x.id in pending && x == Summary(x.id, pending[x.id]) && keep(x))
         == Once(Present(s, x.id) && x == SessionOf(s, x.id) && keep(x))
  {
    AllMetByTheFirstDay(s, x.id);
    assert HeldBack(s, DayOf(s.from), pending, x.id);
    assert multiset(complete)[x] == Once(Listed(s, DayOf(s.from), keep, x));
  }

  /** Every wanted session of the window was gathered, once. */
  ghost predicate AllOfThem(s: Scan, keep: Session -> bool, complete: seq<Session>) {
    forall x :: multiset(complete)[x] == Once(Present(s, x.id) && x == SessionOf(s, x.id) && keep(x))
  }

  /** One day of the scan. */
  method ReadDay(s: Scan, day: Day, pending: Pending, keep: Session -> bool, complete: seq<Session>, ghost newest: Day,
          ghost before: Day)
    returns (left: Pending, now: seq<Session>)
    requires DayOf(s.from) <= day <= DayOf(s.to) && before == day + 1 && NoneEmpty(pending)
    ensures NoneEmpty(left)
    ensures Placed(s, newest) && At(s, before, pending, keep, complete) ==> At(s, day, left, keep, now)
  {
    var merged := JoinDay(s, day, pending);
    forall id | id in merged ensures merged[id] != [] {
      assert Joins(s, pending, s.read(day), merged, id);
    }
    left, now := Settle(s, day, merged, keep, complete);
    if Placed(s, newest) && At(s, before, pending, keep, complete) {
      DayRead(s, newest, day, pending, merged, left, keep, complete, now);
    }
  }

  /** What is still held back once no day is left. */
  method ReadRest(s: Scan, pending: Pending, keep: Session -> bool, complete: seq<Session>, ghost newest: Day)
    returns (now: seq<Session>)
    requires s.from <= s.to && DayOf(s.from) <= DayOf(s.to) && NoneEmpty(pending)
    ensures Placed(s, newest) && At(s, DayOf(s.from), pending, keep, complete) ==> AllOfThem(s, keep, now)
  {
    now := Flush(pending, keep, complete);
    if Placed(s, newest) && At(s, DayOf(s.from), pending, keep, complete) {
      forall x ensures multiset(now)[x] == Once(Present(s, x.id) && x == SessionOf(s, x.id) && keep(x)) {
        FlushedIsAll(s, newest, pending, keep, complete, x);
      }
    }
  }

  // ---------------------------------------------------------------------------------------------
  // The days of the scan
  // ---------------------------------------------------------------------------------------------

  /** Whether a session is complete once every day from `day` on is read. */
  ghost predicate Passed(s: Scan, day: Day, x: Session) {
    Present(s, x.id) && Known(s, x.id) > day
  }

  /** The wanted sessions that are complete by then, in order. */
  ghost function DoneBy(s: Scan, all: seq<Session>, keep: Session -> bool, day: Day): seq<Session> {
    Sorting.Filter(all, x => keep(x) && Passed(s, day, x))
  }

  /** What a scan lists that still has `day` and the days before it to read: it stops with the first day by
      which more than a page is complete, and lists everything if there is none. */
  ghost function ScannedFrom(s: Scan, all: seq<Session>, keep: Session -> bool, limit: nat, day: Day): seq<Session>
    decreases day - DayOf(s.from)
  {
    if day < DayOf(s.from) then Sorting.Filter(all, keep)
    else if |DoneBy(s, all, keep, day)| > limit then DoneBy(s, all, keep, day)
    else ScannedFrom(s, all, keep, limit, day - 1)
  }

  /** No more than a page is complete yet, on no day from `day` on. */
  ghost predicate NotYet(s: Scan, all: seq<Session>, keep: Session -> bool, limit: nat, day: Day) {
    forall d :: day <= d <= DayOf(s.to) ==> |DoneBy(s, all, keep, d)| <= limit
  }

  /** The scan has come to before `day` without stopping. */
  ghost predicate CameTo(s: Scan, all: seq<Session>, keep: Session -> bool, limit: nat, day: Day) {
    && ScannedFrom(s, all, keep, limit, DayOf(s.to)) == ScannedFrom(s, all, keep, limit, day - 1)
    && NotYet(s, all, keep, limit, day)
  }

  /** A scan of `n` days: with the last of them more than a page is complete, and not before; or there are no more. */
  ghost predicate StopsAfter(s: Scan, all: seq<Session>, keep: Session -> bool, limit: nat, n: nat) {
    && n <= AllDays(s) && NotYet(s, all, keep, limit, DayOf(s.to) + 2 - n)
    && (n == AllDays(s) || |DoneBy(s, all, keep, DayOf(s.to) + 1 - n)| > limit)
  }

  lemma SortedIsFiltered(s: Scan, all: seq<Session>, keep: Session -> bool, complete: seq<Session>)
    requires Listing(s, all)
    requires forall x :: multiset(complete)[x] == Once(Present(s, x.id) && x == SessionOf(s, x.id) && keep(x))
    ensures Sorting.SortBy(complete, Newer) == Sorting.Filter(all, keep)
  {
    var list := Sorting.Filter(all, keep);
    DescendingFilter(all, keep);
    forall x ensures multiset(complete)[x] == Once(x in list) {
      Sorting.FilterIn(all, keep, x);
    }
    forall x, y | x in list && y in list && x != y ensures x.id != y.id {
      Sorting.FilterIn(all, keep, x);
      Sorting.FilterIn(all, keep, y);
    }
    SortIsListing(complete, list);
  }

  lemma GatheredIsDone(s: Scan, all: seq<Session>, keep: Session -> bool, day: Day, complete: seq<Session>)
    requires Listing(s, all) && forall x :: multiset(complete)[x] == Once(Listed(s, day, keep, x))
    ensures Sorting.SortBy(complete, Newer) == DoneBy(s, all, keep, day) && |complete| == |DoneBy(s, all, keep, day)|
  {
    SortedIsFiltered(s, all, x => keep(x) && Passed(s, day, x), complete);
    NewerIsStrict();
    Sorting.SortSorts(complete, Newer);
  }

  lemma {:induction false} OneDayFurther(s: Scan, all: seq<Session>, keep: Session -> bool, limit: nat, day: Day,
          before: Day)
    requires DayOf(s.from) <= day <= DayOf(s.to) && before == day + 1
    requires |DoneBy(s, all, keep, day)| <= limit && CameTo(s, all, keep, limit, before)
    ensures CameTo(s, all, keep, limit, day)
  {
  }

  lemma {:induction false} StopsHere(s: Scan, all: seq<Session>, keep: Session -> bool, limit: nat, day: Day,
          before: Day)
    requires DayOf(s.from) <= day <= DayOf(s.to) && before == day + 1
    requires |DoneBy(s, all, keep, day)| > limit && CameTo(s, all, keep, limit, before)
    ensures ScannedFrom(s, all, keep, limit, DayOf(s.to)) == DoneBy(s, all, keep, day)
    ensures StopsAfter(s, all, keep, limit, DayOf(s.to) + 1 - day)
  {
  }

  lemma CameFurther(s: Scan, all: seq<Session>, keep: Session -> bool, limit: nat, day: Day, before: Day,
          pending: Pending, complete: seq<Session>)
    requires Listing(s, all) && DayOf(s.from) <= day <= DayOf(s.to) && before == day + 1
    requires At(s, day, pending, keep, complete) && |complete| <= limit && CameTo(s, all, keep, limit, before)
    ensures CameTo(s, all, keep, limit, day)
  {
    assert |complete| == |DoneBy(s, all, keep, day)| by {
      GatheredIsDone(s, all, keep, day, complete);
    }
    OneDayFurther(s, all, keep, limit, day, before);
  }

  lemma StoppedThere(s: Scan, all: seq<Session>, keep: Session -> bool, limit: nat, day: Day, before: Day,
          pending: Pending, complete: seq<Session>)
    requires Listing(s, all) && DayOf(s.from) <= day <= DayOf(s.to) && before == day + 1
    requires At(s, day, pending, keep, complete) && |complete| > limit && CameTo(s, all, keep, limit, before)
    ensures Sorting.SortBy(complete, Newer) == ScannedFrom(s, all, keep, limit, DayOf(s.to))
    ensures StopsAfter(s, all, keep, limit, DayOf(s.to) + 1 - day)
  {
    GatheredIsDone(s, all, keep, day, complete);
    StopsHere(s, all, keep, limit, day, before);
  }

  /** Where a scan stands that has read the days from `day` on. */
  ghost predicate HasRead(s: Scan, newest: Day, all: seq<Session>, keep: Session -> bool, limit: nat, day: Day,
          pending: Pending, complete: seq<Session>)
    requires day <= DayOf(s.to) + 1
  {
    Placed(s, newest) ==>
      At(s, day, pending, keep, complete) && (Listing(s, all) ==> CameTo(s, all, keep, limit, day))
  }

  /** Where it stops with a page that is full. */
  ghost predicate HasStopped(s: Scan, newest: Day, all: seq<Session>, keep: Session -> bool, limit: nat, scanned: nat,
          complete: seq<Session>) {
    Placed(s, newest) && Listing(s, all) ==>
      && Sorting.SortBy(complete, Newer) == ScannedFrom(s, all, keep, limit, DayOf(s.to))
      && StopsAfter(s, all, keep, limit, scanned)
  }

  lemma ScanBegins(s: Scan, newest: Day, all: seq<Session>, keep: Session -> bool, limit: nat)
    requires DayOf(s.from) <= DayOf(s.to)
    ensures HasRead(s, newest, all, keep, limit, DayOf(s.to) + 1, map[], [])
  {
    if Placed(s, newest) {
      AtTheStart(s, newest, keep);
    }
  }

  lemma OneDayRead(s: Scan, newest: Day, all: seq<Session>, keep: Session -> bool, limit: nat, day: Day, before: Day,
          scanned: nat, pending: Pending, complete: seq<Session>, left: Pending, now: seq<Session>)
    requires DayOf(s.from) <= day <= DayOf(s.to) && before == day + 1 && scanned == DayOf(s.to) + 1 - day
    requires HasRead(s, newest, all, keep, limit, before, pending, complete)
    requires Placed(s, newest) && At(s, before, pending, keep, complete) ==> At(s, day, left, keep, now)
    ensures |now| <= limit ==> HasRead(s, newest, all, keep, limit, day, left, now)
    ensures |now| > limit ==> HasStopped(s, newest, all, keep, limit, scanned, now)
  {
    if Placed(s, newest) && Listing(s, all) {
      if |now| <= limit {
        CameFurther(s, all, keep, limit, day, before, left, now);
      } else {
        StoppedThere(s, all, keep, limit, day, before, left, now);
      }
    }
  }

  /** The days from the newest down, until a page is full or none is left; what remains is still held back. */
  method ReadDays(s: Scan, limit: nat, keep: Session -> bool, ghost newest: Day, ghost all: seq<Session>)
    returns (pending: Pending, complete: seq<Session>, scanned: nat, ghost day: Day)
    requires DayOf(s.from) <= DayOf(s.to)
    ensures DayOf(s.from) <= day <= DayOf(s.to) && scanned == DayOf(s.to) + 1 - day && NoneEmpty(pending)
    ensures |complete| > limit ==> HasStopped(s, newest, all, keep, limit, scanned, complete)
    ensures |complete| <= limit ==>
              day == DayOf(s.from) && HasRead(s, newest, all, keep, limit, day, pending, complete)
  {
    var first, last := DayOf(s.from), DayOf(s.to);
    pending, complete, scanned, day := map[], [], 0, last + 1;
    ScanBegins(s, newest, all, keep, limit);
    var next := last;
    while next >= first
      invariant first <= day <= last + 1 && next == day - 1 && scanned == last - next && NoneEmpty(pending)
      invariant HasRead(s, newest, all, keep, limit, day, pending, complete) && |complete| <= limit
      decreases next - first
    {
      ghost var was, held := complete, pending;
      pending, complete := ReadDay(s, next, pending, keep, complete, newest, day);
      scanned := scanned + 1;
      OneDayRead(s, newest, all, keep, limit, next, day, scanned, held, was, pending, complete);
      day := next;
      if |complete| > limit {
        return;
      }
      next := next - 1;
    }
  }

  /** The whole scan. */
  method ScanDays(s: Scan, limit: nat, keep: Session -> bool, ghost newest: Day, ghost all: seq<Session>)
    returns (complete: seq<Session>, scanned: nat)
    requires s.from <= s.to
    ensures Placed(s, newest) && Listing(s, all) ==>
              Sorting.SortBy(complete, Newer) == ScannedFrom(s, all, keep, limit, DayOf(s.to))
              && StopsAfter(s, all, keep, limit, scanned)
    ensures scanned <= AllDays(s)
  {
    DaysAreOrdered(s.from, s.to);
    var pending;
    ghost var day;
    pending, complete, scanned, day := ReadDays(s, limit, keep, newest, all);
    if |complete| <= limit {
      complete := ReadRest(s, pending, keep, complete, newest);
      if Placed(s, newest) && Listing(s, all) {
        SortedIsFiltered(s, all, keep, complete);
      }
    }
  }
}
