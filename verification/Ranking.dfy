/** The session list under an order other than recency (internal/compact/sort.go), read through the narrow
    projection (SessionTurnsRange in internal/compact/sessions.go) and paged by offset. */
module Ranking {
  import opened Archive
  import opened Events
  import opened Fold
  import opened Paging
  import opened Reading
  import opened Sessions
  import Details
  import Growth
  import Listings
  import Sorting
  import Tables
  import Windows

  datatype Order = Recent | ByCost | ByTurns | ByErrors

  function RankKey(order: Order, x: Session): int {
    match order
    case Recent => 0
    case ByCost => x.cost
    case ByTurns => x.turns
    case ByErrors => x.errors
  }

  /** Highest key first; ties fall back to recency and then to the id. */
  predicate Ahead(order: Order, a: Session, b: Session) {
    if RankKey(order, a) != RankKey(order, b) then RankKey(order, a) > RankKey(order, b) else Newer(a, b)
  }

  function Rank(order: Order): (Session, Session) -> bool {
    (a, b) => Ahead(order, a, b)
  }

  lemma AheadIsTotal(order: Order, a: Session, b: Session)
    ensures !(Ahead(order, a, b) && Ahead(order, b, a))
    ensures a.id != b.id ==> Ahead(order, a, b) || Ahead(order, b, a)
  {
    NewerIsTotal(a, b);
  }

  lemma AheadIsStrict(order: Order)
    ensures Sorting.StrictWeak(Rank(order))
  {
    NewerIsStrict();
    assert forall x, y, z :: Newer(x, z) ==> Newer(x, y) || Newer(y, z);
    assert forall x, y, z :: Newer(x, y) && Newer(y, z) ==> Newer(x, z);
  }

  // ---------------------------------------------------------------------------------------------
  // Reading the window
  // ---------------------------------------------------------------------------------------------

  lemma {:induction false} TrimStands(from: Instant, to: Instant, ts: seq<Turn>, originals: seq<Turn>)
    requires Listings.StandIn(ts, originals)
    ensures Listings.StandIn(Trim(from, to, ts), Trim(from, to, originals))
    decreases |ts|
  {
    if ts != [] {
      var n := |ts| - 1;
      assert originals[n] in originals;
      TrimStands(from, to, ts[..n], originals[..n]);
      NarrowSumsTheSame(NewSession(""), ts[n], originals[n]);
    }
  }

  /** Every day's turns, and nothing on the days that are skipped. */
  ghost predicate RankReadyOn(v: View, ledger: Ledger, day: Day) {
    Listings.ReadyOn(v, ledger, day) && (KnownEmpty(v.idx, v.hot, day) ==> ledger(day) == [])
  }

  ghost predicate RankReady(v: View, ledger: Ledger) {
    forall d :: RankReadyOn(v, ledger, d)
  }

  /** What has been read of the first `n` days stands for their turns. */
  ghost predicate DaysStand(v: View, ledger: Ledger, from: Instant, to: Instant, first: Day, n: nat, ts: seq<Turn>) {
    RankReady(v, ledger) ==> Listings.StandIn(ts, InDays(ledger, from, to, first, n))
  }

  /** The window's days in order, days known to be empty passed over, trimmed and then sorted by start. */
  method SessionTurns(v: View, from: Instant, to: Instant, ghost ledger: Ledger) returns (turns: seq<Turn>)
    ensures RankReady(v, ledger) ==>
              exists ts :: Listings.StandIn(ts, InWindow(ledger, from, to)) && turns == Sorting.SortBy(ts, StartsBefore)
  {
    var ts: seq<Turn> := [];
    var first := DayOf(from);
    for n := 0 to DaysIn(from, to)
      invariant DaysStand(v, ledger, from, to, first, n, ts)
    {
      var day := first + n;
      NextDayStands(v, ledger, from, to, first, n, ts);
      if !KnownEmpty(v.idx, v.hot, day) {
        ts := ts + Trim(from, to, NarrowTurns(v, day));
      }
    }
    turns := Sorting.SortBy(ts, StartsBefore);
  }

  lemma DayAdds(v: View, ledger: Ledger, from: Instant, to: Instant, day: Day, ts: seq<Turn>, before: seq<Turn>)
    requires RankReadyOn(v, ledger, day) && Listings.StandIn(ts, before)
    ensures Listings.StandIn(if KnownEmpty(v.idx, v.hot, day) then ts else ts + Trim(from, to, NarrowTurns(v, day)),
                             before + Trim(from, to, ledger(day)))
  {
    if KnownEmpty(v.idx, v.hot, day) {
      assert before + [] == before;
    } else {
      Listings.DayStandsNarrow(v, ledger, day);
      TrimStands(from, to, NarrowTurns(v, day), ledger(day));
      Listings.StandInConcat(ts, before, Trim(from, to, NarrowTurns(v, day)), Trim(from, to, ledger(day)));
    }
  }

  lemma DayAddsIfReady(v: View, ledger: Ledger, from: Instant, to: Instant, day: Day, ts: seq<Turn>,
          before: seq<Turn>)
    requires RankReady(v, ledger) && Listings.StandIn(ts, before)
    ensures Listings.StandIn(if KnownEmpty(v.idx, v.hot, day) then ts else ts + Trim(from, to, NarrowTurns(v, day)),
                             before + Trim(from, to, ledger(day)))
  {
    assert RankReadyOn(v, ledger, day);
    DayAdds(v, ledger, from, to, day, ts, before);
  }

  lemma InDaysNext(ledger: Ledger, from: Instant, to: Instant, first: Day, n: nat)
    ensures InDays(ledger, from, to, first, n + 1)
        == InDays(ledger, from, to, first, n) + Trim(from, to, ledger(first + n))
  {
    assert first + (n + 1) - 1 == first + n;
  }

  lemma NextDayStands(v: View, ledger: Ledger, from: Instant, to: Instant, first: Day, n: nat, ts: seq<Turn>)
    requires DaysStand(v, ledger, from, to, first, n, ts)
    ensures DaysStand(v, ledger, from, to, first, n + 1,
                      if KnownEmpty(v.idx, v.hot, first + n) then ts
                      else ts + Trim(from, to, NarrowTurns(v, first + n)))
  {
    InDaysNext(ledger, from, to, first, n);
    if RankReady(v, ledger) {
      DayAddsIfReady(v, ledger, from, to, first + n, ts, InDays(ledger, from, to, first, n));
    }
  }

  // ---------------------------------------------------------------------------------------------
  // Grouping into sessions
  // ---------------------------------------------------------------------------------------------

  method Group(turns: seq<Turn>) returns (groups: Pending)
    ensures forall id :: TurnsFor(groups, id) == Listings.Part(turns, id)
    ensures forall id :: id in groups <==> Listings.Part(turns, id) != []
  {
    groups := map[];
    for i := 0 to |turns|
      invariant forall id :: TurnsFor(groups, id) == Listings.Part(turns[..i], id)
      invariant forall id :: id in groups <==> Listings.Part(turns[..i], id) != []
    {
      var t := turns[i];
      assert turns[..i + 1][..i] == turns[..i];
      groups := groups[t.SessionID() := TurnsFor(groups, t.SessionID()) + [t]];
    }
    assert turns[..|turns|] == turns;
  }

  predicate EndsLater(a: Session, b: Session) {
    a.endedAt > b.endedAt
  }

  /** One session of some turns. */
  predicate SessionIn(turns: seq<Turn>, x: Session) {
    Listings.Part(turns, x.id) != [] && x == Summary(x.id, Listings.Part(turns, x.id))
  }

  /** SessionsFromTurns: one row per session, gathered from a map in no particular order. */
  method SessionsFromTurns(turns: seq<Turn>) returns (sessions: seq<Session>)
    ensures forall x :: multiset(sessions)[x] == Once(SessionIn(turns, x))
  {
    var groups := Group(turns);
    var gathered := Flush(groups, x => true, []);
    forall x ensures multiset(gathered)[x] == Once(SessionIn(turns, x)) {
      assert TurnsFor(groups, x.id) == Listings.Part(turns, x.id);
    }
    sessions := Sorting.SortBy(gathered, EndsLater);
    SortContents(gathered, EndsLater);
  }

  lemma {:induction false} SortContents(xs: seq<Session>, before: (Session, Session) -> bool)
    ensures multiset(Sorting.SortBy(xs, before)) == multiset(xs)
  {
    if xs != [] {
      SortContents(xs[..|xs| - 1], before);
      Sorting.InsertContents(Sorting.SortBy(xs[..|xs| - 1], before), xs[|xs| - 1], before);
      Sorting.SplitLast(xs);
    }
  }

  // ---------------------------------------------------------------------------------------------
  // The same sessions whatever order their turns were sorted into
  // ---------------------------------------------------------------------------------------------

  /** A session summed over its part of some turns. */
  function PartSum(x: Session, ts: seq<Turn>, id: string): Session {
    Sum(x, Listings.Part(ts, id))
  }

  lemma PartSumOneMore(x: Session, ts: seq<Turn>, t: Turn, id: string)
    ensures PartSum(x, ts + [t], id)
         == if t.SessionID() == id then AddTurn(PartSum(x, ts, id), t) else PartSum(x, ts, id)
  {
    var part := Listings.Part(ts, id);
    Details.PartOneMore(ts, t, id);
    assert (part + [t])[..|part|] == part;
    assert part + [] == part;
  }

  lemma PartSumSwaps(x: Session, ts: seq<Turn>, t: Turn, u: Turn, id: string)
    ensures PartSum(x, ts + [t] + [u], id) == PartSum(x, ts + [u] + [t], id)
  {
    PartSumOneMore(x, ts + [t], u, id);
    PartSumOneMore(x, ts, t, id);
    PartSumOneMore(x, ts + [u], t, id);
    PartSumOneMore(x, ts, u, id);
    AddTurnsCommute(PartSum(x, ts, id), t, u);
  }

  lemma LastMoved(x: Session, inserted: seq<Turn>, init: seq<Turn>, t: Turn, last: Turn, id: string)
    requires PartSum(x, inserted, id) == PartSum(x, init + [t], id)
    ensures PartSum(x, inserted + [last], id) == PartSum(x, (init + [last]) + [t], id)
  {
    PartSumOneMore(x, inserted, last, id);
    PartSumOneMore(x, init + [t], last, id);
    PartSumSwaps(x, init, t, last, id);
  }

  lemma {:induction false} InsertSums(x: Session, ts: seq<Turn>, t: Turn, id: string)
    ensures PartSum(x, Sorting.InsertBy(ts, t, StartsBefore), id) == PartSum(x, ts + [t], id)
    decreases |ts|
  {
    if ts != [] && StartsBefore(t, ts[|ts| - 1]) {
      var init, last := ts[..|ts| - 1], ts[|ts| - 1];
      InsertSums(x, init, t, id);
      LastMoved(x, Sorting.InsertBy(init, t, StartsBefore), init, t, last, id);
      assert ts == init + [last];
    }
  }

  lemma AlikeWithOneMore(x: Session, a: seq<Turn>, b: seq<Turn>, t: Turn, id: string)
    requires PartSum(x, a, id) == PartSum(x, b, id)
    ensures PartSum(x, a + [t], id) == PartSum(x, b + [t], id)
  {
    PartSumOneMore(x, a, t, id);
    PartSumOneMore(x, b, t, id);
  }

  lemma InsertedSums(x: Session, ts: seq<Turn>, sorted: seq<Turn>, init: seq<Turn>, inOrder: seq<Turn>, t: Turn,
          id: string)
    requires ts == init + [t] && sorted == Sorting.InsertBy(inOrder, t, StartsBefore)
    requires PartSum(x, inOrder, id) == PartSum(x, init, id)
    ensures PartSum(x, sorted, id) == PartSum(x, ts, id)
  {
    InsertSums(x, inOrder, t, id);
    AlikeWithOneMore(x, inOrder, init, t, id);
  }

  lemma {:induction false} SortSums(x: Session, ts: seq<Turn>, id: string)
    ensures PartSum(x, Sorting.SortBy(ts, StartsBefore), id) == PartSum(x, ts, id)
  {
    if ts != [] {
      var init, last := ts[..|ts| - 1], ts[|ts| - 1];
      SortSums(x, init, id);
      InsertedSums(x, ts, Sorting.SortBy(ts, StartsBefore), init, Sorting.SortBy(init, StartsBefore), last, id);
    }
  }

  lemma {:induction false} PartStands(ts: seq<Turn>, originals: seq<Turn>, id: string)
    requires Listings.StandIn(ts, originals)
    ensures Listings.StandIn(Listings.Part(ts, id), Listings.Part(originals, id))
    decreases |ts|
  {
    if ts != [] {
      var n := |ts| - 1;
      assert originals[n] in originals;
      PartStands(ts[..n], originals[..n], id);
      NarrowSumsTheSame(NewSession(id), ts[n], originals[n]);
    }
  }

  lemma SortedPart(ts: seq<Turn>, id: string)
    ensures Listings.Part(Sorting.SortBy(ts, StartsBefore), id) == [] <==> Listings.Part(ts, id) == []
  {
    SortSums(NewSession(id), ts, id);
    SumCounts(NewSession(id), Listings.Part(Sorting.SortBy(ts, StartsBefore), id));
    SumCounts(NewSession(id), Listings.Part(ts, id));
  }

  lemma {:induction false} SumCounts(x: Session, ts: seq<Turn>)
    ensures Sum(x, ts).turns == x.turns + |ts|
  {
    if ts != [] {
      SumCounts(x, ts[..|ts| - 1]);
    }
  }

  /** The sessions read through narrow rows are those of the turns as they were folded. */
  lemma SameSessions(ts: seq<Turn>, originals: seq<Turn>, x: Session)
    requires Listings.StandIn(ts, originals)
    ensures SessionIn(Sorting.SortBy(ts, StartsBefore), x) <==> SessionIn(originals, x)
  {
    SortedPart(ts, x.id);
    SortSums(NewSession(x.id), ts, x.id);
    PartStands(ts, originals, x.id);
    NarrowSummary(NewSession(x.id), Listings.Part(ts, x.id), Listings.Part(originals, x.id));
  }

  // ---------------------------------------------------------------------------------------------
  // The ranking
  // ---------------------------------------------------------------------------------------------

  /** Strictly ranked, and exactly the matching sessions of these turns. */
  ghost predicate Ranking(order: Order, turns: seq<Turn>, matches: Session -> bool, list: seq<Session>) {
    && (forall i, j :: 0 <= i < j < |list| ==> Ahead(order, list[i], list[j]))
    && (forall x :: x in list <==> SessionIn(turns, x) && matches(x))
  }

  lemma {:induction false} FilterCounts(xs: seq<Session>, keep: Session -> bool, x: Session)
    ensures multiset(Sorting.Filter(xs, keep))[x] == if keep(x) then multiset(xs)[x] else 0
  {
    if xs != [] {
      FilterCounts(xs[..|xs| - 1], keep, x);
      Sorting.SplitLast(xs);
    }
  }

  lemma {:induction false} RankedOnce(order: Order, xs: seq<Session>, x: Session)
    requires forall i, j :: 0 <= i < j < |xs| ==> Ahead(order, xs[i], xs[j])
    ensures multiset(xs)[x] == Once(x in xs)
  {
    if xs != [] {
      var init, last := xs[..|xs| - 1], xs[|xs| - 1];
      RankedOnce(order, init, x);
      Sorting.SplitLast(xs);
      if x in init && x == last {
        var i :| 0 <= i < |init| && init[i] == x;
        AheadIsTotal(order, xs[i], last);
      }
    }
  }

  /** Sorting any gathering of the sessions gives the ranking: the iteration order of the map they came
      from does not show. */
  lemma SortIsRanking(order: Order, turns: seq<Turn>, matches: Session -> bool, gathered: seq<Session>,
          list: seq<Session>)
    requires Ranking(order, turns, matches, list)
    requires forall x :: multiset(gathered)[x] == Once(SessionIn(turns, x) && matches(x))
    ensures Sorting.SortBy(gathered, Rank(order)) == list
  {
    AheadIsStrict(order);
    Sorting.SortSorts(gathered, Rank(order));
    var sorted := Sorting.SortBy(gathered, Rank(order));
    forall x ensures multiset(sorted)[x] == multiset(list)[x] {
      RankedOnce(order, list, x);
    }
    assert multiset(sorted) == multiset(list);
    forall x, y | x in sorted && y in sorted && x != y ensures Rank(order)(x, y) || Rank(order)(y, x) {
      assert x in multiset(list) && y in multiset(list);
      AheadIsTotal(order, x, y);
    }
    forall i, j | 0 <= i < j < |list| ensures !Rank(order)(list[j], list[i]) {
      AheadIsTotal(order, list[i], list[j]);
    }
    Sorting.SortedIsUnique(sorted, list, Rank(order));
  }

  /** The ranking is a list that always exists. */
  ghost function RankedList(order: Order, turns: seq<Turn>, matches: Session -> bool): seq<Session> {
    Sorting.SortBy(Sorting.Map(id => Summary(id, Listings.Part(turns, id)),
      Tables.Ascending(MatchingIDs(turns, matches))), Rank(order))
  }

  function MatchingIDs(turns: seq<Turn>, matches: Session -> bool): set<string> {
    set id | id in Windows.IDs(turns) && matches(Summary(id, Listings.Part(turns, id)))
  }

  lemma HasPartIff(turns: seq<Turn>, id: string)
    ensures id in Windows.IDs(turns) <==> Listings.Part(turns, id) != []
  {
    var mine := (t: Turn) => t.SessionID() == id;
    if id in Windows.IDs(turns) {
      var t :| t in turns && t.SessionID() == id;
      Sorting.FilterIn(turns, mine, t);
    }
    if Listings.Part(turns, id) != [] {
      Sorting.FilterIn(turns, mine, Listings.Part(turns, id)[0]);
    }
  }

  /** One session for each id. */
  ghost predicate OneEach(turns: seq<Turn>, ids: seq<string>, gathered: seq<Session>) {
    && |gathered| == |ids|
    && (forall i :: 0 <= i < |ids| ==>
       gathered[i].id == ids[i] && gathered[i] == Summary(ids[i], Listings.Part(turns, ids[i])))
    && (forall i, j :: 0 <= i < j < |ids| ==> ids[i] != ids[j])
  }

  lemma GatheredIn(turns: seq<Turn>, ids: seq<string>, gathered: seq<Session>, x: Session)
    requires OneEach(turns, ids, gathered)
    ensures x in gathered <==> x.id in ids && x == Summary(x.id, Listings.Part(turns, x.id))
  {
    if x.id in ids && x == Summary(x.id, Listings.Part(turns, x.id)) {
      var i :| 0 <= i < |ids| && ids[i] == x.id;
      assert gathered[i] == x;
    }
  }

  lemma RankedStrictly(order: Order, gathered: seq<Session>)
    requires Tables.Apart(gathered, (x: Session) => x.id)
    ensures var list := Sorting.SortBy(gathered, Rank(order));
            forall i, j :: 0 <= i < j < |list| ==> Ahead(order, list[i], list[j])
  {
    var list, key := Sorting.SortBy(gathered, Rank(order)), (x: Session) => x.id;
    AheadIsStrict(order);
    Sorting.SortSorts(gathered, Rank(order));
    Tables.DistinctKeys(gathered, list, key);
    forall i, j | 0 <= i < j < |list| ensures Ahead(order, list[i], list[j]) {
      assert key(list[i]) != key(list[j]);
      AheadIsTotal(order, list[i], list[j]);
    }
  }

  lemma RankingExists(order: Order, turns: seq<Turn>, matches: Session -> bool)
    ensures Ranking(order, turns, matches, RankedList(order, turns, matches))
  {
    var ids := Tables.Ascending(MatchingIDs(turns, matches));
    var gathered := Sorting.Map(id => Summary(id, Listings.Part(turns, id)), ids);
    Tables.AscendingHolds(MatchingIDs(turns, matches));
    Listings.IDsAreDistinct(MatchingIDs(turns, matches));
    forall i | 0 <= i < |ids| ensures gathered[i].id == ids[i] {
      SummaryHasID(ids[i], Listings.Part(turns, ids[i]));
    }
    assert OneEach(turns, ids, gathered);
    RankedStrictly(order, gathered);
    forall x ensures x in RankedList(order, turns, matches) <==> SessionIn(turns, x) && matches(x) {
      Sorting.SortMembers(gathered, Rank(order), x);
      GatheredIn(turns, ids, gathered, x);
      HasPartIff(turns, x.id);
    }
  }

  // ---------------------------------------------------------------------------------------------
  // Pages by offset
  // ---------------------------------------------------------------------------------------------

  datatype Result<T> = Ok(value: T) | BadCursor

  datatype RankedPage = RankedPage(sessions: seq<Session>, next: Option<nat>)

  /** The part of a list that starts at an offset. */
  function Cut(list: seq<Session>, offset: nat, limit: nat): RankedPage {
    if offset < |list| then
      var end := if offset + limit > |list| then |list| else offset + limit;
      RankedPage(list[offset..end], if end < |list| then Some(end) else None)
    else RankedPage([], None)
  }

  /** No session costs more than one before it, or has more turns, or more errors, as the order says; and where these
      are the same none ended later. */
  predicate NotBehind(order: Order, a: Session, b: Session) {
    match order
    case ByCost => a.cost > b.cost || (a.cost == b.cost && NotLater(b, a))
    case ByTurns => a.turns > b.turns || (a.turns == b.turns && NotLater(b, a))
    case ByErrors => a.errors > b.errors || (a.errors == b.errors && NotLater(b, a))
    case Recent => NotLater(b, a)
  }

  ghost predicate Ranked(order: Order, xs: seq<Session>) {
    forall i, j :: 0 <= i < j < |xs| ==> NotBehind(order, xs[i], xs[j])
  }

  predicate NotLater(a: Session, b: Session) {
    a.endedAt < b.endedAt || (a.endedAt == b.endedAt && !Sorting.Less(b.id, a.id))
  }

  lemma SortedIsRanked(order: Order, xs: seq<Session>)
    ensures Ranked(order, Sorting.SortBy(xs, Rank(order)))
  {
    AheadIsStrict(order);
    Sorting.SortSorts(xs, Rank(order));
    var sorted := Sorting.SortBy(xs, Rank(order));
    assert forall i, j :: 0 <= i < j < |sorted| ==> !Rank(order)(sorted[j], sorted[i]);
  }

  lemma CutIsRanked(order: Order, xs: seq<Session>, offset: nat, limit: nat)
    ensures var cut := Cut(Sorting.SortBy(xs, Rank(order)), offset, limit).sessions;
            Ranked(order, cut) && |cut| <= limit
  {
    var sorted := Sorting.SortBy(xs, Rank(order));
    var cut := Cut(sorted, offset, limit).sessions;
    SortedIsRanked(order, xs);
    assert forall i :: 0 <= i < |cut| ==> cut[i] == sorted[offset + i];
  }

  /** The cursor is an offset; none means the start, and a negative one is refused. */
  method SessionsRanked(v: View, from: Instant, to: Instant, limit: int, cursor: Option<int>,
          matches: Session -> bool, order: Order, ghost ledger: Ledger, ghost list: seq<Session>)
    returns (page: Result<RankedPage>)
    ensures page.BadCursor? <==> cursor.Some? && cursor.value < 0
    ensures page.Ok? ==> Ranked(order, page.value.sessions)
    ensures page.Ok? ==> |page.value.sessions| <= if limit <= 0 then 50 else limit
    ensures var lo, hi := if to < from then to else from, if to < from then from else to;
            page.Ok? && RankReady(v, ledger) && Ranking(order, InWindow(ledger, lo, hi), matches, list) ==>
              page.value == Cut(list, if cursor.Some? then cursor.value else 0, if limit <= 0 then 50 else limit)
  {
    var size := LimitOf(limit);
    var offset := 0;
    if cursor.Some? {
      if cursor.value < 0 {
        return BadCursor;
      }
      offset := cursor.value;
    }
    var lo, hi := if to < from then to else from, if to < from then from else to;
    var turns := SessionTurns(v, lo, hi, ledger);
    var sessions := SessionsFromTurns(turns);
    var matched := Sorting.Filter(sessions, matches);
    if RankReady(v, ledger) && Ranking(order, InWindow(ledger, lo, hi), matches, list) {
      MatchedAreRanked(ledger, lo, hi, order, matches, turns, sessions, list);
    }
    CutIsRanked(order, matched, offset, size);
    matched := Sorting.SortBy(matched, Rank(order));
    page := Ok(Cut(matched, offset, size));
  }

  lemma MatchedAreRanked(ledger: Ledger, lo: Instant, hi: Instant, order: Order, matches: Session -> bool,
          turns: seq<Turn>, sessions: seq<Session>, list: seq<Session>)
    requires exists ts :: Listings.StandIn(ts, InWindow(ledger, lo, hi)) && turns == Sorting.SortBy(ts, StartsBefore)
    requires forall x :: multiset(sessions)[x] == Once(SessionIn(turns, x))
    requires Ranking(order, InWindow(ledger, lo, hi), matches, list)
    ensures Sorting.SortBy(Sorting.Filter(sessions, matches), Rank(order)) == list
  {
    var originals := InWindow(ledger, lo, hi);
    var ts :| Listings.StandIn(ts, originals) && turns == Sorting.SortBy(ts, StartsBefore);
    var matched := Sorting.Filter(sessions, matches);
    forall x ensures multiset(matched)[x] == Once(SessionIn(originals, x) && matches(x)) {
      FilterCounts(sessions, matches, x);
      SameSessions(ts, originals, x);
    }
    SortIsRanking(order, originals, matches, matched, list);
  }

  /** The sessions of every page from an offset on, following the cursor. */
  function FollowOffsets(list: seq<Session>, limit: nat, offset: nat): seq<Session>
    requires limit > 0
    decreases if offset < |list| then |list| - offset else 0
  {
    var page := Cut(list, offset, limit);
    if page.next.None? then page.sessions
    else page.sessions + FollowOffsets(list, limit, page.next.value)
  }

  /** The pages concatenate to the ranking: nothing is repeated and nothing skipped. */
  lemma {:induction false} OffsetsCoverTheList(list: seq<Session>, limit: nat, offset: nat)
    requires limit > 0 && offset <= |list|
    ensures FollowOffsets(list, limit, offset) == list[offset..]
    decreases |list| - offset
  {
    if offset + limit < |list| {
      OffsetsCoverTheList(list, limit, offset + limit);
      assert list[offset..offset + limit] + list[offset + limit..] == list[offset..];
    }
  }
}
