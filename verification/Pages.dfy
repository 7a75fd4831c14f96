/** SessionsPage (internal/compact/page.go): one page, and the pages one after another. */
module Pages {
  import opened Archive
  import opened EarlyStop
  import opened Events
  import opened Paging
  import opened Reading
  import opened Sessions
  import Sorting

  /** Sessions that ended later come first, and of those that ended together the ones with later ids. */
  ghost predicate LatestFirst(xs: seq<Session>) {
    forall i, j :: 0 <= i < j < |xs| ==>
      && xs[i].endedAt >= xs[j].endedAt
      && (xs[i].endedAt == xs[j].endedAt ==> !Sorting.Less(xs[i].id, xs[j].id))
  }

  lemma SortedIsLatestFirst(xs: seq<Session>)
    ensures Sorting.Sorted(Sorting.SortBy(xs, Newer), Newer) && LatestFirst(Sorting.SortBy(xs, Newer))
  {
    NewerIsStrict();
    Sorting.SortSorts(xs, Newer);
  }

  method PageFor(s: Scan, size: nat, cursor: Cursor, matches: Session -> bool, ghost newest: Day,
          ghost all: seq<Session>)
    returns (page: Page, scanned: nat)
    requires s.from <= s.to && size > 0
    ensures Placed(s, newest) && Listing(s, all) ==>
              page == ScannedPage(s, all, Wanted(cursor, matches), size)
              && StopsAfter(s, all, Wanted(cursor, matches), size, scanned)
    ensures LatestFirst(page.sessions) && |page.sessions| <= size
    ensures scanned <= AllDays(s)
  {
    var complete;
    complete, scanned := ScanDays(s, size, Wanted(cursor, matches), newest, all);
    SortedIsLatestFirst(complete);
    complete := Sorting.SortBy(complete, Newer);
    if |complete| > size {
      page := Page(complete[..size], Some(CursorOf(complete[size - 1])));
    } else {
      page := Page(complete, None);
    }
  }

  /** A page is the one cut from what the scan lists, whatever the window; and as long as no session of the
      window overtakes two others, it is the one cut from the whole list of what is wanted. */
  method SessionsPage(v: View, from: Instant, to: Instant, limit: int, cursor: Cursor, matches: Session -> bool,
          ghost newest: Day, ghost all: seq<Session>)
    returns (page: Page, scanned: nat)
    ensures var s, size := ScanOf(v, from, to), if limit <= 0 then 50 else limit;
            Placed(s, newest) && Listing(s, all) ==>
              && page == ScannedPage(s, all, Wanted(cursor, matches), size)
              && StopsAfter(s, all, Wanted(cursor, matches), size, scanned)
              && (NoOvertaker(s) ==> page == PageOf(Sorting.Filter(all, Wanted(cursor, matches)), size))
    ensures LatestFirst(page.sessions) && |page.sessions| <= if limit <= 0 then 50 else limit
    ensures scanned <= AllDays(ScanOf(v, from, to))
  {
    page, scanned := PageFor(ScanOf(v, from, to), LimitOf(limit), cursor, matches, newest, all);
    ghost var s := ScanOf(v, from, to);
    if Listing(s, all) && NoOvertaker(s) {
      ScanIsRight(s, all, Wanted(cursor, matches), LimitOf(limit), DayOf(s.to));
    }
  }

  // ---------------------------------------------------------------------------------------------
  // Following the cursor
  // ---------------------------------------------------------------------------------------------

  lemma AfterIsNewer(x: Session, y: Session)
    requires x.id != ""
    ensures After(CursorOf(x), y) <==> Newer(x, y)
  {
  }

  lemma CutOff(xs: seq<Session>, k: nat)
    requires Descending(xs) && k < |xs| && xs[k].id != ""
    ensures forall i :: 0 <= i < |xs| ==> (After(CursorOf(xs[k]), xs[i]) <==> i > k)
  {
    forall i | 0 <= i < |xs| ensures After(CursorOf(xs[k]), xs[i]) <==> i > k {
      AfterIsNewer(xs[k], xs[i]);
      NewerIsTotal(xs[i], xs[k]);
      NewerIsTotal(xs[k], xs[k]);
    }
  }

  lemma {:induction false} FilterSuffix(xs: seq<Session>, keep: Session -> bool, k: nat)
    requires k <= |xs| && forall i :: 0 <= i < |xs| ==> (keep(xs[i]) <==> i >= k)
    ensures Sorting.Filter(xs, keep) == xs[k..]
    decreases |xs|
  {
    if xs != [] {
      var init, last := xs[..|xs| - 1], xs[|xs| - 1];
      if k < |xs| {
        FilterSuffix(init, keep, k);
        assert init[k..] + [last] == xs[k..];
      } else {
        FilterSuffix(init, keep, k - 1);
      }
    }
  }

  /** Going on from a session of the list leaves exactly what comes after it. */
  lemma GoingOn(all: seq<Session>, matches: Session -> bool, c: Cursor, k: nat)
    requires Descending(all) && forall x :: x in all ==> x.id != ""
    requires k < |Sorting.Filter(all, Wanted(c, matches))|
    ensures var list := Sorting.Filter(all, Wanted(c, matches));
            Sorting.Filter(all, Wanted(CursorOf(list[k]), matches)) == list[k + 1..]
  {
    var list := Sorting.Filter(all, Wanted(c, matches));
    var at := list[k];
    var next := Wanted(CursorOf(at), matches);
    var later := (x: Session) => After(CursorOf(at), x);
    DescendingFilter(all, Wanted(c, matches));
    Sorting.FilterIn(all, Wanted(c, matches), at);
    CutOff(list, k);
    forall x | x in all && next(x) ensures Wanted(c, matches)(x) {
      AfterIsNewer(at, x);
      if c.id != "" {
        PastBoth(c, at, x);
      }
    }
    Sorting.FilterNarrows(all, Wanted(c, matches), later, next);
    FilterSuffix(list, later, k + 1);
  }

  lemma PastBoth(c: Cursor, at: Session, x: Session)
    requires c.id != "" && After(c, at) && Newer(at, x)
    ensures After(c, x)
  {
    if x.endedAt == at.endedAt == c.endedAt {
      Sorting.LessIsTransitive(x.id, at.id, c.id);
    }
  }

  /** The page a request for cursor `c` gets. */
  function PageAt(all: seq<Session>, matches: Session -> bool, limit: nat, c: Cursor): Page
    requires limit > 0
  {
    PageOf(Sorting.Filter(all, Wanted(c, matches)), limit)
  }

  /** The sessions of every page, following the cursor from `c`, for as many pages as there is fuel. */
  function Follow(all: seq<Session>, matches: Session -> bool, limit: nat, c: Cursor, fuel: nat): seq<Session>
    requires limit > 0
    decreases fuel
  {
    var page := PageAt(all, matches, limit, c);
    if page.next.None? || fuel == 0 then page.sessions
    else page.sessions + Follow(all, matches, limit, page.next.value, fuel - 1)
  }

  /** A page and what is left after it. */
  lemma OnePage(all: seq<Session>, matches: Session -> bool, limit: nat, c: Cursor)
    requires Descending(all) && (forall x :: x in all ==> x.id != "") && limit > 0
    ensures var list, page := Sorting.Filter(all, Wanted(c, matches)), PageAt(all, matches, limit, c);
            if page.next.None? then page.sessions == list
            else && |list| > limit
                 && page.sessions + Sorting.Filter(all, Wanted(page.next.value, matches)) == list
                 && |Sorting.Filter(all, Wanted(page.next.value, matches))| < |list|
  {
    var list := Sorting.Filter(all, Wanted(c, matches));
    if |list| > limit {
      GoingOn(all, matches, c, limit - 1);
      assert list[..limit] + list[limit..] == list;
    }
  }

  lemma {:induction false} FollowOn(all: seq<Session>, matches: Session -> bool, limit: nat, c: Cursor, fuel: nat,
          page: Page)
    requires limit > 0 && page == PageAt(all, matches, limit, c)
    ensures Follow(all, matches, limit, c, fuel)
         == if page.next.None? || fuel == 0 then page.sessions
            else page.sessions + Follow(all, matches, limit, page.next.value, fuel - 1)
  {
  }

  /** From any cursor, following on lists what is left, and no more pages are needed than there are
      sessions. */
  lemma {:induction false} FollowingListsAll(all: seq<Session>, matches: Session -> bool, limit: nat, c: Cursor,
          fuel: nat)
    requires Descending(all) && (forall x :: x in all ==> x.id != "") && limit > 0
    requires fuel >= |Sorting.Filter(all, Wanted(c, matches))|
    ensures Follow(all, matches, limit, c, fuel) == Sorting.Filter(all, Wanted(c, matches))
    decreases fuel
  {
    var page := PageAt(all, matches, limit, c);
    OnePage(all, matches, limit, c);
    FollowOn(all, matches, limit, c, fuel, page);
    if page.next.Some? {
      FollowingListsAll(all, matches, limit, page.next.value, fuel - 1);
    }
  }

  /** Following the cursor from the start ends, and the pages in turn are exactly the matching sessions of
      the window, each once, latest end first. */
  lemma PagesAreTheList(s: Scan, all: seq<Session>, matches: Session -> bool, limit: nat)
    requires Listing(s, all) && (forall x :: x in all ==> x.id != "") && limit > 0
    ensures Follow(all, matches, limit, NO_CURSOR, |all|) == Sorting.Filter(all, matches)
    ensures Descending(Sorting.Filter(all, matches))
    ensures forall x :: x in Sorting.Filter(all, matches) <==> Present(s, x.id) && x == SessionOf(s, x.id) && matches(x)
  {
    SameFilter(all, Wanted(NO_CURSOR, matches), matches);
    ShorterFilter(all, matches);
    FollowingListsAll(all, matches, limit, NO_CURSOR, |all|);
    DescendingFilter(all, matches);
    forall x ensures x in Sorting.Filter(all, matches) <==> x in all && matches(x) {
      Sorting.FilterIn(all, matches, x);
    }
  }

  lemma {:induction false} SameFilter(xs: seq<Session>, p: Session -> bool, q: Session -> bool)
    requires forall x :: p(x) == q(x)
    ensures Sorting.Filter(xs, p) == Sorting.Filter(xs, q)
  {
    if xs != [] {
      SameFilter(xs[..|xs| - 1], p, q);
    }
  }

  lemma {:induction false} ShorterFilter(xs: seq<Session>, p: Session -> bool)
    ensures |Sorting.Filter(xs, p)| <= |xs|
  {
    if xs != [] {
      ShorterFilter(xs[..|xs| - 1], p);
    }
  }
}
