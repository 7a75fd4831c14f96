/** Exactly when the page scan may stop early (internal/compact/page.go:144-149): when no session that
    reaches further back than two others is listed before both. */
module EarlyStop {
  import opened Archive
  import opened Events
  import opened Fold
  import opened Paging
  import opened Reading
  import opened Sessions
  import Sorting

  /** The sorted list of what a scan that stopped at `day` had listed, more than a page of it. */
  ghost predicate StoppedWith(s: Scan, day: Day, keep: Session -> bool, sorted: seq<Session>, limit: nat) {
    && |sorted| > limit > 0 && Descending(sorted)
    && forall x :: x in sorted <==> Listed(s, day, keep, x)
  }

  /** A wanted session that was still held back. */
  ghost predicate HeldStill(s: Scan, day: Day, keep: Session -> bool, x: Session) {
    Present(s, x.id) && x == SessionOf(s, x.id) && keep(x) && Known(s, x.id) <= day
  }

  /** No session still held back belongs before the page's last. */
  ghost predicate NoneOvertakes(s: Scan, day: Day, keep: Session -> bool, last: Session) {
    forall x :: HeldStill(s, day, keep, x) ==> Newer(last, x)
  }

  // ---------------------------------------------------------------------------------------------
  // Tops of lists
  // ---------------------------------------------------------------------------------------------

  /** The sessions on the page or before it. */
  function UpTo(last: Session): Session -> bool {
    x => x == last || Newer(x, last)
  }

  lemma DescendingUnique(xs: seq<Session>, ys: seq<Session>)
    requires Descending(xs) && Descending(ys) && forall x :: x in xs <==> x in ys
    ensures xs == ys
  {
    forall x ensures multiset(xs)[x] == multiset(ys)[x] {
      OnceEach(xs, x);
      OnceEach(ys, x);
    }
    assert multiset(xs) == multiset(ys);
    forall i, j | 0 <= i < j < |xs| ensures !Newer(xs[j], xs[i]) {
      NewerIsTotal(xs[i], xs[j]);
    }
    forall i, j | 0 <= i < j < |ys| ensures !Newer(ys[j], ys[i]) {
      NewerIsTotal(ys[i], ys[j]);
    }
    forall x, y | x in xs && y in xs && x != y ensures Newer(x, y) || Newer(y, x) {
      var i :| 0 <= i < |xs| && xs[i] == x;
      var j :| 0 <= j < |xs| && xs[j] == y;
    }
    Sorting.SortedIsUnique(xs, ys, Newer);
  }

  predicate Prefers(keep: Session -> bool, xs: seq<Session>) {
    forall i, j :: 0 <= i < j < |xs| && keep(xs[j]) ==> keep(xs[i])
  }

  /** When those kept all come first, keeping them is taking a prefix. */
  lemma {:induction false} FilterIsPrefix(xs: seq<Session>, keep: Session -> bool)
    requires Prefers(keep, xs)
    ensures Sorting.Filter(xs, keep) <= xs
  {
    if xs != [] {
      var init, last := xs[..|xs| - 1], xs[|xs| - 1];
      FilterIsPrefix(init, keep);
      if keep(last) {
        assert forall x :: x in init ==> keep(x);
        FilterAll(init, keep);
      }
    }
  }

  lemma TopIsPrefix(xs: seq<Session>, last: Session)
    requires Descending(xs)
    ensures Sorting.Filter(xs, UpTo(last)) <= xs
  {
    forall i, j | 0 <= i < j < |xs| && UpTo(last)(xs[j]) ensures UpTo(last)(xs[i]) {
      if xs[j] != last {
        NewerIsTransitive(xs[i], xs[j], last);
      }
    }
    FilterIsPrefix(xs, UpTo(last));
  }

  /** The part of a descending list up to one of its elements. */
  lemma TopOf(xs: seq<Session>, n: nat, x: Session)
    requires Descending(xs) && 0 < n <= |xs|
    ensures x in xs[..n] <==> x in xs && UpTo(xs[n - 1])(x)
  {
    if x in xs[..n] {
      var i :| 0 <= i < n && xs[i] == x;
    }
    if x in xs && UpTo(xs[n - 1])(x) {
      var i :| 0 <= i < |xs| && xs[i] == x;
      if i >= n {
        NewerIsTotal(xs[n - 1], xs[i]);
      }
      assert xs[..n][i] == x;
    }
  }

  // ---------------------------------------------------------------------------------------------
  // One stop
  // ---------------------------------------------------------------------------------------------

  /** What is wanted is what was listed and what is held still. */
  lemma WantedIsListedOrHeld(s: Scan, day: Day, all: seq<Session>, keep: Session -> bool, x: Session)
    requires Listing(s, all)
    ensures x in Sorting.Filter(all, keep) <==> Listed(s, day, keep, x) || HeldStill(s, day, keep, x)
  {
    Sorting.FilterIn(all, keep, x);
  }

  lemma SameTop(s: Scan, day: Day, all: seq<Session>, keep: Session -> bool, sorted: seq<Session>, limit: nat)
    requires Listing(s, all) && StoppedWith(s, day, keep, sorted, limit)
    requires NoneOvertakes(s, day, keep, sorted[limit - 1])
    ensures sorted[..limit] <= Sorting.Filter(all, keep)
  {
    var kept, last := Sorting.Filter(all, keep), sorted[limit - 1];
    var top := Sorting.Filter(kept, UpTo(last));
    DescendingFilter(all, keep);
    DescendingFilter(kept, UpTo(last));
    TopIsPrefix(kept, last);
    forall x ensures x in top <==> x in sorted[..limit] {
      Sorting.FilterIn(kept, UpTo(last), x);
      WantedIsListedOrHeld(s, day, all, keep, x);
      TopOf(sorted, limit, x);
      NewerIsTotal(last, x);
    }
    DescendingUnique(top, sorted[..limit]);
  }

  /** There is at least as much to list as was gathered. */
  lemma MoreThanAPage(s: Scan, day: Day, all: seq<Session>, keep: Session -> bool, sorted: seq<Session>, limit: nat)
    requires Listing(s, all) && StoppedWith(s, day, keep, sorted, limit)
    ensures |Sorting.Filter(all, keep)| > limit
  {
    var kept := Sorting.Filter(all, keep);
    DescendingFilter(all, keep);
    forall x ensures multiset(sorted)[x] <= multiset(kept)[x] {
      OnceEach(sorted, x);
      OnceEach(kept, x);
      WantedIsListedOrHeld(s, day, all, keep, x);
    }
    assert multiset(sorted) <= multiset(kept);
    assert multiset(kept) == multiset(sorted) + (multiset(kept) - multiset(sorted));
    assert |multiset(sorted)| == |sorted| && |multiset(kept)| == |kept|;
  }

  /** A session that should have been on the page, and is not; and the cursor is already past it. */
  lemma Overtaken(s: Scan, day: Day, all: seq<Session>, keep: Session -> bool, sorted: seq<Session>, limit: nat,
          x: Session)
    requires Listing(s, all) && StoppedWith(s, day, keep, sorted, limit) && |Sorting.Filter(all, keep)| > limit
    requires HeldStill(s, day, keep, x) && !Newer(sorted[limit - 1], x)
    ensures sorted[..limit] != Sorting.Filter(all, keep)[..limit]
    ensures sorted[limit - 1].id != "" ==> !After(CursorOf(sorted[limit - 1]), x)
  {
    var kept, last := Sorting.Filter(all, keep), sorted[limit - 1];
    DescendingFilter(all, keep);
    WantedIsListedOrHeld(s, day, all, keep, x);
    assert last in sorted && x !in sorted;
    NewerIsTotal(last, x);
    TopOf(kept, limit, x);
    assert kept[..limit][limit - 1] == kept[limit - 1] && sorted[..limit][limit - 1] == last;
    assert x in sorted[..limit] ==> x in sorted;
  }

  /** The page cut from what the scan gathered is the page cut from the whole list if and only if no session
      still held back comes before the last on the page. */
  lemma EarlyStopIsRightIff(s: Scan, day: Day, all: seq<Session>, keep: Session -> bool, sorted: seq<Session>,
          limit: nat)
    requires Listing(s, all) && StoppedWith(s, day, keep, sorted, limit)
    ensures PageOf(sorted, limit).sessions == PageOf(Sorting.Filter(all, keep), limit).sessions
       <==> NoneOvertakes(s, day, keep, sorted[limit - 1])
  {
    MoreThanAPage(s, day, all, keep, sorted, limit);
    var kept, last := Sorting.Filter(all, keep), sorted[limit - 1];
    if NoneOvertakes(s, day, keep, last) {
      SameTop(s, day, all, keep, sorted, limit);
      assert kept[..limit] == sorted[..limit];
    } else {
      var x :| HeldStill(s, day, keep, x) && !Newer(last, x);
      Overtaken(s, day, all, keep, sorted, limit, x);
    }
  }

  // ---------------------------------------------------------------------------------------------
  // Every page
  // ---------------------------------------------------------------------------------------------

  /** Session `a` reaches further back than two others of the window and is listed before both, and neither
      of those is on the window's oldest day, so that a scan can complete them without completing `a`. */
  ghost predicate Overtaker(s: Scan, a: string, b: string, c: string) {
    && Present(s, a) && Present(s, b) && Present(s, c) && b != c
    && Known(s, b) > Known(s, a) && Known(s, c) > Known(s, a)
    && Known(s, b) > DayOf(s.from) && Known(s, c) > DayOf(s.from)
    && Newer(SessionOf(s, a), SessionOf(s, b)) && Newer(SessionOf(s, a), SessionOf(s, c))
  }

  /** What a caller can check of the window before asking for any page. */
  ghost predicate NoOvertaker(s: Scan) {
    forall a, b, c :: !Overtaker(s, a, b, c)
  }

  /** The page cut from what the scan lists. */
  ghost function ScannedPage(s: Scan, all: seq<Session>, keep: Session -> bool, limit: nat): Page
    requires limit > 0
  {
    PageOf(ScannedFrom(s, all, keep, limit, DayOf(s.to)), limit)
  }

  ghost predicate PageIsRight(s: Scan, all: seq<Session>, keep: Session -> bool, limit: nat)
    requires limit > 0
  {
    ScannedPage(s, all, keep, limit) == PageOf(Sorting.Filter(all, keep), limit)
  }

  lemma StopIsAStop(s: Scan, all: seq<Session>, keep: Session -> bool, limit: nat, day: Day)
    requires Listing(s, all) && limit > 0 && |DoneBy(s, all, keep, day)| > limit
    ensures StoppedWith(s, day, keep, DoneBy(s, all, keep, day), limit)
  {
    var both := (x: Session) => keep(x) && Passed(s, day, x);
    DescendingFilter(all, both);
    forall x ensures x in DoneBy(s, all, keep, day) <==> Listed(s, day, keep, x) {
      Sorting.FilterIn(all, both, x);
    }
  }

  /** A session held back that overtakes a full page overtakes its last session and the one after it. */
  lemma OvertakingThePage(s: Scan, all: seq<Session>, keep: Session -> bool, limit: nat, day: Day, x: Session)
    requires Listing(s, all) && limit > 0 && day >= DayOf(s.from)
    requires StoppedWith(s, day, keep, DoneBy(s, all, keep, day), limit)
    requires HeldStill(s, day, keep, x) && !Newer(DoneBy(s, all, keep, day)[limit - 1], x)
    ensures var done := DoneBy(s, all, keep, day); Overtaker(s, x.id, done[limit - 1].id, done[limit].id)
  {
    var done := DoneBy(s, all, keep, day);
    var b, c := done[limit - 1], done[limit];
    assert b in done && c in done;
    assert Listed(s, day, keep, b) && Listed(s, day, keep, c);
    NewerIsTotal(b, x);
    NewerIsTransitive(x, b, c);
    NewerIsTotal(b, c);
  }

  /** A page cut at a stop is right when there is no overtaker. */
  lemma StopIsRight(s: Scan, all: seq<Session>, keep: Session -> bool, limit: nat, day: Day)
    requires Listing(s, all) && limit > 0 && day >= DayOf(s.from) && NoOvertaker(s)
    requires |DoneBy(s, all, keep, day)| > limit
    ensures PageOf(DoneBy(s, all, keep, day), limit) == PageOf(Sorting.Filter(all, keep), limit)
  {
    var done, kept := DoneBy(s, all, keep, day), Sorting.Filter(all, keep);
    StopIsAStop(s, all, keep, limit, day);
    forall x | HeldStill(s, day, keep, x) ensures Newer(done[limit - 1], x) {
      if !Newer(done[limit - 1], x) {
        OvertakingThePage(s, all, keep, limit, day, x);
      }
    }
    MoreThanAPage(s, day, all, keep, done, limit);
    SameTop(s, day, all, keep, done, limit);
    assert done[..limit] == kept[..limit];
    assert done[..limit][limit - 1] == done[limit - 1] && kept[..limit][limit - 1] == kept[limit - 1];
  }

  lemma {:induction false} ScanIsRight(s: Scan, all: seq<Session>, keep: Session -> bool, limit: nat, day: Day)
    requires Listing(s, all) && limit > 0 && NoOvertaker(s)
    ensures PageOf(ScannedFrom(s, all, keep, limit, day), limit) == PageOf(Sorting.Filter(all, keep), limit)
    decreases day - DayOf(s.from)
  {
    if day >= DayOf(s.from) {
      if |DoneBy(s, all, keep, day)| > limit {
        StopIsRight(s, all, keep, limit, day);
      } else {
        ScanIsRight(s, all, keep, limit, day - 1);
      }
    }
  }

  // ---------------------------------------------------------------------------------------------
  // An overtaker breaks a page
  // ---------------------------------------------------------------------------------------------

  /** Wanted are just these three. */
  ghost predicate OnlyThese(all: seq<Session>, keep: Session -> bool, a: string, b: string, c: string) {
    forall x :: x in all ==> (keep(x) <==> x.id == a || x.id == b || x.id == c)
  }

  function These(a: string, b: string, c: string): Session -> bool {
    (x: Session) => x.id == a || x.id == b || x.id == c
  }

  lemma OnlyTheseWanted(all: seq<Session>, a: string, b: string, c: string)
    ensures OnlyThese(all, Wanted(NO_CURSOR, These(a, b, c)), a, b, c)
  {
  }

  lemma OneSessionAtMost(xs: seq<Session>, y: Session)
    requires Descending(xs) && forall x :: x in xs ==> x == y
    ensures |xs| <= 1
  {
    if |xs| > 1 {
      assert xs[0] in xs && xs[1] in xs && Newer(xs[0], xs[1]);
      NewerIsTotal(xs[0], xs[1]);
    }
  }

  lemma DoneIs(s: Scan, all: seq<Session>, keep: Session -> bool, day: Day, x: Session)
    requires Listing(s, all)
    ensures Descending(DoneBy(s, all, keep, day))
    ensures x in DoneBy(s, all, keep, day) <==> x in all && keep(x) && Passed(s, day, x)
  {
    var both := (y: Session) => keep(y) && Passed(s, day, y);
    DescendingFilter(all, both);
    Sorting.FilterIn(all, both, x);
  }

  /** As long as one of the two is not complete, no more than the other is. */
  lemma NotYet(s: Scan, all: seq<Session>, keep: Session -> bool, a: string, b: string, c: string, day: Day)
    requires Listing(s, all) && Overtaker(s, a, b, c) && OnlyThese(all, keep, a, b, c)
    requires day >= Known(s, b) || day >= Known(s, c)
    ensures |DoneBy(s, all, keep, day)| <= 1
  {
    var done := DoneBy(s, all, keep, day);
    var other := SessionOf(s, if day >= Known(s, b) then c else b);
    forall x | x in done ensures x == other {
      DoneIs(s, all, keep, day, x);
    }
    DoneIs(s, all, keep, day, other);
    OneSessionAtMost(done, other);
  }

  lemma TwoSessions(xs: seq<Session>, x: Session, y: Session)
    requires x in xs && y in xs && x != y
    ensures |xs| > 1
  {
  }

  /** The day the scan stops on: by then both are complete, and `a` is not. */
  ghost function StopDay(s: Scan, b: string, c: string): Day
    requires Present(s, b) && Present(s, c)
  {
    (if Known(s, b) < Known(s, c) then Known(s, b) else Known(s, c)) - 1
  }

  lemma BothDone(s: Scan, all: seq<Session>, keep: Session -> bool, a: string, b: string, c: string)
    requires Listing(s, all) && Overtaker(s, a, b, c) && OnlyThese(all, keep, a, b, c)
    ensures |DoneBy(s, all, keep, StopDay(s, b, c))| > 1
    ensures forall x :: x in DoneBy(s, all, keep, StopDay(s, b, c)) ==> x.id == b || x.id == c
  {
    var day := StopDay(s, b, c);
    var done := DoneBy(s, all, keep, day);
    SummaryHasID(b, Whole(s, b));
    SummaryHasID(c, Whole(s, c));
    DoneIs(s, all, keep, day, SessionOf(s, b));
    DoneIs(s, all, keep, day, SessionOf(s, c));
    TwoSessions(done, SessionOf(s, b), SessionOf(s, c));
    forall x | x in done ensures x.id == b || x.id == c {
      DoneIs(s, all, keep, day, x);
    }
  }

  lemma {:induction false} StopsThere(s: Scan, all: seq<Session>, keep: Session -> bool, a: string, b: string,
          c: string, day: Day)
    requires Listing(s, all) && Overtaker(s, a, b, c) && OnlyThese(all, keep, a, b, c) && day >= StopDay(s, b, c)
    ensures ScannedFrom(s, all, keep, 1, day) == DoneBy(s, all, keep, StopDay(s, b, c))
    decreases day - StopDay(s, b, c)
  {
    if day == StopDay(s, b, c) {
      BothDone(s, all, keep, a, b, c);
    } else {
      NotYet(s, all, keep, a, b, c, day);
      StopsThere(s, all, keep, a, b, c, day - 1);
    }
  }

  /** A session is known to touch a day of the window. */
  lemma KnownInWindow(s: Scan, id: string)
    requires Present(s, id)
    ensures Known(s, id) <= DayOf(s.to)
  {
    var turns := Whole(s, id);
    EarliestDayIs(turns);
    var t := turns[0];
    SeenIn(s, AllDays(s), id, t);
    DaysAreOrdered(t.StartedAt(), s.to);
  }

  /** Asked for one at a time, the three come out wrong: the first page holds `b` or `c` although `a` comes
      before both, and the cursor it hands out is past `a`. */
  lemma OvertakerBreaksAPage(s: Scan, all: seq<Session>, keep: Session -> bool, a: string, b: string, c: string)
    returns (last: Session)
    requires Listing(s, all) && Overtaker(s, a, b, c) && OnlyThese(all, keep, a, b, c)
    ensures ScannedPage(s, all, keep, 1).sessions == [last] && (last.id == b || last.id == c)
    ensures !PageIsRight(s, all, keep, 1)
    ensures last.id != "" ==> !After(CursorOf(last), SessionOf(s, a))
  {
    var day := StopDay(s, b, c);
    var done, x := DoneBy(s, all, keep, day), SessionOf(s, a);
    KnownInWindow(s, b);
    KnownInWindow(s, c);
    StopsThere(s, all, keep, a, b, c, DayOf(s.to));
    BothDone(s, all, keep, a, b, c);
    StopIsAStop(s, all, keep, 1, day);
    MoreThanAPage(s, day, all, keep, done, 1);
    last := done[0];
    assert last in done;
    DoneIs(s, all, keep, day, last);
    SummaryHasID(a, Whole(s, a));
    NewerIsTotal(last, x);
    Overtaken(s, day, all, keep, done, 1, x);
    assert done[..1] == [last];
  }

  /** Every page of a window is right, whatever its cursor, filter and limit, if and only if no session of the
      window overtakes two others. */
  lemma PagesAreRightIff(s: Scan, all: seq<Session>)
    requires Listing(s, all)
    ensures (forall cursor, matches, limit: nat :: limit > 0 ==> PageIsRight(s, all, Wanted(cursor, matches), limit))
       <==> NoOvertaker(s)
  {
    if NoOvertaker(s) {
      forall cursor, matches, limit: nat | limit > 0 ensures PageIsRight(s, all, Wanted(cursor, matches), limit) {
        ScanIsRight(s, all, Wanted(cursor, matches), limit, DayOf(s.to));
      }
    } else {
      var a, b, c :| Overtaker(s, a, b, c);
      OnlyTheseWanted(all, a, b, c);
      var _ := OvertakerBreaksAPage(s, all, Wanted(NO_CURSOR, These(a, b, c)), a, b, c);
      assert !PageIsRight(s, all, Wanted(NO_CURSOR, These(a, b, c)), 1);
    }
  }
}
