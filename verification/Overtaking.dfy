/** Windows in which the page scan stops too early: a long session still held back is listed before everything
    on the page, and the cursor then passes it for good. */
module Overtaking {
  import opened Archive
  import opened EarlyStop
  import opened Events
  import opened Fold
  import opened Paging
  import opened Reading
  import opened Sessions
  import Aggregates
  import Details
  import Listings
  import Tables
  import Windows

  lemma {:induction false} EndsAtLeast(x: Session, turns: seq<Turn>, t: Turn)
    requires t in turns
    ensures Sum(x, turns).endedAt >= EndOf(t)
  {
    var init, last := turns[..|turns| - 1], turns[|turns| - 1];
    if t in init {
      EndsAtLeast(x, init, t);
    }
  }

  lemma {:induction false} EndsAtMost(x: Session, turns: seq<Turn>, bound: Instant)
    requires x.endedAt <= bound && forall t :: t in turns ==> EndOf(t) <= bound
    ensures Sum(x, turns).endedAt <= bound
  {
    if turns != [] {
      EndsAtMost(x, turns[..|turns| - 1], bound);
      assert turns[|turns| - 1] in turns;
    }
  }

  // ---------------------------------------------------------------------------------------------
  // Three days and three sessions
  // ---------------------------------------------------------------------------------------------

  /** A long session began on the first day and was resumed on the third, where it ended last; two short
      sessions lie on the second day and on the third. */
  datatype Story = Story(first: Day, began: Turn, other: Turn, short: Turn, resumed: Turn)

  predicate On(t: Turn, day: Day) {
    DayOf(t.StartedAt()) == day && Aggregates.Plain(t)
  }

  predicate Tells(c: Story) {
    && On(c.began, c.first) && On(c.other, c.first + 1) && On(c.short, c.first + 2) && On(c.resumed, c.first + 2)
    && c.began.SessionID() == c.resumed.SessionID()
    && c.other.SessionID() != c.resumed.SessionID() && c.short.SessionID() != c.resumed.SessionID()
    && c.other.SessionID() != c.short.SessionID()
    && EndOf(c.resumed) > EndOf(c.short) >= EndOf(c.other) >= ZERO_TIME
  }

  function TurnsOn(c: Story, d: Day): seq<Turn> {
    if d == c.first + 2 then [c.short, c.resumed]
    else if d == c.first + 1 then [c.other]
    else if d == c.first then [c.began]
    else []
  }

  function LedgerOf(c: Story): Ledger {
    d => TurnsOn(c, d)
  }

  /** The first two days are compacted, the last is not. */
  ghost function PartsBy(c: Story, full: (Day, seq<Turn>) -> Partition): Partitions {
    map[c.first := full(c.first, TurnsOn(c, c.first)), c.first + 1 := full(c.first + 1, TurnsOn(c, c.first + 1))]
  }

  ghost function PartsOf(c: Story): Partitions {
    PartsBy(c, FullOf)
  }

  predicate IsOld(c: Story, d: Day) {
    d == c.first || d == c.first + 1
  }

  lemma PartIs(c: Story, full: (Day, seq<Turn>) -> Partition, d: Day)
    ensures d in PartsBy(c, full) <==> IsOld(c, d)
    ensures PartOf(PartsBy(c, full), d) == if IsOld(c, d) then full(d, TurnsOn(c, d)) else NO_PARTITION
  {
  }

  lemma PlainTurns(c: Story, d: Day)
    requires Tells(c)
    ensures Windows.PlainDay(TurnsOn(c, d))
  {
  }

  ghost function ViewOf(c: Story): View {
    View({c.first, c.first + 1, c.first + 2}, LedgerOf(c), PartsOf(c),
         ReadIndex(PublishUpTo(NOT_PUBLISHED, Gathered(PartsOf(c)), INDEX_PUTS)))
  }

  /** All three days are asked for. */
  ghost function ScanFor(c: Story): Scan {
    ScanOf(ViewOf(c), StartOf(c.first), StartOf(c.first + 3) - 1)
  }

  lemma PartIsHeld(v: View, ledger: Ledger, d: Day, turns: seq<Turn>)
    requires v.built(d) == ledger(d) == turns
    requires PartOf(v.parts, d) == NO_PARTITION || PartOf(v.parts, d) == FullOf(d, turns)
    requires Windows.PlainDay(turns)
    ensures Listings.ReadyOn(v, ledger, d)
  {
  }

  lemma ViewIsReady(c: Story)
    requires Tells(c)
    ensures Listings.TurnsReady(ViewOf(c), LedgerOf(c))
  {
    forall d ensures Listings.ReadyOn(ViewOf(c), LedgerOf(c), d) {
      PartIs(c, FullOf, d);
      PlainTurns(c, d);
      PartIsHeld(ViewOf(c), LedgerOf(c), d, TurnsOn(c, d));
    }
  }

  // ---------------------------------------------------------------------------------------------
  // What the scan has to go by
  // ---------------------------------------------------------------------------------------------

  /** The same session, start and end. */
  predicate Like(t: Turn, o: Turn) {
    t.SessionID() == o.SessionID() && t.StartedAt() == o.StartedAt() && EndOf(t) == EndOf(o)
  }

  predicate LikeEach(ts: seq<Turn>, os: seq<Turn>) {
    |ts| == |os| && forall i :: 0 <= i < |os| ==> Like(ts[i], os[i])
  }

  ghost predicate Reads(s: Scan, c: Story) {
    forall d :: LikeEach(s.read(d), TurnsOn(c, d))
  }

  predicate NamedOn(c: Story, d: Day, id: string) {
    (d == c.first && id == c.began.SessionID()) || (d == c.first + 1 && id == c.other.SessionID())
  }

  ghost predicate Names(s: Scan, c: Story) {
    forall d, id :: d in DaysFor(s.idx, id) <==> NamedOn(c, d, id)
  }

  ghost predicate Shows(s: Scan, c: Story) {
    && s.from == StartOf(c.first) && s.to == StartOf(c.first + 3) - 1
    && Reads(s, c) && Names(s, c)
  }

  lemma LikeNarrow(ts: seq<Turn>, os: seq<Turn>)
    requires AllStandNarrow(ts, os)
    ensures LikeEach(ts, os)
  {
    forall i | 0 <= i < |os| ensures Like(ts[i], os[i]) {
      assert StandsNarrow(ts[i], os[i]);
    }
  }

  lemma ScanReads(c: Story)
    requires Tells(c)
    ensures Reads(ScanFor(c), c)
  {
    ViewIsReady(c);
    forall d ensures LikeEach(ScanFor(c).read(d), TurnsOn(c, d)) {
      assert Listings.ReadyOn(ViewOf(c), LedgerOf(c), d);
      Listings.DayStandsNarrow(ViewOf(c), LedgerOf(c), d);
      LikeNarrow(NarrowTurns(ViewOf(c), d), TurnsOn(c, d));
    }
  }

  /** A table of session rows names the sessions of the turns it was computed from. */
  lemma RowsName(parts: Partitions, d: Day, turns: seq<Turn>, id: string)
    requires d in parts && parts[d] == FullOf(d, turns) && turns != []
    ensures d in Gathered(parts).sessions && d in Gathered(parts).days
    ensures NamesSession(Gathered(parts).sessions[d], id) <==> id in Windows.IDs(turns)
  {
    Details.SessionRowsName(d, turns, id);
    Details.SessionRowsName(d, turns, turns[0].SessionID());
    assert turns[0] in turns;
    assert turns[0].SessionID() in Windows.IDs(turns);
  }

  lemma OneID(t: Turn, id: string)
    ensures id in Windows.IDs([t]) <==> id == t.SessionID()
  {
    if id == t.SessionID() {
      assert t in [t];
    }
  }

  lemma FullyPublished(idx: Index, d: Day)
    requires d in idx.days
    ensures ReadIndex(PublishUpTo(NOT_PUBLISHED, idx, INDEX_PUTS)) == Some(idx)
  {
  }

  lemma IndexNames(c: Story, idx: Index, d: Day, id: string)
    requires idx == Gathered(PartsOf(c))
    ensures c.first in idx.days && (d in DaysFor(Some(idx), id) <==> NamedOn(c, d, id))
  {
    PartIs(c, FullOf, c.first);
    PartIs(c, FullOf, d);
    OldDayNames(c, idx, PartsOf(c), c.first, id);
    if IsOld(c, d) {
      OldDayNames(c, idx, PartsOf(c), d, id);
    }
  }

  lemma OldDayNames(c: Story, idx: Index, parts: Partitions, d: Day, id: string)
    requires IsOld(c, d) && d in parts && parts[d] == FullOf(d, TurnsOn(c, d)) && idx == Gathered(parts)
    ensures d in idx.days && (d in DaysFor(Some(idx), id) <==> NamedOn(c, d, id))
  {
    RowsName(parts, d, TurnsOn(c, d), id);
    OneID(TurnsOn(c, d)[0], id);
  }

  lemma ScanShows(c: Story)
    requires Tells(c)
    ensures Shows(ScanFor(c), c)
  {
    ScanReads(c);
    var idx := Gathered(PartsOf(c));
    forall d, id ensures d in DaysFor(Some(idx), id) <==> NamedOn(c, d, id) {
      IndexNames(c, idx, d, id);
    }
    IndexNames(c, idx, c.first, "");
    FullyPublished(idx, c.first);
  }

  // ---------------------------------------------------------------------------------------------
  // What it meets
  // ---------------------------------------------------------------------------------------------

  lemma ThreeDays(s: Scan, c: Story)
    requires Shows(s, c)
    ensures DayOf(s.from) == c.first && DayOf(s.to) == c.first + 2 && AllDays(s) == 3 && s.from <= s.to
  {
  }

  lemma Happens(c: Story, d: Day, o: Turn)
    requires Tells(c) && o in TurnsOn(c, d)
    ensures c.first <= d <= c.first + 2 && On(o, d)
    ensures o == c.began || o == c.other || o == c.short || o == c.resumed
  {
  }

  lemma MetTurn(s: Scan, c: Story, id: string, t: Turn) returns (d: Day, o: Turn)
    requires Tells(c) && Shows(s, c) && t in Whole(s, id)
    ensures o in TurnsOn(c, d) && Like(t, o) && t.SessionID() == id
  {
    SeenIn(s, AllDays(s), id, t);
    d :| DayOf(s.to) - AllDays(s) < d <= DayOf(s.to) && t in s.read(d);
    o := ReadTurn(s, c, d, t);
  }

  lemma ReadTurn(s: Scan, c: Story, d: Day, t: Turn) returns (o: Turn)
    requires Shows(s, c) && t in s.read(d)
    ensures o in TurnsOn(c, d) && Like(t, o)
  {
    assert LikeEach(s.read(d), TurnsOn(c, d));
    var i :| 0 <= i < |s.read(d)| && s.read(d)[i] == t;
    o := TurnsOn(c, d)[i];
  }

  lemma Met(s: Scan, c: Story, d: Day, o: Turn) returns (t: Turn)
    requires Tells(c) && Shows(s, c) && o in TurnsOn(c, d)
    ensures Like(t, o) && t in Whole(s, o.SessionID())
  {
    var i :| 0 <= i < |TurnsOn(c, d)| && TurnsOn(c, d)[i] == o;
    assert LikeEach(s.read(d), TurnsOn(c, d));
    t := s.read(d)[i];
    ThreeDays(s, c);
    Happens(c, d, o);
    DaysAreOrdered(s.from, t.StartedAt());
    SeenIn(s, AllDays(s), o.SessionID(), t);
  }

  lemma StoryIsPlaced(s: Scan, c: Story)
    requires Tells(c) && Shows(s, c)
    ensures Placed(s, c.first + 2)
  {
    forall d, t | t in s.read(d) ensures PlacedTurn(s, d, t, c.first + 2) {
      var o := ReadTurn(s, c, d, t);
      Happens(c, d, o);
      assert d < c.first + 2 ==> NamedOn(c, d, o.SessionID());
    }
  }

  // ---------------------------------------------------------------------------------------------
  // The long session overtakes the others
  // ---------------------------------------------------------------------------------------------

  lemma LongReachesBack(s: Scan, c: Story)
    requires Tells(c) && Shows(s, c)
    ensures Present(s, c.resumed.SessionID()) && Known(s, c.resumed.SessionID()) <= c.first
  {
    var t := Met(s, c, c.first, c.began);
    EarliestDayIs(Whole(s, c.resumed.SessionID()));
  }

  lemma StartsLater(s: Scan, c: Story, id: string, t: Turn)
    requires Tells(c) && Shows(s, c) && id != c.resumed.SessionID() && t in Whole(s, id)
    ensures DayOf(t.StartedAt()) > c.first
  {
    var d, o := MetTurn(s, c, id, t);
    Happens(c, d, o);
  }

  lemma OthersDoNot(s: Scan, c: Story, id: string)
    requires Tells(c) && Shows(s, c) && id != c.resumed.SessionID() && Present(s, id)
    ensures Known(s, id) > c.first
  {
    var turns := Whole(s, id);
    EarliestDayIs(turns);
    var t :| t in turns && DayOf(t.StartedAt()) == EarliestDay(turns);
    StartsLater(s, c, id, t);
    if DaysFor(s.idx, id) != {} {
      var e := Tables.Some(DaysFor(s.idx, id));
      OldestIndexedIs(s.idx, id, e);
      assert NamedOn(c, OldestIndexed(s.idx, id).value, id);
    }
  }

  lemma LongEndsLater(s: Scan, c: Story, id: string)
    requires Tells(c) && Shows(s, c) && id != c.resumed.SessionID()
    ensures Newer(SessionOf(s, c.resumed.SessionID()), SessionOf(s, id))
  {
    var t := Met(s, c, c.first + 2, c.resumed);
    EndsAtLeast(NewSession(c.resumed.SessionID()), Whole(s, c.resumed.SessionID()), t);
    forall u | u in Whole(s, id) ensures EndOf(u) <= EndOf(c.short) {
      var d, o := MetTurn(s, c, id, u);
      Happens(c, d, o);
    }
    EndsAtMost(NewSession(id), Whole(s, id), EndOf(c.short));
  }

  lemma LongOvertakes(s: Scan, c: Story)
    requires Tells(c) && Shows(s, c)
    ensures Overtaker(s, c.resumed.SessionID(), c.short.SessionID(), c.other.SessionID())
  {
    var _ := Met(s, c, c.first + 2, c.short);
    var _ := Met(s, c, c.first + 1, c.other);
    ThreeDays(s, c);
    LongReachesBack(s, c);
    OthersDoNot(s, c, c.short.SessionID());
    OthersDoNot(s, c, c.other.SessionID());
    LongEndsLater(s, c, c.short.SessionID());
    LongEndsLater(s, c, c.other.SessionID());
  }

  lemma OneOfThree(s: Scan, c: Story, id: string)
    requires Tells(c) && Shows(s, c) && Present(s, id)
    ensures id == c.resumed.SessionID() || id == c.short.SessionID() || id == c.other.SessionID()
  {
    var t := Whole(s, id)[0];
    assert t in Whole(s, id);
    var d, o := MetTurn(s, c, id, t);
    Happens(c, d, o);
  }

  function Anything(): Session -> bool {
    x => true
  }

  lemma OnlyThree(s: Scan, c: Story, all: seq<Session>)
    requires Tells(c) && Shows(s, c) && Listing(s, all)
    ensures OnlyThese(all, Wanted(NO_CURSOR, Anything()), c.resumed.SessionID(), c.short.SessionID(),
        c.other.SessionID())
  {
    forall x | x in all
      ensures x.id == c.resumed.SessionID() || x.id == c.short.SessionID() || x.id == c.other.SessionID()
    {
      OneOfThree(s, c, x.id);
    }
  }

  /** Everything is stored and indexed as it should be; still, asked for one session, the listing answers with
      one of the short ones although the long one comes first, and the cursor it hands out is past it. */
  lemma ScanStopsTooEarly(c: Story) returns (all: seq<Session>, last: Session)
    requires Tells(c) && c.short.SessionID() != "" && c.other.SessionID() != ""
    ensures var s := ScanFor(c);
            && Listings.TurnsReady(ViewOf(c), LedgerOf(c)) && Placed(s, c.first + 2) && Listing(s, all)
            && ScannedPage(s, all, Wanted(NO_CURSOR, Anything()), 1).sessions == [last]
            && last.id != c.resumed.SessionID()
            && !PageIsRight(s, all, Wanted(NO_CURSOR, Anything()), 1)
            && !After(CursorOf(last), SessionOf(s, c.resumed.SessionID()))
  {
    var s := ScanFor(c);
    ScanShows(c);
    ThreeDays(s, c);
    ViewIsReady(c);
    all := Listings.ListOf(s);
    Listings.ListingExists(s);
    last := PageIsWrong(s, c, all);
  }

  lemma PageIsWrong(s: Scan, c: Story, all: seq<Session>) returns (last: Session)
    requires Tells(c) && Shows(s, c) && Listing(s, all) && c.short.SessionID() != "" && c.other.SessionID() != ""
    ensures Placed(s, c.first + 2)
    ensures ScannedPage(s, all, Wanted(NO_CURSOR, Anything()), 1).sessions == [last]
    ensures last.id != c.resumed.SessionID()
    ensures !PageIsRight(s, all, Wanted(NO_CURSOR, Anything()), 1)
    ensures !After(CursorOf(last), SessionOf(s, c.resumed.SessionID()))
  {
    StoryIsPlaced(s, c);
    LongOvertakes(s, c);
    OnlyThree(s, c, all);
    last := OvertakerBreaksAPage(s, all, Wanted(NO_CURSOR, Anything()), c.resumed.SessionID(), c.short.SessionID(),
                                 c.other.SessionID());
  }

  // ---------------------------------------------------------------------------------------------
  // Such a story
  // ---------------------------------------------------------------------------------------------

  function TurnAt(id: string, at: Instant): Turn {
    BLANK_TURN.(facts := BLANK_FACTS.(labels := BLANK_FACTS.labels.(sessionID := id),
                                      shared := BLANK_FACTS.shared.(startedAt := at)))
  }

  lemma TurnIs(id: string, at: Instant)
    ensures var t := TurnAt(id, at); On(t, DayOf(at)) && EndOf(t) == at && t.SessionID() == id
  {
  }

  /** From any day on: turns at the start of each day, the long session resumed right after the short one. */
  lemma SomeStory(first: Day, long: string, short: string, other: string)
    requires first >= 0 && long != short && long != other && short != other
    ensures Tells(Story(first, TurnAt(long, StartOf(first)), TurnAt(other, StartOf(first + 1)),
                        TurnAt(short, StartOf(first + 2)), TurnAt(long, StartOf(first + 2) + 1)))
  {
    TurnIs(long, StartOf(first));
    TurnIs(other, StartOf(first + 1));
    TurnIs(short, StartOf(first + 2));
    TurnIs(long, StartOf(first + 2) + 1);
  }
}
