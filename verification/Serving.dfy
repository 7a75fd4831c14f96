/** From runs of the archive to what queries rest on: in which states the stored copies stand for every event
    ever captured, query by query, and exactly when one of them does not. */
module Serving {
  import opened Archive
  import opened Calm
  import opened Events
  import opened Freezing
  import opened Lifecycle
  import opened Reading
  import opened Skipping
  import Details
  import Fold
  import Listings
  import Paging
  import Ranking
  import Rollup
  import Sessions
  import Sorting
  import Tables
  import TurnFacts
  import Windows

  /** What a query reads in a state of the archive. */
  function ViewOf(s: System): View {
    View(s.hot.Keys, d => Fold.TurnsOf(EventsOn(s.hot, d)), s.parts, LoadIndex(s.cached, s.published))
  }

  /** The turns of every event ever appended. */
  function LedgerOf(s: System): Ledger {
    d => Fold.TurnsOf(EventsOn(s.ever, d))
  }

  /** The states that undisturbed runs get to, whatever failed or crashed on the way. */
  ghost predicate Reached(s: System) {
    exists prune, today, actions :: ReachedBy(s, prune, today, actions)
  }

  ghost predicate ReachedBy(s: System, prune: bool, today: Day, actions: seq<Action>) {
    GetsBy(FORMAT, NewArchive(prune, today), s, Undisturbed, actions)
  }

  lemma ReachedKeeps(s: System)
    requires Reached(s)
    ensures Lossless(FORMAT) && Inv(FORMAT, s) && CalmInv(s)
  {
    var prune, today, actions :| ReachedBy(s, prune, today, actions);
    FormatIsLossless();
    CalmOverRuns(FORMAT, prune, today, actions);
    InvOverRuns(FORMAT, prune, today, actions);
  }

  // ---------------------------------------------------------------------------------------------
  // Turns
  // ---------------------------------------------------------------------------------------------

  /** At every moment, also in the middle of a write or after a crash, every day's turns are held. */
  lemma TurnsAreHeld(s: System, day: Day)
    requires Reached(s)
    ensures HoldsTurns(ViewOf(s), LedgerOf(s), day)
  {
    ReachedKeeps(s);
    CalmDay(FORMAT, s, day);
  }

  lemma NoEventsNoTurns()
    ensures Fold.TurnsOf([]) == []
  {
  }

  /** And a day that is skipped has none. */
  lemma SkippedHasNoTurns(s: System, day: Day)
    requires Reached(s) && KnownEmpty(ViewOf(s).idx, ViewOf(s).hot, day)
    ensures LedgerOf(s)(day) == []
  {
    var prune, today, actions :| ReachedBy(s, prune, today, actions);
    FormatIsLossless();
    CalmOverRuns(FORMAT, prune, today, actions);
    if prune {
      SkippingIsSafeWithPruning(FORMAT, prune, today, actions, day);
    } else {
      SkippingIsSafeWithoutPruning(FORMAT, today, actions, day);
    }
    NoEventsNoTurns();
  }

  /** Turns whose columns hold what they are given. */
  ghost predicate PlainLedger(ledger: Ledger) {
    forall day :: Windows.PlainDay(ledger(day))
  }

  /** Listings, newest first or ranked, can be answered in every reachable state. */
  lemma EveryStateCanList(s: System)
    requires Reached(s) && PlainLedger(LedgerOf(s))
    ensures Listings.TurnsReady(ViewOf(s), LedgerOf(s)) && Ranking.RankReady(ViewOf(s), LedgerOf(s))
  {
    forall d ensures Ranking.RankReadyOn(ViewOf(s), LedgerOf(s), d) && Listings.ReadyOn(ViewOf(s), LedgerOf(s), d) {
      TurnsAreHeld(s, d);
      if KnownEmpty(ViewOf(s).idx, ViewOf(s).hot, d) {
        SkippedHasNoTurns(s, d);
      }
    }
  }

  /** Measurements, as opposed to captured content, always start on the day they are filed under. */
  lemma MeasurementsStartOnTheirDay(es: seq<Event>, day: Day)
    requires TurnFacts.AllOn(es, day) && forall ev :: ev in es ==> ev.kind != Content
    ensures StartOn(Fold.TurnsOf(es), day)
  {
    TurnFacts.TurnsStartOnDay(es, day);
  }

  // ---------------------------------------------------------------------------------------------
  // Rollups
  // ---------------------------------------------------------------------------------------------

  /** No partition was begun and left unfinished. */
  predicate NoneHalf(parts: Partitions) {
    forall d :: d in parts ==> Compacted(parts, d) || parts[d] == NO_PARTITION
  }

  /** The session table knows every day that the day table counts sessions for; a crash between their two
      Puts leaves an index where it does not. */
  predicate Even(idx: Option<Index>) {
    idx.Some? ==> forall d :: d in idx.value.days && idx.value.days[d].sessions > 0 ==> d in idx.value.sessions
  }

  lemma AgreesIsCovers(idx: Index, day: Day, turns: seq<Fold.Turn>)
    requires day in idx.days && Agrees(idx, day, FullOf(day, turns))
    ensures Covers(idx, day, Rollup.SummaryOf(day, turns))
  {
  }

  lemma RowCountsSessions(day: Day, turns: seq<Fold.Turn>)
    ensures Rollup.SummaryOf(day, turns).day.sessions > 0 <==> turns != []
    ensures Rollup.SummaryOf(day, turns).sessions == [] <==> turns == []
  {
    Windows.SessionsCounted(day, turns);
    if turns != [] {
      Details.SessionRowsName(day, turns, turns[0].SessionID());
      assert turns[0].SessionID() in Windows.IDs(turns);
    }
  }

  lemma EmptySummary(day: Day)
    ensures var s := Rollup.SummaryOf(day, []); s.models == [] && s.tools == [] && s.projects == [] && s.sessions == []
  {
    Tables.AscendingHolds({});
    assert Tables.Ascending({}) == [];
  }

  lemma EmptyDayAgrees(s: System, idx: Index, day: Day)
    requires DayRight(s, idx, day) && day in idx.days && PartOf(s.parts, day) == FullOf(day, [])
    ensures Agrees(idx, day, FullOf(day, []))
  {
    EmptySummary(day);
  }

  lemma CoveringNames(idx: Index, day: Day, turns: seq<Fold.Turn>)
    requires Covers(idx, day, Rollup.SummaryOf(day, turns)) && turns != []
    ensures day in idx.sessions
  {
    RowCountsSessions(day, turns);
  }

  lemma KnownDayIsCovered(s: System, idx: Index, day: Day, turns: seq<Fold.Turn>)
    requires DayRight(s, idx, day) && day in idx.days && PartOf(s.parts, day) == FullOf(day, turns)
    requires day in idx.sessions || turns == []
    ensures Covers(idx, day, Rollup.SummaryOf(day, turns))
  {
    if day !in idx.sessions {
      EmptyDayAgrees(s, idx, day);
    }
    AgreesIsCovers(idx, day, turns);
  }

  /** An index is right about a day in full if and only if the session table knows the day, or the day has
      no turns. */
  lemma CoversIff(s: System, day: Day)
    requires Reached(s)
    ensures var idx, turns := ViewOf(s).idx, LedgerOf(s)(day);
            idx.Some? && day in idx.value.days ==>
              (Covers(idx.value, day, Rollup.SummaryOf(day, turns)) <==> (day in idx.value.sessions || turns == []))
  {
    var idx, turns := ViewOf(s).idx, LedgerOf(s)(day);
    if idx.Some? && day in idx.value.days {
      DayIsKnown(s, day);
      if day in idx.value.sessions || turns == [] {
        KnownDayIsCovered(s, idx.value, day, turns);
      } else if Covers(idx.value, day, Rollup.SummaryOf(day, turns)) {
        CoveringNames(idx.value, day, turns);
      }
    }
  }

  lemma DayIsKnown(s: System, day: Day)
    requires Reached(s) && ViewOf(s).idx.Some? && day in ViewOf(s).idx.value.days
    ensures DayRight(s, ViewOf(s).idx.value, day) && Compacted(s.parts, day)
    ensures PartOf(s.parts, day) == FullOf(day, LedgerOf(s)(day))
  {
    ReachedKeeps(s);
    CalmIndex(FORMAT, s, day);
  }

  lemma DayRowIsRight(s: System, day: Day)
    requires Reached(s) && ViewOf(s).idx.Some? && day in ViewOf(s).idx.value.days
    ensures ViewOf(s).idx.value.days[day] == Rollup.SummaryOf(day, LedgerOf(s)(day)).day
  {
    ReachedKeeps(s);
    CalmIndex(FORMAT, s, day);
  }

  lemma DayIsHeld(s: System, day: Day)
    requires Reached(s) && NoneHalf(s.parts) && Even(ViewOf(s).idx)
    ensures HoldsDay(ViewOf(s), LedgerOf(s), day)
  {
    ReachedKeeps(s);
    CalmDay(FORMAT, s, day);
    CalmIndex(FORMAT, s, day);
    var v, turns := ViewOf(s), LedgerOf(s)(day);
    if v.idx.Some? && day in v.idx.value.days {
      DayRowIsRight(s, day);
      RowCountsSessions(day, turns);
      CoversIff(s, day);
    }
    if KnownEmpty(v.idx, v.hot, day) {
      SkippedHasNoTurns(s, day);
    }
  }

  /** Totals and series can be answered in every reachable state in which no partition is half-written and the
      index is even; whatever was interrupted before and has been made good since does not matter. */
  lemma StateIsReady(s: System)
    requires Reached(s) && NoneHalf(s.parts) && Even(ViewOf(s).idx)
    requires PlainLedger(LedgerOf(s)) && forall d :: StartOn(LedgerOf(s)(d), d)
    ensures Windows.AllReady(ViewOf(s), LedgerOf(s))
  {
    forall d ensures Windows.Ready(ViewOf(s), LedgerOf(s), d) {
      DayIsHeld(s, d);
    }
  }

  // ---------------------------------------------------------------------------------------------
  // An uneven index
  // ---------------------------------------------------------------------------------------------

  lemma UnnamedIsPassedOver(v: View, id: string, day: Day)
    requires v.idx.Some? && Compacted(v.parts, day) && day in v.idx.value.days && day !in v.idx.value.sessions
    ensures !Details.MayHold(v, id, day)
  {
  }

  lemma NamedIsRead(v: View, ledger: Ledger, id: string, day: Day)
    requires v.idx.Some? && Covers(v.idx.value, day, Rollup.SummaryOf(day, ledger(day)))
        && id in Windows.IDs(ledger(day))
    ensures Details.MayHold(v, id, day)
  {
    Details.CoveredDayIsNamed(v, ledger, id, day);
  }

  lemma UnknownIsRead(v: View, id: string, day: Day)
    requires v.idx.None? || day !in v.idx.value.days
    ensures Details.MayHold(v, id, day)
  {
  }

  /** A day that holds turns of a session is passed over in its detail if and only if the loaded index has the
      day in its day table and not in its session table. */
  lemma PassedOverIff(s: System, id: string, day: Day)
    requires Reached(s) && id in Windows.IDs(LedgerOf(s)(day))
    ensures var v := ViewOf(s);
            !Details.MayHold(v, id, day) <==> v.idx.Some? && day in v.idx.value.days && day !in v.idx.value.sessions
  {
    var v := ViewOf(s);
    if v.idx.None? || day !in v.idx.value.days {
      UnknownIsRead(v, id, day);
    } else if day in v.idx.value.sessions {
      CoversIff(s, day);
      NamedIsRead(v, LedgerOf(s), id, day);
    } else {
      DayIsKnown(s, day);
      UnnamedIsPassedOver(v, id, day);
    }
  }

  /** So every conversation's detail is whole if and only if the index is even. */
  lemma DetailsAreWholeIff(s: System)
    requires Reached(s)
    ensures (forall id :: Details.NeverPassesOver(ViewOf(s), LedgerOf(s), id)) <==> Even(ViewOf(s).idx)
  {
    var v, ledger := ViewOf(s), LedgerOf(s);
    if Even(v.idx) {
      forall id ensures Details.NeverPassesOver(v, ledger, id) {
        forall d | id in Windows.IDs(ledger(d)) ensures Details.MayHold(v, id, d) {
          PassedOverIff(s, id, d);
          if v.idx.Some? && d in v.idx.value.days {
            DayRowIsRight(s, d);
            RowCountsSessions(d, ledger(d));
          }
        }
      }
    } else {
      var d :| d in v.idx.value.days && v.idx.value.days[d].sessions > 0 && d !in v.idx.value.sessions;
      DayRowIsRight(s, d);
      RowCountsSessions(d, ledger(d));
      var id := ledger(d)[0].SessionID();
      assert id in Windows.IDs(ledger(d));
      PassedOverIff(s, id, d);
      assert !Details.NeverPassesOver(v, ledger, id);
    }
  }

  // ---------------------------------------------------------------------------------------------
  // Where a listing looks
  // ---------------------------------------------------------------------------------------------

  /** When the session table knows every day with turns but the newest, every turn is where a listing looks. */
  lemma IndexedIsPlaced(s: System, from: Instant, to: Instant, newest: Day)
    requires Reached(s) && PlainLedger(LedgerOf(s)) && forall d :: StartOn(LedgerOf(s)(d), d)
    requires forall d :: LedgerOf(s)(d) != [] ==>
               var idx := ViewOf(s).idx;
               d <= newest && (d < newest ==> idx.Some? && d in idx.value.days && d in idx.value.sessions)
    ensures Paging.Placed(Paging.ScanOf(ViewOf(s), from, to), newest)
  {
    var v, ledger := ViewOf(s), LedgerOf(s);
    var scan := Paging.ScanOf(v, from, to);
    EveryStateCanList(s);
    forall d, t | t in scan.read(d) ensures Paging.PlacedTurn(scan, d, t, newest) {
      assert Listings.ReadyOn(v, ledger, d) && StartOn(ledger(d), d);
      var original := StandInIsAlike(v, ledger, d, t);
      if d < newest {
        CoversIff(s, d);
        Details.SessionRowsName(d, ledger(d), t.SessionID());
        assert original.SessionID() in Windows.IDs(ledger(d));
      }
    }
  }

  lemma StandInIsAlike(v: View, ledger: Ledger, day: Day, t: Fold.Turn) returns (original: Fold.Turn)
    requires Listings.ReadyOn(v, ledger, day) && t in Paging.NarrowTurns(v, day)
    ensures original in ledger(day)
    ensures t.SessionID() == original.SessionID() && t.StartedAt() == original.StartedAt()
  {
    var ts := Paging.NarrowTurns(v, day);
    Listings.DayStandsNarrow(v, ledger, day);
    var i :| 0 <= i < |ts| && ts[i] == t;
    original := ledger(day)[i];
    assert Sessions.StandsNarrow(ts[i], original);
    Sessions.NarrowSumsTheSame(Sessions.NewSession(""), t, original);
  }
}
