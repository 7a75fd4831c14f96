/** What the queries answer over a window, told by the fields of the turns in it. */
module Answers {
  import opened Events
  import opened Figures
  import opened Fold
  import opened Reading
  import Aggregates
  import Archive
  import Assembled
  import Daily
  import Lifecycle
  import Listings
  import Paging
  import Ranking
  import Serving
  import Sessions
  import Sorting
  import Windows

  /** Turns priced by the list, as every fold leaves them. */
  ghost predicate AllPriced(ledger: Ledger) {
    forall d, t :: t in ledger(d) ==> Assembled.PricedAsListed(t)
  }

  lemma CapturedIsPriced(s: Lifecycle.System)
    ensures AllPriced(Serving.LedgerOf(s))
  {
    forall d, t | t in Serving.LedgerOf(s)(d) ensures Assembled.PricedAsListed(t) {
      Assembled.TurnsAreAssembled(Archive.EventsOn(s.ever, d), t);
    }
  }

  /** The window's turns are those of its days that start between its two instants, both included. */
  lemma InWindowIff(ledger: Ledger, from: Instant, to: Instant, t: Turn)
    requires forall d :: StartOn(ledger(d), d)
    ensures t in InWindow(ledger, from, to)
       <==> from <= t.facts.shared.startedAt <= to && exists d :: t in ledger(d)
  {
    InDaysIn(ledger, from, to, DayOf(from), DaysIn(from, to), t);
    if d :| t in ledger(d) && from <= t.StartedAt() <= to {
      InWindowIsAll(ledger, from, to, t, d);
    }
  }

  lemma WindowIsPriced(ledger: Ledger, from: Instant, to: Instant)
    requires AllPriced(ledger)
    ensures forall t :: t in InWindow(ledger, from, to) ==> Assembled.PricedAsListed(t)
  {
    forall t | t in InWindow(ledger, from, to) ensures Assembled.PricedAsListed(t) {
      InDaysIn(ledger, from, to, DayOf(from), DaysIn(from, to), t);
    }
  }

  /** The totals and tables of a window. */
  lemma RangeIsSaid(ledger: Ledger, from: Instant, to: Instant, k: string)
    requires AllPriced(ledger)
    ensures var turns := InWindow(ledger, from, to);
            var agg := Aggregates.AddAll(Aggregates.NOTHING, turns);
            && TotalsAdd(Aggregates.NO_TOTALS, agg.totals, turns)
            && CountAt(agg.byModel, k) == (if k != "" then CountOf(turns, OfModel(k)) else 0)
            && CountAt(agg.toolCalls, k) == SumOf(turns, CallsTo(k))
            && ShareIs(agg.byProject, k, Sorting.Filter(turns, OfProject(k)))
  {
    var turns := InWindow(ledger, from, to);
    WindowIsPriced(ledger, from, to);
    TotalsAreSums(Aggregates.NOTHING, turns);
    ByModelCounts(Aggregates.NOTHING, turns, k);
    ToolCallsCount(Aggregates.NOTHING, turns, k);
    ByProjectAdds(turns, k);
  }

  /** A day's point. */
  lemma PointIsSaid(ledger: Ledger, day: Day)
    requires AllPriced(ledger)
    ensures var p := Daily.PointOf(day, ledger(day));
            && p.day == day && TotalsAdd(Aggregates.NO_TOTALS, p.totals, ledger(day))
            && p.sessions == |Windows.IDs(ledger(day))|
  {
    TotalsAreSums(Aggregates.NOTHING, ledger(day));
  }

  /** A listed session says what its turns of the window say, however its days were stored: when the first of them
      started and the last of them ended, and what they come to. */
  lemma ListedIsSaid(v: View, ledger: Ledger, from: Instant, to: Instant, all: seq<Sessions.Session>,
          x: Sessions.Session)
    requires Listings.TurnsReady(v, ledger) && AllPriced(ledger)
    requires Paging.Listing(Paging.ScanOf(v, from, to), all) && x in all
    ensures var own := Sorting.Filter(InWindow(ledger, if to < from then to else from, if to < from then from else to),
                                      OfSession(x.id));
            SpanSays(x, own) && SumsSay(x, own) && NamesSay(x, own)
  {
    var s := Paging.ScanOf(v, from, to);
    Listings.SessionIsRaw(v, ledger, from, to, x.id);
    var turns := InWindow(ledger, s.from, s.to);
    PartIsFilter(turns, x.id);
    WindowIsPriced(ledger, s.from, s.to);
    var own := Sorting.Filter(turns, OfSession(x.id));
    forall t | t in own ensures Assembled.PricedAsListed(t) {
      Sorting.FilterIn(turns, OfSession(x.id), t);
    }
    SessionIsSaid(x.id, own);
  }

  lemma PartIsFilter(turns: seq<Turn>, id: string)
    ensures Listings.Part(turns, id) == Sorting.Filter(turns, OfSession(id))
  {
    Sorting.FilterAgrees(turns, (t: Turn) => t.SessionID() == id, OfSession(id));
  }

  /** And so does a ranked one. */
  lemma RankedIsSaid(order: Ranking.Order, ledger: Ledger, from: Instant, to: Instant,
          matches: Sessions.Session -> bool, list: seq<Sessions.Session>, x: Sessions.Session)
    requires AllPriced(ledger) && Ranking.Ranking(order, InWindow(ledger, from, to), matches, list) && x in list
    ensures var own := Sorting.Filter(InWindow(ledger, from, to), OfSession(x.id));
            own != [] && SpanSays(x, own) && SumsSay(x, own) && NamesSay(x, own)
  {
    var turns := InWindow(ledger, from, to);
    PartIsFilter(turns, x.id);
    WindowIsPriced(ledger, from, to);
    var own := Sorting.Filter(turns, OfSession(x.id));
    forall t | t in own ensures Assembled.PricedAsListed(t) {
      Sorting.FilterIn(turns, OfSession(x.id), t);
    }
    SessionIsSaid(x.id, own);
  }
}
