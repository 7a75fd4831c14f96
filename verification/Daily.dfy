/** A series of days (DailyRange in internal/compact/daily.go): one point per day that holds anything, from
    the index, the partition or the turns, whichever there is. */
module Daily {
  import opened Aggregates
  import opened Archive
  import opened Events
  import opened Fold
  import opened Reading
  import opened Rollup
  import Windows

  datatype DayPoint = DayPoint(day: Day, totals: Totals, sessions: nat)

  /** A day counted turn by turn. */
  function PointOf(day: Day, turns: seq<Turn>): DayPoint {
    DayPoint(day, AddAll(NOTHING, turns).totals, |Windows.IDs(turns)|)
  }

  function FromDayRow(row: DayRow): DayPoint {
    DayPoint(row.day, TotalsOfSums(row.sums), row.sessions)
  }

  predicate Empty(p: DayPoint) {
    p.totals.turns == 0
  }

  lemma {:induction false} TurnsAreCounted(a: Agg, turns: seq<Turn>)
    ensures AddAll(a, turns).totals.turns == a.totals.turns + |turns|
  {
    if turns != [] {
      TurnsAreCounted(a, turns[..|turns| - 1]);
    }
  }

  lemma FromZero(t: Totals)
    ensures PlusTotals(NO_TOTALS, t) == t
  {
  }

  /** A day's row says what counting its turns says. */
  lemma RowIsItsTurns(day: Day, turns: seq<Turn>)
    requires Windows.PlainDay(turns)
    ensures FromDayRow(SummaryOf(day, turns).day) == PointOf(day, turns)
  {
    CountingIsAdding(NOTHING, day, turns);
    FromZero(TotalsOfSums(CountAll(day, turns).sums));
    Windows.SessionsCounted(day, turns);
  }

  method FromTurns(day: Day, turns: seq<Turn>, ghost originals: seq<Turn>) returns (p: DayPoint)
    ensures AllStand(turns, originals) && Windows.PlainDay(originals) ==> p == PointOf(day, originals)
  {
    var totals, seen := NO_TOTALS, {};
    ghost var good := AllStand(turns, originals) && Windows.PlainDay(originals);
    assert Windows.IDs([]) == {};
    for i := 0 to |turns|
      invariant good ==> totals == AddAll(NOTHING, originals[..i]).totals && seen == Windows.IDs(originals[..i])
    {
      var t := turns[i];
      if good {
        OneMorePoint(originals, i, t);
      }
      totals, seen := PlusTotals(totals, TotalsOf(t)), seen + {t.SessionID()};
    }
    assert good ==> originals[..|turns|] == originals;
    p := DayPoint(day, totals, |seen|);
  }

  lemma OneMorePoint(originals: seq<Turn>, i: nat, t: Turn)
    requires i < |originals| && Stands(t, originals[i]) && Windows.PlainDay(originals)
    ensures AddAll(NOTHING, originals[..i + 1]).totals
        == PlusTotals(AddAll(NOTHING, originals[..i]).totals, TotalsOf(t))
    ensures Windows.IDs(originals[..i + 1]) == Windows.IDs(originals[..i]) + {t.SessionID()}
  {
    assert originals[i] in originals;
    assert originals[..i + 1][..i] == originals[..i];
    StandsAlike(t, originals[i]);
    Windows.IDsSnoc(originals[..i + 1]);
    Windows.StandInCounts(AddAll(NOTHING, originals[..i]), t, originals[i]);
  }

  /** The points of `n` days, days without turns left out. */
  function Points(ledger: Ledger, first: Day, n: nat): seq<DayPoint> {
    if n == 0 then []
    else Points(ledger, first, n - 1) + PointOn(ledger, first + n - 1)
  }

  function PointOn(ledger: Ledger, day: Day): seq<DayPoint> {
    if ledger(day) == [] then [] else [PointOf(day, ledger(day))]
  }

  function AppendPoint(p: DayPoint): seq<DayPoint> {
    if Empty(p) then [] else [p]
  }

  lemma AppendsPoint(ledger: Ledger, day: Day)
    ensures AppendPoint(PointOf(day, ledger(day))) == PointOn(ledger, day)
  {
    TurnsAreCounted(NOTHING, ledger(day));
  }

  ghost predicate DayPoints(v: View, ledger: Ledger, day: Day, points: seq<DayPoint>) {
    Windows.Ready(v, ledger, day) ==> points == PointOn(ledger, day)
  }

  /** One day: the index, then nothing if it is known to be empty, then the partition, then its turns. */
  method DayOfSeries(v: View, day: Day, ghost ledger: Ledger) returns (points: seq<DayPoint>)
    ensures DayPoints(v, ledger, day, points)
  {
    if Windows.Ready(v, ledger, day) {
      RowIsItsTurns(day, ledger(day));
      HoldingADayHoldsItsTurns(v, ledger, day);
      DayStands(v, ledger, day);
    }
    AppendsPoint(ledger, day);
    if v.idx.Some? && day in v.idx.value.days {
      return AppendPoint(FromDayRow(v.idx.value.days[day]));
    }
    if KnownEmpty(v.idx, v.hot, day) {
      return [];
    }
    if PartOf(v.parts, day).day.Some? {
      return AppendPoint(FromDayRow(PartOf(v.parts, day).day.value));
    }
    var p := FromTurns(day, TurnsForDay(v, day), ledger(day));
    points := AppendPoint(p);
  }

  /** Day by day over `n` days. */
  ghost predicate Series(v: View, ledger: Ledger, first: Day, n: nat, points: seq<DayPoint>)
    decreases n, 1
  {
    if n == 0 then points == []
    else exists before, more :: SeriesVia(v, ledger, first, n, points, before, more)
  }

  ghost predicate SeriesVia(v: View, ledger: Ledger, first: Day, n: nat, points: seq<DayPoint>,
          before: seq<DayPoint>, more: seq<DayPoint>)
    requires n > 0
    decreases n, 0
  {
    Series(v, ledger, first, n - 1, before) && DayPoints(v, ledger, first + n - 1, more) && points == before + more
  }

  lemma SeriesGoesOn(v: View, ledger: Ledger, first: Day, day: Day, before: seq<DayPoint>, more: seq<DayPoint>)
    requires first <= day && Series(v, ledger, first, day - first, before) && DayPoints(v, ledger, day, more)
    ensures Series(v, ledger, first, day + 1 - first, before + more)
  {
    assert SeriesVia(v, ledger, first, day + 1 - first, before + more, before, more);
  }

  method SeriesOf(v: View, first: Day, last: Day, ghost ledger: Ledger) returns (points: seq<DayPoint>)
    requires first <= last
    ensures Series(v, ledger, first, last - first + 1, points)
  {
    points := [];
    var day := first;
    while day <= last
      invariant first <= day <= last + 1 && Series(v, ledger, first, day - first, points)
      decreases last - day
    {
      var more := DayOfSeries(v, day, ledger);
      SeriesGoesOn(v, ledger, first, day, points, more);
      points, day := points + more, day + 1;
    }
  }

  lemma SeriesBack(v: View, ledger: Ledger, first: Day, n: nat, points: seq<DayPoint>)
    returns (before: seq<DayPoint>, more: seq<DayPoint>)
    requires Series(v, ledger, first, n + 1, points)
    ensures Series(v, ledger, first, n, before) && DayPoints(v, ledger, first + n, more) && points == before + more
  {
    before, more :| SeriesVia(v, ledger, first, n + 1, points, before, more);
  }

  lemma {:induction false} SeriesIsPoints(v: View, ledger: Ledger, first: Day, n: nat, points: seq<DayPoint>)
    requires Windows.AllReady(v, ledger) && Series(v, ledger, first, n, points)
    ensures points == Points(ledger, first, n)
    decreases n
  {
    if n > 0 {
      var m := n - 1;
      var before, more := SeriesBack(v, ledger, first, m, points);
      SeriesIsPoints(v, ledger, first, m, before);
      assert Windows.Ready(v, ledger, first + m);
    }
  }

  /** The series is, day by day, what counting every turn of the day gives, whichever copy answered; a
      window given the wrong way round is turned. */
  method DailyRange(v: View, from: Instant, to: Instant, ghost ledger: Ledger) returns (points: seq<DayPoint>)
    ensures Windows.AllReady(v, ledger) ==>
              var lo, hi := if to < from then to else from, if to < from then from else to;
              points == Points(ledger, DayOf(lo), DaysIn(lo, hi))
  {
    var lo, hi := from, to;
    if to < from {
      lo, hi := to, from;
    }
    DaysAreOrdered(lo, hi);
    points := SeriesOf(v, DayOf(lo), DayOf(hi), ledger);
    if Windows.AllReady(v, ledger) {
      SeriesIsPoints(v, ledger, DayOf(lo), DaysIn(lo, hi), points);
    }
  }
}
