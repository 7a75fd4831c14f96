/** The archive's own format, and what its runs amount to: what a day is frozen into, the two counts
    compared before a day is dropped, and why they are enough (toRow, rollup and pruneDay under
    internal/compact). */
module Freezing {
  import opened Events
  import opened Archive
  import opened Growth
  import opened Lifecycle
  import Fold
  import Replay
  import Rollup
  import Skipping
  import Sorting
  import TurnFacts

  /** The rows hold every turn and every content reference the log folds into. */
  predicate Preserved(p: Partition, log: seq<Event>) {
    && p.turns.Some?
    && multiset(Sorting.Map(TurnFacts.KeyOfTurn, TurnsIn(p.turns.value))) == multiset(KeysOf(log))
    && Blobs(TurnsIn(p.turns.value)) == Blobs(Fold.TurnsOf(log))
  }

  ghost const FORMAT := Format(Full, Passes, Preserved)

  // ---------------------------------------------------------------------------------------------
  // Rows keep keys and content
  // ---------------------------------------------------------------------------------------------

  lemma RowKeepsKey(t: Fold.Turn)
    ensures TurnFacts.KeyOfTurn(Rollup.FromRow(Rollup.ToRow(t))) == TurnFacts.KeyOfTurn(t)
    ensures Rollup.FromRow(Rollup.ToRow(t)).contentBlobs == t.contentBlobs
  {
  }

  lemma {:induction false} RowsKeepBlobs(turns: seq<Fold.Turn>)
    ensures Blobs(TurnsIn(Sorting.Map(Rollup.ToRow, turns))) == Blobs(turns)
  {
    if turns != [] {
      var init, last := turns[..|turns| - 1], turns[|turns| - 1];
      RowsKeepBlobs(init);
      RowKeepsKey(last);
      var rows := Sorting.Map(Rollup.ToRow, turns);
      assert rows[..|rows| - 1] == Sorting.Map(Rollup.ToRow, init);
      var back := TurnsIn(rows);
      assert back[..|back| - 1] == TurnsIn(Sorting.Map(Rollup.ToRow, init));
    }
  }

  lemma RowsKeepKeys(turns: seq<Fold.Turn>)
    ensures Sorting.Map(TurnFacts.KeyOfTurn, TurnsIn(Sorting.Map(Rollup.ToRow, turns)))
         == Sorting.Map(TurnFacts.KeyOfTurn, turns)
  {
    var back := TurnsIn(Sorting.Map(Rollup.ToRow, turns));
    forall i | 0 <= i < |turns|
      ensures Sorting.Map(TurnFacts.KeyOfTurn, back)[i] == Sorting.Map(TurnFacts.KeyOfTurn, turns)[i]
    {
      RowKeepsKey(turns[i]);
    }
  }

  lemma {:induction false} RefsAreBlobs(turns: seq<Fold.Turn>)
    ensures ContentRefs(turns) == |Blobs(turns)|
  {
    if turns != [] {
      RefsAreBlobs(turns[..|turns| - 1]);
    }
  }

  /** Why two counts are enough: the rows come from a prefix of the log they are compared with, and
      neither turns nor content ever go away as a log grows. */
  lemma CountsSuffice(part: Partition, before: seq<Event>, log: seq<Event>)
    requires before <= log && part.turns == Some(Sorting.Map(Rollup.ToRow, Fold.TurnsOf(before)))
    requires |part.turns.value| == |Fold.TurnsOf(log)|
    requires ContentRefs(TurnsIn(part.turns.value)) == ContentRefs(Fold.TurnsOf(log))
    ensures Preserved(part, log)
  {
    var turns := Fold.TurnsOf(before);
    RowsKeepKeys(turns);
    RowsKeepBlobs(turns);
    RefsAreBlobs(TurnsIn(part.turns.value));
    RefsAreBlobs(Fold.TurnsOf(log));
    SameCountSameKeys(before, log);
    TurnsCarryKeys(log);
    SameCountSameContent(before, log);
  }

  lemma FormatIsLossless()
    ensures Lossless(FORMAT)
  {
    forall day, p: Partition, es, log | es <= log && p.turns == FORMAT.full(day, es).turns && FORMAT.passes(p, log)
      ensures FORMAT.keeps(p, log)
    {
      CountsSuffice(p, es, log);
    }
  }

  // ---------------------------------------------------------------------------------------------
  // Runs of the archive
  // ---------------------------------------------------------------------------------------------

  lemma KeyHasTurn(turns: seq<Fold.Turn>, keys: seq<string>, key: string) returns (i: nat)
    requires multiset(Sorting.Map(TurnFacts.KeyOfTurn, turns)) == multiset(keys) && key in keys
    ensures i < |turns| && TurnFacts.KeyOfTurn(turns[i]) == key
  {
    var mine := Sorting.Map(TurnFacts.KeyOfTurn, turns);
    assert key in multiset(keys);
    assert key in multiset(mine);
    i :| i < |mine| && mine[i] == key;
  }

  /** A turn key of a preserved log is the key of some row. */
  lemma PreservedHoldsKey(p: Partition, log: seq<Event>, key: string)
    requires Preserved(p, log) && key in KeysOf(log)
    ensures exists r :: r in p.turns.value && TurnFacts.KeyOfTurn(Rollup.FromRow(r)) == key
  {
    var i := KeyHasTurn(TurnsIn(p.turns.value), KeysOf(log), key);
    assert p.turns.value[i] in p.turns.value;
  }

  /** Every turn key ever appended to a day is still in the window or is a row of its partition, and so
      is every content reference its turns hold. */
  lemma EveryTurnIsKept(prune: bool, today: Day, actions: seq<Action>, day: Day, key: string)
    requires Runs(FORMAT, NewArchive(prune, today), actions)
    requires Throughout(FORMAT, NewArchive(prune, today), actions, InTime)
    requires key in KeysOf(EventsOn(After(FORMAT, NewArchive(prune, today), actions).ever, day))
    ensures var s := After(FORMAT, NewArchive(prune, today), actions);
            var log, rows := EventsOn(s.ever, day), PartOf(s.parts, day).turns;
            || EventsOn(s.hot, day) == log
            || (&& rows.Some? && Blobs(TurnsIn(rows.value)) == Blobs(Fold.TurnsOf(log))
                && exists r :: r in rows.value && TurnFacts.KeyOfTurn(Rollup.FromRow(r)) == key)
  {
    FormatIsLossless();
    PruneLosesNothing(FORMAT, prune, today, actions, day);
    var s := After(FORMAT, NewArchive(prune, today), actions);
    if EventsOn(s.hot, day) != EventsOn(s.ever, day) {
      PreservedHoldsKey(PartOf(s.parts, day), EventsOn(s.ever, day), key);
    }
  }

  // ---------------------------------------------------------------------------------------------
  // What the check does not see
  // ---------------------------------------------------------------------------------------------

  lemma SingleTurn(es: seq<Event>, key: string)
    requires Fold.FoldFrom(Fold.START, es).order == [key] && Fold.FoldFrom(Fold.START, es).results == []
    requires key in Fold.FoldFrom(Fold.START, es).byTurn
    ensures Fold.TurnsOf(es) == [Fold.Priced(Fold.FoldFrom(Fold.START, es).byTurn[key])]
  {
    var s := Fold.FoldFrom(Fold.START, es);
    Fold.FoldKeepsOrder(Fold.START, es);
    assert [key][..0] == [];
    var one := Fold.Collect(s.byTurn, s.order);
    assert |one| == 1 && one[0] == Fold.Priced(s.byTurn[key]);
    assert one == [Fold.Priced(s.byTurn[key])];
    assert one[..0] == [];
    assert Sorting.SortBy(one, Fold.StartsBefore) == one;
  }

  lemma OneObservation(e: Event, es: seq<Event>)
    requires !Fold.IsResult(e) && es == [e]
    ensures Fold.TurnsOf(es) == [Fold.Priced(Fold.Apply(Fold.BLANK_TURN, e))]
  {
    assert es[..0] == [];
    assert Fold.FoldFrom(Fold.START, es) == Fold.Step(Fold.START, e);
    SingleTurn(es, Fold.TurnKey(e));
  }

  lemma TwoObservations(e: Event, g: Event, part: seq<Event>, whole: seq<Event>)
    requires !Fold.IsResult(e) && !Fold.IsResult(g) && Fold.TurnKey(e) == Fold.TurnKey(g)
    requires part == [e] && whole == part + [g]
    ensures Fold.TurnsOf(whole) == [Fold.Priced(Fold.Apply(Fold.Apply(Fold.BLANK_TURN, e), g))]
  {
    assert part[..0] == [] && whole[..1] == part;
    assert Fold.FoldFrom(Fold.START, part) == Fold.Step(Fold.START, e);
    assert Fold.FoldFrom(Fold.START, whole) == Fold.Step(Fold.Step(Fold.START, e), g);
    SingleTurn(whole, Fold.TurnKey(e));
  }

  lemma RowsDiffer(t: Fold.Turn, u: Fold.Turn)
    requires t.facts.answered.stopReason != u.facts.answered.stopReason
    ensures Sorting.Map(Rollup.ToRow, [t]) != Sorting.Map(Rollup.ToRow, [u])
  {
    assert Rollup.ToRow(t).stopReason != Rollup.ToRow(u).stopReason;
    assert Sorting.Map(Rollup.ToRow, [t])[0] != Sorting.Map(Rollup.ToRow, [u])[0];
  }

  lemma OneForOnePasses(p: Partition, log: seq<Event>, t: Fold.Turn, u: Fold.Turn)
    requires p.turns == Some(Sorting.Map(Rollup.ToRow, [t])) && Fold.TurnsOf(log) == [u]
    requires t.contentBlobs == [] && u.contentBlobs == []
    ensures Passes(p, log)
  {
    OneEmptyTurn(TurnsIn(p.turns.value));
    OneEmptyTurn([u]);
  }

  lemma StopReasons(first: Event, second: Event)
    requires first.kind == second.kind == Response && first.stopReason == "" && second.stopReason != ""
    ensures var t := Fold.Priced(Fold.Apply(Fold.BLANK_TURN, first));
            var u := Fold.Priced(Fold.Apply(Fold.Apply(Fold.BLANK_TURN, first), second));
            && t.facts.answered.stopReason == "" && u.facts.answered.stopReason == second.stopReason
            && t.contentBlobs == [] && u.contentBlobs == []
  {
  }

  lemma FullTurns(day: Day, es: seq<Event>)
    ensures Full(day, es).turns == Some(Sorting.Map(Rollup.ToRow, Fold.TurnsOf(es)))
  {
  }

  /** One turn in the rows, one in the log, and they differ in a column. */
  lemma OtherTurn(day: Day, part: seq<Event>, whole: seq<Event>, t: Fold.Turn, u: Fold.Turn)
    requires Fold.TurnsOf(part) == [t] && Fold.TurnsOf(whole) == [u]
    requires t.facts.answered.stopReason != u.facts.answered.stopReason && t.contentBlobs == u.contentBlobs == []
    ensures Passes(Full(day, part), whole) && Full(day, part).turns != Full(day, whole).turns
  {
    FullTurns(day, part);
    FullTurns(day, whole);
    RowsDiffer(t, u);
    OneForOnePasses(Full(day, part), whole, t, u);
  }

  /** A second observation of a response, after its day was compacted, adds neither a turn nor content, so
      the check passes and the drop loses what it said: the counts vouch for keys and content, not for
      every measured field. */
  lemma LateMeasurementIsMissed(day: Day, first: Event, second: Event, part: seq<Event>, whole: seq<Event>)
    requires first.kind == second.kind == Response && Fold.TurnKey(first) == Fold.TurnKey(second)
    requires first.stopReason == "" && second.stopReason != ""
    requires part == [first] && whole == part + [second]
    ensures Passes(Full(day, part), whole) && Full(day, part).turns != Full(day, whole).turns
  {
    OneObservation(first, part);
    TwoObservations(first, second, part, whole);
    StopReasons(first, second);
    OtherTurn(day, part, whole, Fold.Priced(Fold.Apply(Fold.BLANK_TURN, first)),
              Fold.Priced(Fold.Apply(Fold.Apply(Fold.BLANK_TURN, first), second)));
  }

  lemma OneEmptyTurn(turns: seq<Fold.Turn>)
    requires |turns| == 1 && turns[0].contentBlobs == []
    ensures ContentRefs(turns) == 0
  {
    assert turns[..0] == [];
  }

  // ---------------------------------------------------------------------------------------------
  // When a release loses no measurement
  // ---------------------------------------------------------------------------------------------

  /** A partition made of the log's first `k` events passes the check only if it holds what the whole log folds
      into. */
  ghost predicate Vouched(day: Day, log: seq<Event>, k: nat)
    requires k <= |log|
  {
    Passes(Full(day, log[..k]), log) ==> Full(day, log[..k]).turns == Full(day, log).turns
  }

  function Copies(ev: Event, n: nat): (es: seq<Event>)
    ensures |es| == n && forall e :: e in es ==> e == ev
  {
    if n == 0 then [] else Copies(ev, n - 1) + [ev]
  }

  lemma {:induction false} CopiesFoldOnce(s: Fold.State, ev: Event, n: nat)
    requires n > 0 && Replay.Replayable(ev)
    ensures Fold.FoldFrom(s, Copies(ev, n)) == Fold.FoldFrom(s, [ev])
  {
    if n == 1 {
      assert Copies(ev, 0) + [ev] == [ev];
    } else {
      CopiesFoldOnce(s, ev, n - 1);
      Replay.FoldConcat(s, Copies(ev, n - 1), [ev]);
      Replay.FoldTwice(s, [ev]);
    }
  }

  /** Two observations, each any number of times, fold as if each had come once. */
  lemma {:induction false} TwoKinds(s: Fold.State, first: Event, second: Event, k: nat, m: nat, part: seq<Event>,
          whole: seq<Event>)
    requires k > 0 && m > 0 && Replay.Replayable(first) && Replay.Replayable(second)
    requires part == [first] && whole == part + [second]
    ensures Fold.FoldFrom(s, Copies(first, k)) == Fold.FoldFrom(s, part)
    ensures Fold.FoldFrom(s, Copies(first, k) + Copies(second, m)) == Fold.FoldFrom(s, whole)
  {
    CopiesFoldOnce(s, first, k);
    CopiesFoldOnce(Fold.FoldFrom(s, part), second, m);
    Replay.FoldConcat(s, Copies(first, k), Copies(second, m));
    Replay.FoldConcat(s, part, [second]);
  }

  lemma SameFoldSameTurns(es: seq<Event>, es': seq<Event>)
    requires Fold.FoldFrom(Fold.START, es) == Fold.FoldFrom(Fold.START, es')
    ensures Fold.TurnsOf(es) == Fold.TurnsOf(es')
  {
  }

  /** Neither the partition's turns nor the check looks further than the turns. */
  lemma SameTurnsSameVerdict(day: Day, part: seq<Event>, whole: seq<Event>, part': seq<Event>, whole': seq<Event>)
    requires Fold.TurnsOf(part) == Fold.TurnsOf(part') && Fold.TurnsOf(whole) == Fold.TurnsOf(whole')
    ensures Full(day, part).turns == Full(day, part').turns && Full(day, whole).turns == Full(day, whole').turns
    ensures Passes(Full(day, part), whole) == Passes(Full(day, part'), whole')
  {
  }

  /** What is missed of two observations is missed of any number of them. */
  lemma MissedOften(day: Day, log: seq<Event>, k: nat, part: seq<Event>, whole: seq<Event>)
    requires k <= |log|
    requires Fold.FoldFrom(Fold.START, log[..k]) == Fold.FoldFrom(Fold.START, part)
    requires Fold.FoldFrom(Fold.START, log) == Fold.FoldFrom(Fold.START, whole)
    requires Passes(Full(day, part), whole) && Full(day, part).turns != Full(day, whole).turns
    ensures !Vouched(day, log, k)
  {
    SameFoldSameTurns(log[..k], part);
    SameFoldSameTurns(log, whole);
    SameTurnsSameVerdict(day, part, whole, log[..k], log);
  }

  /** A log of that many copies of each. */
  lemma {:induction false} BothOften(s: Fold.State, first: Event, second: Event, k: nat, m: nat, part: seq<Event>,
          whole: seq<Event>) returns (log: seq<Event>)
    requires k > 0 && m > 0 && Replay.Replayable(first) && Replay.Replayable(second)
    requires part == [first] && whole == part + [second]
    ensures |log| == k + m && forall ev :: ev in log ==> ev == first || ev == second
    ensures Fold.FoldFrom(s, log[..k]) == Fold.FoldFrom(s, part) && Fold.FoldFrom(s, log) == Fold.FoldFrom(s, whole)
  {
    log := Copies(first, k) + Copies(second, m);
    assert log[..k] == Copies(first, k);
    TwoKinds(s, first, second, k, m, part, whole);
  }

  lemma SuchObservations(day: Day) returns (first: Event, second: Event)
    ensures Replay.Replayable(first) && Replay.Replayable(second)
    ensures DayOf(first.timestamp) == DayOf(second.timestamp) == day
    ensures first.kind == second.kind == Response && Fold.TurnKey(first) == Fold.TurnKey(second)
    ensures first.stopReason == "" && second.stopReason != ""
  {
    first := BLANK_EVENT.(timestamp := StartOf(day));
    second := first.(stopReason := "end_turn");
  }

  lemma MissedSomewhere(day: Day, k: nat, m: nat) returns (log: seq<Event>)
    requires k > 0 && m > 0
    ensures |log| == k + m && (forall ev :: ev in log ==> DayOf(ev.timestamp) == day) && !Vouched(day, log, k)
  {
    var first, second := SuchObservations(day);
    var part := [first];
    var whole := part + [second];
    LateMeasurementIsMissed(day, first, second, part, whole);
    log := BothOften(Fold.START, first, second, k, m, part, whole);
    MissedOften(day, log, k, part, whole);
  }

  lemma NoTurnsNoRows(day: Day, log: seq<Event>)
    ensures Vouched(day, log, 0)
  {
    assert Fold.TurnsOf([]) == [];
    FullTurns(day, []);
    FullTurns(day, log);
    assert log[..0] == [];
    if |Fold.TurnsOf(log)| == 0 {
      assert Fold.TurnsOf(log) == [];
    }
  }

  /** A release loses no measurement, whatever the day's events hold, exactly when its partition was made of all of
      them (or of none, which is never written). */
  lemma ReleaseLosesNothingIff(day: Day, n: nat, k: nat)
    requires k <= n
    ensures (forall log: seq<Event> | |log| == n && (forall ev :: ev in log ==> DayOf(ev.timestamp) == day)
               :: Vouched(day, log, k))
        <==> k == 0 || k == n
  {
    if k == 0 {
      forall log: seq<Event> | |log| == n ensures Vouched(day, log, 0) {
        NoTurnsNoRows(day, log);
      }
    } else if k == n {
      forall log: seq<Event> | |log| == n ensures Vouched(day, log, n) {
        assert log[..n] == log;
      }
    } else {
      var log := MissedSomewhere(day, k, n - k);
    }
  }
}
