/** Totals over a window (internal/compact/source.go): whole days from rollups, the days at the edges and
    those not rolled up from their turns, and all of it equal to counting every turn. */
module Aggregates {
  import opened Archive
  import opened Events
  import opened Fold
  import opened Rollup
  import opened Tables
  import Pricing
  import Sorting

  // ---------------------------------------------------------------------------------------------
  // Counting turn by turn
  // ---------------------------------------------------------------------------------------------

  datatype Totals = Totals(
    turns: int,
    errors: int,
    input: int,
    output: int,
    write: int,
    cacheRead: int,
    cost: int,
    savings: int,
    unpriced: int)

  function PlusTotals(a: Totals, b: Totals): Totals {
    Totals(a.turns + b.turns, a.errors + b.errors, a.input + b.input, a.output + b.output, a.write + b.write,
           a.cacheRead + b.cacheRead, a.cost + b.cost, a.savings + b.savings, a.unpriced + b.unpriced)
  }

  /** What a window adds up to, sessions aside. */
  datatype Agg = Agg(
    totals: Totals,
    byModel: map<string, int>,
    toolCalls: map<string, int>,
    byProject: map<string, Share>)

  const NO_TOTALS := Totals(0, 0, 0, 0, 0, 0, 0, 0, 0)

  const NOTHING := Agg(NO_TOTALS, map[], map[], map[])

  function TotalsOf(t: Turn): Totals {
    var u := t.Usage();
    Totals(1, One(Failed(t)), u.input, u.output, u.cacheWrite, u.cacheRead, t.cost,
           Pricing.CacheSavings(t.Model(), u), One(Unpriced(t)))
  }

  /** addProject ignores work that belongs to no project. */
  function AddProject(byProject: map<string, Share>, share: Share): map<string, Share> {
    if share.projectID == "" then byProject else Bump(byProject, share.projectID, share, PlusShare)
  }

  function AddTurn(a: Agg, t: Turn): Agg {
    Agg(
      PlusTotals(a.totals, TotalsOf(t)),
      if t.Model() != "" then Bump(a.byModel, t.Model(), 1, Add) else a.byModel,
      CountTools(a.toolCalls, t.toolCalls),
      AddProject(a.byProject, ShareOf(t)))
  }

  function AddAll(a: Agg, turns: seq<Turn>): Agg {
    if turns == [] then a else AddTurn(AddAll(a, turns[..|turns| - 1]), turns[|turns| - 1])
  }

  lemma {:induction false} AddConcat(a: Agg, xs: seq<Turn>, ys: seq<Turn>)
    ensures AddAll(a, xs + ys) == AddAll(AddAll(a, xs), ys)
    decreases |ys|
  {
    if ys == [] {
      assert xs + ys == xs;
    } else {
      assert (xs + ys)[..|xs + ys| - 1] == xs + ys[..|ys| - 1];
      AddConcat(a, xs, ys[..|ys| - 1]);
    }
  }

  // ---------------------------------------------------------------------------------------------
  // Counting from a rollup
  // ---------------------------------------------------------------------------------------------

  /** Reported as one total, whatever the tiers. */
  function TotalsOfSums(s: Sums): Totals {
    Totals(s.turns, s.errors, s.input, s.output, s.write5m + s.write1h, s.cacheRead, s.cost, s.savings, s.unpriced)
  }

  function AddModelRows(byModel: map<string, int>, rows: seq<ModelRow>): map<string, int> {
    if rows == [] then byModel
    else Bump(AddModelRows(byModel, rows[..|rows| - 1]), rows[|rows| - 1].model, rows[|rows| - 1].turns, Add)
  }

  function AddToolRows(tools: map<string, int>, rows: seq<ToolRow>): map<string, int> {
    if rows == [] then tools
    else Bump(AddToolRows(tools, rows[..|rows| - 1]), rows[|rows| - 1].tool, rows[|rows| - 1].calls, Add)
  }

  function AddProjectRows(byProject: map<string, Share>, rows: seq<ProjectRow>): map<string, Share> {
    if rows == [] then byProject
    else AddProject(AddProjectRows(byProject, rows[..|rows| - 1]), rows[|rows| - 1].share)
  }

  function AddRollup(a: Agg, day: DayRow, models: seq<ModelRow>, tools: seq<ToolRow>,
          projects: seq<ProjectRow>): Agg {
    Agg(
      PlusTotals(a.totals, TotalsOfSums(day.sums)),
      AddModelRows(a.byModel, models),
      AddToolRows(a.toolCalls, tools),
      AddProjectRows(a.byProject, projects))
  }

  /** What the equality of the two ways rests on: the breakdown by tier adds up, the status code fits its
      column, and a turn has a project name exactly when it has a project id. */
  predicate Plain(t: Turn) {
    && SplitAddsUp(t.Usage())
    && FitsInt32(t.facts.answered.statusCode)
    && (t.facts.labels.project == "" <==> t.ProjectID() == "")
  }

  function ModelTurns(models: map<string, ModelRow>): map<string, int> {
    map k | k in models :: models[k].turns
  }

  function AddCounting(a: Agg, c: Counting): Agg {
    Agg(
      PlusTotals(a.totals, TotalsOfSums(c.sums)),
      Merge(a.byModel, ModelTurns(c.models), Add),
      Merge(a.toolCalls, c.tools, Add),
      Merge(a.byProject, c.shares, PlusShare))
  }

  lemma {:induction false} MergeCountsTools(a: map<string, int>, tools: map<string, int>, calls: seq<ToolCall>)
    ensures Merge(a, CountTools(tools, calls), Add) == CountTools(Merge(a, tools, Add), calls)
    decreases |calls|
  {
    if calls != [] {
      MergeCountsTools(a, tools, calls[..|calls| - 1]);
      MergeBump(a, CountTools(tools, calls[..|calls| - 1]), calls[|calls| - 1].name, 1, Add);
    }
  }

  lemma ModelTurnsBump(models: map<string, ModelRow>, day: Day, t: Turn)
    ensures ModelTurns(Bump(models, t.Model(), ModelRowOf(day, t), PlusModel))
         == Bump(ModelTurns(models), t.Model(), 1, Add)
  {
  }

  lemma SharesAssociate()
    ensures Associative(PlusShare) && Associative(Add)
  {
  }

  lemma TotalsStep(a: Totals, s: Sums, t: Turn)
    requires SplitAddsUp(t.Usage())
    ensures PlusTotals(a, TotalsOfSums(PlusSums(s, SumsOf(t))))
        == PlusTotals(PlusTotals(a, TotalsOfSums(s)), TotalsOf(t))
  {
  }

  /** One more turn in the rollup is one more turn in the aggregate. */
  lemma CountingStep(a: Agg, c: Counting, day: Day, t: Turn)
    requires Plain(t)
    ensures AddCounting(a, Count(c, day, t)) == AddTurn(AddCounting(a, c), t)
  {
    TotalsStep(a.totals, c.sums, t);
    SharesAssociate();
    MergeCountsTools(a.toolCalls, c.tools, t.toolCalls);
    if t.Model() != "" {
      ModelTurnsBump(c.models, day, t);
      MergeBump(a.byModel, ModelTurns(c.models), t.Model(), 1, Add);
    }
    if t.ProjectID() != "" {
      MergeBump(a.byProject, c.shares, t.ProjectID(), ShareOf(t), PlusShare);
    }
  }

  lemma {:induction false} CountingIsAdding(a: Agg, day: Day, turns: seq<Turn>)
    requires forall t :: t in turns ==> Plain(t)
    ensures AddCounting(a, CountAll(day, turns)) == AddAll(a, turns)
  {
    if turns == [] {
      MergeNothing(a.byModel, Add);
      MergeNothing(a.toolCalls, Add);
      MergeNothing(a.byProject, PlusShare);
      assert ModelTurns(map[]) == map[];
    } else {
      var init, last := turns[..|turns| - 1], turns[|turns| - 1];
      assert last in turns;
      CountingIsAdding(a, day, init);
      CountingStep(a, CountAll(day, init), day, last);
    }
  }

  // ---------------------------------------------------------------------------------------------
  // Rows and tables
  // ---------------------------------------------------------------------------------------------

  /** The entries of these keys added one by one. */
  ghost function BumpEach<T>(a: map<string, T>, m: map<string, T>, ks: seq<string>, plus: (T, T) -> T): map<string, T>
    requires forall k :: k in ks ==> k in m
  {
    if ks == [] then a
    else Bump(BumpEach(a, m, ks[..|ks| - 1], plus), ks[|ks| - 1], m[ks[|ks| - 1]], plus)
  }

  function Only<T>(m: map<string, T>, ks: seq<string>): map<string, T>
    requires forall k :: k in ks ==> k in m
  {
    map k | k in ks :: m[k]
  }

  lemma OnlyOneMore<T>(m: map<string, T>, ks: seq<string>, k: string, plus: (T, T) -> T)
    requires (forall j :: j in ks + [k] ==> j in m) && k !in ks
    requires forall j :: j in ks ==> j in m
    ensures Only(m, ks + [k]) == Bump(Only(m, ks), k, m[k], plus)
  {
  }

  lemma {:induction false} BumpEachMerges<T(!new)>(a: map<string, T>, m: map<string, T>, ks: seq<string>, plus: (T,
          T) -> T)
    requires (forall k :: k in ks ==> k in m) && Associative(plus)
    requires forall i, j :: 0 <= i < j < |ks| ==> ks[i] != ks[j]
    ensures BumpEach(a, m, ks, plus) == Merge(a, Only(m, ks), plus)
  {
    if ks == [] {
      assert Only(m, ks) == map[];
      MergeNothing(a, plus);
    } else {
      var init, last := ks[..|ks| - 1], ks[|ks| - 1];
      BumpEachMerges(a, m, init, plus);
      assert last !in init && ks == init + [last];
      OnlyOneMore(m, init, last, plus);
      MergeBump(a, Only(m, init), last, m[last], plus);
    }
  }

  /** The keys in ascending order are distinct and all there are. */
  lemma AscendingIsAll<T>(m: map<string, T>)
    ensures forall k :: k in Ascending(m.Keys) ==> k in m
    ensures forall i, j :: 0 <= i < j < |Ascending(m.Keys)| ==> Ascending(m.Keys)[i] != Ascending(m.Keys)[j]
    ensures Only(m, Ascending(m.Keys)) == m
  {
    var ks := Ascending(m.Keys);
    AscendingHolds(m.Keys);
    forall i, j | 0 <= i < j < |ks| ensures ks[i] != ks[j] {
      Sorting.LessIsTotal(ks[i], ks[j]);
    }
  }

  lemma {:induction false} ModelRowsAdd(a: map<string, int>, models: map<string, ModelRow>, ks: seq<string>)
    requires forall k :: k in ks ==> k in models && models[k].model == k
    ensures AddModelRows(a, At(models, ks)) == BumpEach(a, ModelTurns(models), ks, Add)
    decreases |ks|
  {
    if ks != [] {
      ModelRowsAdd(a, models, ks[..|ks| - 1]);
      assert At(models, ks)[..|ks| - 1] == At(models, ks[..|ks| - 1]);
    }
  }

  lemma {:induction false} ToolRowsAdd(a: map<string, int>, day: Day, tools: map<string, int>, ks: seq<string>)
    requires forall k :: k in ks ==> k in tools
    ensures AddToolRows(a, At(ToolRows(day, tools), ks)) == BumpEach(a, tools, ks, Add)
    decreases |ks|
  {
    if ks != [] {
      ToolRowsAdd(a, day, tools, ks[..|ks| - 1]);
      assert At(ToolRows(day, tools), ks)[..|ks| - 1] == At(ToolRows(day, tools), ks[..|ks| - 1]);
    }
  }

  lemma {:induction false} ProjectRowsAdd(a: map<string, Share>, projects: map<string, ProjectRow>,
          shares: map<string, Share>, ks: seq<string>)
    requires forall k :: k in ks ==> k in projects && k in shares && projects[k].share == shares[k]
    requires forall k :: k in ks ==> k != "" && shares[k].projectID == k
    ensures AddProjectRows(a, At(projects, ks)) == BumpEach(a, shares, ks, PlusShare)
    decreases |ks|
  {
    if ks != [] {
      ProjectRowsAdd(a, projects, shares, ks[..|ks| - 1]);
      assert At(projects, ks)[..|ks| - 1] == At(projects, ks[..|ks| - 1]);
    }
  }

  lemma {:induction false} NoNamelessShare(day: Day, turns: seq<Turn>)
    requires forall t :: t in turns ==> Plain(t)
    ensures "" !in CountAll(day, turns).shares
  {
    if turns != [] {
      NoNamelessShare(day, turns[..|turns| - 1]);
      assert turns[|turns| - 1] in turns;
    }
  }

  lemma ModelsMerge(a: map<string, int>, models: map<string, ModelRow>)
    requires forall k :: k in models ==> models[k].model == k
    ensures AddModelRows(a, Rows(models)) == Merge(a, ModelTurns(models), Add)
  {
    AscendingIsAll(models);
    SharesAssociate();
    ModelRowsAdd(a, models, Ascending(models.Keys));
    BumpEachMerges(a, ModelTurns(models), Ascending(models.Keys), Add);
    assert Only(ModelTurns(models), Ascending(models.Keys)) == ModelTurns(models);
  }

  lemma ToolsMerge(a: map<string, int>, day: Day, tools: map<string, int>)
    ensures AddToolRows(a, Rows(ToolRows(day, tools))) == Merge(a, tools, Add)
  {
    assert ToolRows(day, tools).Keys == tools.Keys;
    AscendingIsAll(tools);
    SharesAssociate();
    ToolRowsAdd(a, day, tools, Ascending(tools.Keys));
    BumpEachMerges(a, tools, Ascending(tools.Keys), Add);
  }

  lemma ProjectsMerge(a: map<string, Share>, day: Day, c: Counting)
    requires Filed(c) && "" !in c.shares
    ensures AddProjectRows(a, Rows(ProjectRows(day, c))) == Merge(a, c.shares, PlusShare)
  {
    var projects := ProjectRows(day, c);
    assert projects.Keys == c.shares.Keys;
    AscendingIsAll(c.shares);
    SharesAssociate();
    ProjectRowsAdd(a, projects, c.shares, Ascending(c.shares.Keys));
    BumpEachMerges(a, c.shares, Ascending(c.shares.Keys), PlusShare);
  }

  /** Adding a day's rollup is adding every turn of the day, in every total and in every table. */
  lemma RollupIsItsTurns(a: Agg, day: Day, turns: seq<Turn>)
    requires forall t :: t in turns ==> Plain(t)
    ensures var s := SummaryOf(day, turns);
            AddRollup(a, s.day, s.models, s.tools, s.projects) == AddAll(a, turns)
  {
    var c := CountAll(day, turns);
    CountFiles(day, turns);
    NoNamelessShare(day, turns);
    ModelsMerge(a.byModel, c.models);
    ToolsMerge(a.toolCalls, day, c.tools);
    ProjectsMerge(a.byProject, day, c);
    CountingIsAdding(a, day, turns);
  }

  // ---------------------------------------------------------------------------------------------
  // Turns read back from rows
  // ---------------------------------------------------------------------------------------------

  lemma {:induction false} NamesCount(tools: map<string, int>, calls: seq<ToolCall>, same: seq<ToolCall>)
    requires |calls| == |same| && forall i :: 0 <= i < |calls| ==> calls[i].name == same[i].name
    ensures CountTools(tools, calls) == CountTools(tools, same)
    decreases |calls|
  {
    if calls != [] {
      NamesCount(tools, calls[..|calls| - 1], same[..|same| - 1]);
    }
  }

  lemma RowTotals(t: Turn)
    ensures var back := FromRow(ToRow(t));
            && TotalsOf(back) == TotalsOf(t).(write := CacheWrites(t.Usage()).fiveMin + CacheWrites(t.Usage()).oneHour,
                                              errors := One(Failed(back)))
            && ShareOf(back) == ShareOf(t).(errors := One(Failed(back)))
  {
  }

  /** A turn read back from its row counts for exactly as much if and only if its cache breakdown adds up
      and its status code is on the same side of 400 after being cut to 32 bits. */
  lemma RowCountsTheSameIff(a: Agg, t: Turn)
    ensures AddTurn(a, FromRow(ToRow(t))) == AddTurn(a, t)
       <==> SplitAddsUp(t.Usage())
            && (t.facts.shared.error != ""
               || (Int32(t.facts.answered.statusCode) >= 400 <==> t.facts.answered.statusCode >= 400))
  {
    var back := FromRow(ToRow(t));
    RowTotals(t);
    NamesCount(a.toolCalls, back.toolCalls, t.toolCalls);
    var x, y := AddTurn(a, back), AddTurn(a, t);
    assert x.totals.write - y.totals.write == TotalsOf(back).write - TotalsOf(t).write;
    assert x.totals.errors - y.totals.errors == One(Failed(back)) - One(Failed(t));
    if SplitAddsUp(t.Usage()) && Failed(back) == Failed(t) {
      assert TotalsOf(back) == TotalsOf(t) && ShareOf(back) == ShareOf(t);
      assert x == y;
    }
  }
}
