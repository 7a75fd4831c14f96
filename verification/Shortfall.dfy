/** What totals miss when a day's rollup is not all there, table by table (aggregateFromRollup and index.add in
    internal/compact/source.go). */
module Shortfall {
  import opened Aggregates
  import opened Archive
  import opened Events
  import opened Fold
  import opened Reading
  import opened Rollup
  import opened Tables
  import Calm
  import Lifecycle
  import Serving
  import Windows

  // ---------------------------------------------------------------------------------------------
  // Counts only grow
  // ---------------------------------------------------------------------------------------------

  /** No count is lost or lowered. */
  predicate AtLeast(a: map<string, int>, b: map<string, int>) {
    forall k :: k in a ==> k in b && a[k] <= b[k]
  }

  predicate MoreAt(a: map<string, int>, b: map<string, int>, k: string) {
    k in b && (k in a ==> a[k] < b[k])
  }

  lemma BumpGrows(a: map<string, int>, b: map<string, int>, k: string)
    requires AtLeast(a, b)
    ensures AtLeast(a, Bump(b, k, 1, Add)) && MoreAt(a, Bump(b, k, 1, Add), k)
    ensures forall other :: MoreAt(a, b, other) ==> MoreAt(a, Bump(b, k, 1, Add), other)
  {
  }

  predicate Nameless(turns: seq<Turn>) {
    forall t :: t in turns ==> t.Model() == ""
  }

  lemma {:induction false} ModelsGrow(a: Agg, turns: seq<Turn>)
    ensures AtLeast(a.byModel, AddAll(a, turns).byModel)
    ensures forall t :: t in turns && t.Model() != "" ==> MoreAt(a.byModel, AddAll(a, turns).byModel, t.Model())
    ensures Nameless(turns) ==> AddAll(a, turns).byModel == a.byModel
    decreases |turns|
  {
    if turns != [] {
      var init, last := turns[..|turns| - 1], turns[|turns| - 1];
      assert last in turns && turns == init + [last];
      ModelsGrow(a, init);
      if last.Model() != "" {
        BumpGrows(a.byModel, AddAll(a, init).byModel, last.Model());
      }
    }
  }

  lemma {:induction false} CallsGrow(a: map<string, int>, b: map<string, int>, calls: seq<ToolCall>)
    requires AtLeast(a, b)
    ensures AtLeast(a, CountTools(b, calls))
    ensures calls != [] ==> MoreAt(a, CountTools(b, calls), calls[|calls| - 1].name)
    ensures forall k :: MoreAt(a, b, k) ==> MoreAt(a, CountTools(b, calls), k)
    decreases |calls|
  {
    if calls != [] {
      var init, last := calls[..|calls| - 1], calls[|calls| - 1];
      CallsGrow(a, b, init);
      BumpGrows(a, CountTools(b, init), last.name);
    }
  }

  predicate Toolless(turns: seq<Turn>) {
    forall t :: t in turns ==> t.toolCalls == []
  }

  lemma {:induction false} ToolsGrow(a: Agg, turns: seq<Turn>)
    ensures AtLeast(a.toolCalls, AddAll(a, turns).toolCalls)
    ensures !Toolless(turns) ==> exists k :: MoreAt(a.toolCalls, AddAll(a, turns).toolCalls, k)
    ensures Toolless(turns) ==> AddAll(a, turns).toolCalls == a.toolCalls
    decreases |turns|
  {
    if turns != [] {
      var init, last := turns[..|turns| - 1], turns[|turns| - 1];
      assert last in turns && turns == init + [last];
      ToolsGrow(a, init);
      CallsGrow(a.toolCalls, AddAll(a, init).toolCalls, last.toolCalls);
    }
  }

  predicate SharesAtLeast(a: map<string, Share>, b: map<string, Share>) {
    forall k :: k in a ==> k in b && a[k].turns <= b[k].turns
  }

  predicate ShareMoreAt(a: map<string, Share>, b: map<string, Share>, k: string) {
    k in b && (k in a ==> a[k].turns < b[k].turns)
  }

  lemma ShareGrows(a: map<string, Share>, b: map<string, Share>, t: Turn)
    requires SharesAtLeast(a, b) && t.ProjectID() != ""
    ensures var c := AddProject(b, ShareOf(t));
            && SharesAtLeast(a, c) && ShareMoreAt(a, c, t.ProjectID())
            && forall other :: ShareMoreAt(a, b, other) ==> ShareMoreAt(a, c, other)
  {
  }

  predicate Homeless(turns: seq<Turn>) {
    forall t :: t in turns ==> t.ProjectID() == ""
  }

  lemma {:induction false} ProjectsGrow(a: Agg, turns: seq<Turn>)
    ensures SharesAtLeast(a.byProject, AddAll(a, turns).byProject)
    ensures forall t :: t in turns && t.ProjectID() != "" ==>
                          ShareMoreAt(a.byProject, AddAll(a, turns).byProject, t.ProjectID())
    ensures Homeless(turns) ==> AddAll(a, turns).byProject == a.byProject
    decreases |turns|
  {
    if turns != [] {
      var init, last := turns[..|turns| - 1], turns[|turns| - 1];
      assert last in turns && turns == init + [last];
      ProjectsGrow(a, init);
      if last.ProjectID() != "" {
        ShareGrows(a.byProject, AddAll(a, init).byProject, last);
      }
    }
  }

  // ---------------------------------------------------------------------------------------------
  // A rollup with tables missing
  // ---------------------------------------------------------------------------------------------

  /** A table as the day's summary has it, or none of it. */
  predicate AllOrNone<T(==)>(rows: seq<T>, all: seq<T>) {
    rows == all || rows == []
  }

  /** What such a rollup adds is what the day's turns add if and only if each table it lacks has nothing to say
      about them; the totals are right in any case. */
  lemma RolledIsRightIff(a: Agg, day: Day, turns: seq<Turn>, models: seq<ModelRow>, tools: seq<ToolRow>,
          projects: seq<ProjectRow>)
    requires Windows.PlainDay(turns)
    requires var s := SummaryOf(day, turns);
             AllOrNone(models, s.models) && AllOrNone(tools, s.tools) && AllOrNone(projects, s.projects)
    ensures var s := SummaryOf(day, turns);
            var now := AddRollup(a, s.day, models, tools, projects);
            && now.totals == AddAll(a, turns).totals
            && (now == AddAll(a, turns) <==>
                  && (models == s.models || Nameless(turns)) && (tools == s.tools || Toolless(turns))
                  && (projects == s.projects || Homeless(turns)))
  {
    RollupIsItsTurns(a, day, turns);
    ModelsGrow(a, turns);
    ToolsGrow(a, turns);
    ProjectsGrow(a, turns);
  }

  /** A table without rows has nothing to say. */
  lemma NoRowsNothingToSay(day: Day, turns: seq<Turn>)
    requires Windows.PlainDay(turns)
    ensures var s := SummaryOf(day, turns);
            && (s.models == [] ==> Nameless(turns)) && (s.tools == [] ==> Toolless(turns))
            && (s.projects == [] ==> Homeless(turns))
  {
    RollupIsItsTurns(NOTHING, day, turns);
    ModelsGrow(NOTHING, turns);
    ToolsGrow(NOTHING, turns);
    ProjectsGrow(NOTHING, turns);
  }

  lemma KnownTables(s: Lifecycle.System, idx: Index, day: Day, turns: seq<Turn>)
    requires Calm.DayRight(s, idx, day) && PartOf(s.parts, day) == FullOf(day, turns)
    ensures var sum := SummaryOf(day, turns);
            && (day in idx.models ==> idx.models[day] == sum.models)
            && (day in idx.tools ==> idx.tools[day] == sum.tools)
            && (day in idx.projects ==> idx.projects[day] == sum.projects)
  {
  }

  /** The answer for a whole day that a loaded index has in its day table is right, whatever was counted before, if
      and only if each of the other three tables knows the day or has nothing to say about it. */
  lemma IndexedIsRightIff(s: Lifecycle.System, day: Day, a: Agg)
    requires Serving.Reached(s) && Serving.ViewOf(s).idx.Some? && day in Serving.ViewOf(s).idx.value.days
    requires Windows.PlainDay(Serving.LedgerOf(s)(day))
    ensures var v, turns := Serving.ViewOf(s), Serving.LedgerOf(s)(day);
            Windows.RolledUp(v, day, a) == AddAll(a, turns) <==>
              && (day in v.idx.value.models || Nameless(turns)) && (day in v.idx.value.tools || Toolless(turns))
              && (day in v.idx.value.projects || Homeless(turns))
  {
    var idx, turns := Serving.ViewOf(s).idx.value, Serving.LedgerOf(s)(day);
    Serving.DayIsKnown(s, day);
    Serving.DayRowIsRight(s, day);
    KnownTables(s, idx, day, turns);
    NoRowsNothingToSay(day, turns);
    RolledIsRightIff(a, day, turns, Table(idx.models, day), Table(idx.tools, day), Table(idx.projects, day));
  }

  /** The partition has its day object, and what else it has was made from these turns. */
  predicate Begun(p: Partition, whole: Partition) {
    && p.day.Some? && p.day == whole.day && (p.models.Some? ==> p.models == whole.models)
    && (p.tools.Some? ==> p.tools == whole.tools) && (p.projects.Some? ==> p.projects == whole.projects)
  }

  /** And the answer for a whole day of which no index knows, from a partition that may have been left half-written,
      if and only if each of the three objects is there or has nothing to say. */
  lemma HalfWrittenIsRightIff(v: View, day: Day, turns: seq<Turn>, a: Agg)
    requires v.idx.None? || day !in v.idx.value.days
    requires Windows.PlainDay(turns) && Begun(PartOf(v.parts, day), FullOf(day, turns))
    ensures var p := PartOf(v.parts, day);
            Windows.RolledUp(v, day, a) == AddAll(a, turns) <==>
              && (p.models.Some? || Nameless(turns)) && (p.tools.Some? || Toolless(turns))
              && (p.projects.Some? || Homeless(turns))
  {
    var p := PartOf(v.parts, day);
    NoRowsNothingToSay(day, turns);
    RolledIsRightIff(a, day, turns, Windows.Rowless(p.models), Windows.Rowless(p.tools), Windows.Rowless(p.projects));
  }
}
