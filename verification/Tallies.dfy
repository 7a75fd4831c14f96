/** What the rows of a day say, told by the fields of its turns (rollup in internal/compact/compact.go). */
module Tallies {
  import opened Events
  import opened Figures
  import opened Fold
  import opened Rollup
  import opened Tables
  import Archive
  import Assembled
  import Sorting
  import Windows

  /** 1970 began this many days after the origin that days are counted from. */
  const EPOCH_DAY: Day := 719_162

  // ---------------------------------------------------------------------------------------------
  // The day's row
  // ---------------------------------------------------------------------------------------------

  ghost predicate SumsSay(sums: Sums, turns: seq<Turn>) {
    && sums.turns == |turns| && sums.errors == CountOf(turns, Erred)
    && sums.input == SumOf(turns, InputOf) && sums.output == SumOf(turns, OutputOf)
    && sums.write5m == SumOf(turns, ShortOf) && sums.write1h == SumOf(turns, LongOf)
    && sums.cacheRead == SumOf(turns, ReadOf) && sums.cost == SumOf(turns, CostOf)
    && sums.savings == SumOf(turns, SavedBy) && sums.unpriced == CountOf(turns, Unlisted)
  }

  lemma SumsSayMore(sums: Sums, turns: seq<Turn>, t: Turn)
    requires SumsSay(sums, turns) && Assembled.PricedAsListed(t)
    ensures SumsSay(PlusSums(sums, SumsOf(t)), turns + [t])
  {
    assert (turns + [t])[..|turns|] == turns;
    UnpricedIff(t);
    CountSnoc(turns + [t], Erred);
    CountSnoc(turns + [t], Unlisted);
  }

  lemma {:induction false} SumsAreSaid(day: Day, turns: seq<Turn>)
    requires forall t :: t in turns ==> Assembled.PricedAsListed(t)
    ensures SumsSay(CountAll(day, turns).sums, turns)
    decreases |turns|
  {
    if turns != [] {
      var init, last := turns[..|turns| - 1], turns[|turns| - 1];
      assert last in turns && turns == init + [last];
      SumsAreSaid(day, init);
      SumsSayMore(CountAll(day, init).sums, init, last);
    }
  }

  // ---------------------------------------------------------------------------------------------
  // Models
  // ---------------------------------------------------------------------------------------------

  ghost predicate ModelSays(r: ModelRow, day: Day, model: string, own: seq<Turn>) {
    && r.day == day && r.model == model && r.turns == |own|
    && r.input == SumOf(own, InputOf) && r.output == SumOf(own, OutputOf)
    && r.cacheRead == SumOf(own, ReadOf) && r.cost == SumOf(own, CostOf)
  }

  ghost predicate ModelIs(models: map<string, ModelRow>, day: Day, model: string, own: seq<Turn>) {
    && (model in models <==> model != "" && own != [])
    && (model in models ==> ModelSays(models[model], day, model, own))
  }

  lemma ModelIsMore(models: map<string, ModelRow>, day: Day, model: string, own: seq<Turn>, t: Turn)
    requires ModelIs(models, day, model, own)
    ensures ModelIs(if t.Model() != "" then Bump(models, t.Model(), ModelRowOf(day, t), PlusModel) else models,
                    day, model, own + if t.Model() == model then [t] else [])
  {
    assert own + [] == own;
    assert (own + [t])[..|own|] == own;
  }

  lemma {:induction false} ModelsAreSaid(day: Day, turns: seq<Turn>, model: string)
    ensures ModelIs(CountAll(day, turns).models, day, model, Sorting.Filter(turns, OfModel(model)))
    decreases |turns|
  {
    if turns != [] {
      var init, last := turns[..|turns| - 1], turns[|turns| - 1];
      ModelsAreSaid(day, init, model);
      ModelIsMore(CountAll(day, init).models, day, model, Sorting.Filter(init, OfModel(model)), last);
    }
  }

  // ---------------------------------------------------------------------------------------------
  // Tools
  // ---------------------------------------------------------------------------------------------

  lemma {:induction false} ToolsAreSaid(day: Day, turns: seq<Turn>, tool: string)
    ensures CountAt(CountAll(day, turns).tools, tool) == SumOf(turns, CallsTo(tool))
    decreases |turns|
  {
    if turns != [] {
      ToolsAreSaid(day, turns[..|turns| - 1], tool);
      ToolsCount(CountAll(day, turns[..|turns| - 1]).tools, turns[|turns| - 1].toolCalls, tool);
    }
  }

  // ---------------------------------------------------------------------------------------------
  // Sessions
  // ---------------------------------------------------------------------------------------------

  /** How many turns the session has that day, and when the first and the last of them started, in Unix time. */
  ghost predicate SessionSays(r: SessionDayRow, day: Day, id: string, own: seq<Turn>) {
    && r.day == day && r.sessionID == id && r.turns == |own|
    && (forall t :: t in own ==> r.firstTS <= t.StartedAt() - StartOf(EPOCH_DAY) <= r.lastTS)
    && (exists t :: t in own && r.firstTS == t.StartedAt() - StartOf(EPOCH_DAY))
    && (exists t :: t in own && r.lastTS == t.StartedAt() - StartOf(EPOCH_DAY))
  }

  ghost predicate SessionIs(sessions: map<string, SessionDayRow>, day: Day, id: string, own: seq<Turn>) {
    && (id in sessions <==> own != [])
    && (id in sessions ==> SessionSays(sessions[id], day, id, own))
  }

  lemma SessionSaysMore(r: SessionDayRow, day: Day, id: string, own: seq<Turn>, t: Turn)
    requires SessionSays(r, day, id, own)
    ensures SessionSays(PlusSession(r, SessionRowOf(day, id, t.StartedAt() - UNIX_EPOCH)), day, id, own + [t])
  {
    var first :| first in own && r.firstTS == first.StartedAt() - StartOf(EPOCH_DAY);
    var last :| last in own && r.lastTS == last.StartedAt() - StartOf(EPOCH_DAY);
    assert first in own + [t] && last in own + [t] && t in own + [t];
  }

  lemma SessionIsMore(sessions: map<string, SessionDayRow>, day: Day, id: string, own: seq<Turn>, t: Turn)
    requires SessionIs(sessions, day, id, own)
    ensures var row := SessionRowOf(day, t.SessionID(), t.StartedAt() - UNIX_EPOCH);
            SessionIs(Bump(sessions, t.SessionID(), row, PlusSession), day, id,
                      own + if t.SessionID() == id then [t] else [])
  {
    assert own + [] == own;
    if t.SessionID() == id {
      if own == [] {
        assert own + [t] == [t] && t in [t];
      } else {
        SessionSaysMore(sessions[id], day, id, own, t);
      }
    }
  }

  lemma {:induction false} SessionsAreSaid(day: Day, turns: seq<Turn>, id: string)
    ensures SessionIs(CountAll(day, turns).sessions, day, id, Sorting.Filter(turns, OfSession(id)))
    decreases |turns|
  {
    if turns != [] {
      var init, last := turns[..|turns| - 1], turns[|turns| - 1];
      SessionsAreSaid(day, init, id);
      SessionIsMore(CountAll(day, init).sessions, day, id, Sorting.Filter(init, OfSession(id)), last);
    }
  }

  predicate OneEach(rows: seq<SessionDayRow>) {
    forall i, j :: 0 <= i < j < |rows| ==> rows[i].sessionID != rows[j].sessionID
  }

  /** What the rows say about one session. */
  ghost predicate ProbedFor(rows: seq<SessionDayRow>, day: Day, id: string, own: seq<Turn>) {
    && (Listed(rows, id) <==> own != [])
    && forall i :: 0 <= i < |rows| && rows[i].sessionID == id ==> SessionSays(rows[i], day, id, own)
  }

  predicate Listed(rows: seq<SessionDayRow>, id: string) {
    exists i :: 0 <= i < |rows| && rows[i].sessionID == id
  }

  /** One row was put at place `k`, in place of its session's or as a new one. */
  predicate PutAt(rows: seq<SessionDayRow>, now: seq<SessionDayRow>, k: nat, row: SessionDayRow) {
    && k <= |rows| && (forall i :: 0 <= i < |rows| && rows[i].sessionID == row.sessionID ==> i == k)
    && (k < |rows| ==> rows[k].sessionID == row.sessionID)
    && now == if k < |rows| then rows[k := row] else rows + [row]
  }

  /** What one more turn does to the rows: its session's row counts it, or it gets one of its own at the end. */
  lemma {:induction false} ProbeOne(rows: seq<SessionDayRow>, day: Day, r: TurnRow) returns (k: nat)
    requires OneEach(rows)
    ensures k <= |rows| && forall i :: 0 <= i < |rows| && rows[i].sessionID == r.sessionID ==> i == k
    ensures if k < |rows|
            then rows[k].sessionID == r.sessionID && Archive.Probe(rows, day, r)
                 == rows[k := PlusSession(rows[k], SessionRowOf(day, r.sessionID, r.ts))]
            else Archive.Probe(rows, day, r) == rows + [SessionRowOf(day, r.sessionID, r.ts)]
  {
    if rows == [] || rows[0].sessionID == r.sessionID {
      k := 0;
    } else {
      var n := ProbeOne(rows[1..], day, r);
      k := n + 1;
    }
  }

  lemma SessionOfOne(day: Day, t: Turn)
    ensures SessionSays(SessionRowOf(day, t.SessionID(), t.StartedAt() - UNIX_EPOCH), day, t.SessionID(), [t])
  {
    assert t in [t];
  }

  lemma StillOneEach(rows: seq<SessionDayRow>, now: seq<SessionDayRow>, k: nat, row: SessionDayRow)
    requires OneEach(rows) && PutAt(rows, now, k, row)
    ensures OneEach(now)
  {
  }

  lemma OthersStay(rows: seq<SessionDayRow>, now: seq<SessionDayRow>, k: nat, row: SessionDayRow, day: Day, id: string,
          own: seq<Turn>)
    requires PutAt(rows, now, k, row) && ProbedFor(rows, day, id, own) && id != row.sessionID
    ensures ProbedFor(now, day, id, own)
  {
    ListedMore(rows, now, k, row.sessionID, id);
  }

  lemma OwnIsPut(rows: seq<SessionDayRow>, now: seq<SessionDayRow>, k: nat, row: SessionDayRow, day: Day,
          own: seq<Turn>)
    requires PutAt(rows, now, k, row) && SessionSays(row, day, row.sessionID, own) && own != []
    ensures ProbedFor(now, day, row.sessionID, own)
  {
    ListedMore(rows, now, k, row.sessionID, row.sessionID);
  }

  /** The row of the turn's session with the turn counted. */
  function WithTurn(rows: seq<SessionDayRow>, k: nat, day: Day, t: Turn): (row: SessionDayRow)
    requires k < |rows| ==> rows[k].sessionID == t.SessionID()
    ensures row.sessionID == t.SessionID()
  {
    var one := SessionRowOf(day, t.SessionID(), t.StartedAt() - UNIX_EPOCH);
    if k < |rows| then PlusSession(rows[k], one) else one
  }

  lemma OwnSaysMore(rows: seq<SessionDayRow>, day: Day, own: seq<Turn>, t: Turn, k: nat)
    requires ProbedFor(rows, day, t.SessionID(), own) && k <= |rows|
    requires forall i :: 0 <= i < |rows| && rows[i].sessionID == t.SessionID() ==> i == k
    requires k < |rows| ==> rows[k].sessionID == t.SessionID()
    ensures SessionSays(WithTurn(rows, k, day, t), day, t.SessionID(), own + [t])
  {
    if k < |rows| {
      SessionSaysMore(rows[k], day, t.SessionID(), own, t);
    } else {
      assert own + [t] == [t];
      SessionOfOne(day, t);
    }
  }

  lemma ProbePuts(rows: seq<SessionDayRow>, day: Day, t: Turn) returns (k: nat)
    requires OneEach(rows)
    ensures k <= |rows| && (k < |rows| ==> rows[k].sessionID == t.SessionID())
    ensures PutAt(rows, Archive.Probe(rows, day, ToRow(t)), k, WithTurn(rows, k, day, t))
  {
    k := ProbeOne(rows, day, ToRow(t));
  }

  lemma ProbedMore(rows: seq<SessionDayRow>, day: Day, id: string, own: seq<Turn>, t: Turn)
    requires OneEach(rows) && ProbedFor(rows, day, id, own)
    ensures var now := Archive.Probe(rows, day, ToRow(t));
            OneEach(now) && ProbedFor(now, day, id, own + if t.SessionID() == id then [t] else [])
  {
    var now := Archive.Probe(rows, day, ToRow(t));
    var k := ProbePuts(rows, day, t);
    var row := WithTurn(rows, k, day, t);
    StillOneEach(rows, now, k, row);
    if t.SessionID() == id {
      OwnSaysMore(rows, day, own, t, k);
      OwnIsPut(rows, now, k, row, day, own + [t]);
    } else {
      assert own + [] == own;
      OthersStay(rows, now, k, row, day, id, own);
    }
  }

  lemma ListedMore(rows: seq<SessionDayRow>, now: seq<SessionDayRow>, k: nat, mine: string, id: string)
    requires k <= |rows| && k < |now| && now[k].sessionID == mine && |rows| <= |now| <= |rows| + 1
    requires (k < |rows| ==> |now| == |rows|) && (k == |rows| ==> |now| == k + 1)
    requires forall i :: 0 <= i < |rows| && i != k ==> now[i] == rows[i]
    requires k < |rows| ==> rows[k].sessionID == mine
    ensures Listed(now, id) <==> Listed(rows, id) || id == mine
  {
    if i :| 0 <= i < |rows| && rows[i].sessionID == id {
      assert now[i].sessionID == id;
    }
    if i :| 0 <= i < |now| && now[i].sessionID == id && i != k {
      assert rows[i].sessionID == id;
    }
  }

  /** A partition without session rows is probed for them, turn by turn: no session comes twice, and each row says what
      the day's own row would say. */
  lemma {:induction false} ProbingIsSaid(day: Day, turns: seq<Turn>, id: string)
    ensures var rows := Archive.ProbeAll(day, Sorting.Map(ToRow, turns));
            OneEach(rows) && ProbedFor(rows, day, id, Sorting.Filter(turns, OfSession(id)))
    decreases |turns|
  {
    if turns != [] {
      var init, last := turns[..|turns| - 1], turns[|turns| - 1];
      ProbingIsSaid(day, init, id);
      ProbedMore(Archive.ProbeAll(day, Sorting.Map(ToRow, init)), day, id, Sorting.Filter(init, OfSession(id)), last);
      assert Sorting.Map(ToRow, turns)[..|init|] == Sorting.Map(ToRow, init);
    }
  }

  // ---------------------------------------------------------------------------------------------
  // Projects
  // ---------------------------------------------------------------------------------------------

  /** Turns that name a project, of this id. */
  function PlacedIn(id: string): Turn -> bool {
    (t: Turn) => t.facts.labels.project != "" && t.facts.labels.projectID == id
  }

  /** The project's figures, under the first name that was met, with whether that turn ran inside a repository and how
      many sessions took part. */
  ghost predicate ProjectIs(c: Counting, id: string, own: seq<Turn>) {
    && (id in c.shares <==> own != []) && (id in c.inRepo <==> own != []) && (id in c.members <==> own != [])
    && (own != [] ==>
          && ShareSays(c.shares[id], own) && c.shares[id].projectID == id
          && c.shares[id].project == own[0].facts.labels.project
          && c.inRepo[id] == own[0].facts.labels.inRepo && c.members[id] == Windows.IDs(own))
  }

  lemma ProjectIsMore(c: Counting, day: Day, id: string, own: seq<Turn>, t: Turn)
    requires ProjectIs(c, id, own)
    ensures ProjectIs(Count(c, day, t), id, own + if PlacedIn(id)(t) then [t] else [])
  {
    if PlacedIn(id)(t) {
      Windows.IDsOneMore(own, t);
      if own == [] {
        FirstOfProject(c, day, id, t);
      } else {
        ShareSaysMore(c.shares[id], own, t);
      }
    } else {
      assert own + [] == own;
    }
  }

  lemma FirstOfProject(c: Counting, day: Day, id: string, t: Turn)
    requires ProjectIs(c, id, []) && PlacedIn(id)(t)
    ensures ProjectIs(Count(c, day, t), id, [t]) && [] + [t] == [t]
  {
    ShareOfOne(t);
  }

  lemma {:induction false} ProjectsAreSaid(day: Day, turns: seq<Turn>, id: string)
    ensures ProjectIs(CountAll(day, turns), id, Sorting.Filter(turns, PlacedIn(id)))
    decreases |turns|
  {
    if turns != [] {
      var init, last := turns[..|turns| - 1], turns[|turns| - 1];
      ProjectsAreSaid(day, init, id);
      ProjectIsMore(CountAll(day, init), day, id, Sorting.Filter(init, PlacedIn(id)), last);
    }
  }

  // ---------------------------------------------------------------------------------------------
  // The rows as they are stored
  // ---------------------------------------------------------------------------------------------

  ghost predicate DayRowSays(r: DayRow, day: Day, turns: seq<Turn>) {
    && r.day == day && SumsSay(r.sums, turns) && r.sessions == |Windows.IDs(turns)|
  }

  /** One row for each model that a turn names, in byte order, and no other. */
  ghost predicate ModelRowsSay(rows: seq<ModelRow>, day: Day, turns: seq<Turn>) {
    && Ordered(rows, (r: ModelRow) => r.model)
    && (forall r :: r in rows ==> ModelSays(r, day, r.model, Sorting.Filter(turns, OfModel(r.model))))
    && forall model :: (exists r :: r in rows && r.model == model)
                       <==> model != "" && Sorting.Filter(turns, OfModel(model)) != []
  }

  lemma ModelRowsAreSaid(day: Day, turns: seq<Turn>)
    ensures ModelRowsSay(SummaryOf(day, turns).models, day, turns)
  {
    var c := CountAll(day, turns);
    var rows, key := SummaryOf(day, turns).models, (r: ModelRow) => r.model;
    CountFiles(day, turns);
    RowsAreSorted(c.models, key);
    forall r | r in rows ensures ModelSays(r, day, r.model, Sorting.Filter(turns, OfModel(r.model))) {
      assert EntryOf(c.models, c.models.Keys, key, r);
      ModelsAreSaid(day, turns, r.model);
    }
    forall model ensures (exists r :: r in rows && r.model == model)
                         <==> model != "" && Sorting.Filter(turns, OfModel(model)) != [] {
      ModelsAreSaid(day, turns, model);
      if model in c.models {
        assert EntryOf(c.models, c.models.Keys, key, c.models[model]);
        assert c.models[model] in rows;
      }
      if r :| r in rows && r.model == model {
        assert EntryOf(c.models, c.models.Keys, key, r);
      }
    }
  }

  ghost predicate SessionRowsSay(rows: seq<SessionDayRow>, day: Day, turns: seq<Turn>) {
    && Ordered(rows, (r: SessionDayRow) => r.sessionID)
    && (forall r :: r in rows ==> SessionSays(r, day, r.sessionID, Sorting.Filter(turns, OfSession(r.sessionID))))
    && forall id :: (exists r :: r in rows && r.sessionID == id) <==> Sorting.Filter(turns, OfSession(id)) != []
  }

  lemma SessionRowsAreSaid(day: Day, turns: seq<Turn>)
    ensures SessionRowsSay(SummaryOf(day, turns).sessions, day, turns)
  {
    var c := CountAll(day, turns);
    var rows, key := SummaryOf(day, turns).sessions, (r: SessionDayRow) => r.sessionID;
    CountFiles(day, turns);
    RowsAreSorted(c.sessions, key);
    forall r | r in rows ensures SessionSays(r, day, r.sessionID, Sorting.Filter(turns, OfSession(r.sessionID))) {
      assert EntryOf(c.sessions, c.sessions.Keys, key, r);
      SessionsAreSaid(day, turns, r.sessionID);
    }
    forall id ensures (exists r :: r in rows && r.sessionID == id) <==> Sorting.Filter(turns, OfSession(id)) != [] {
      SessionsAreSaid(day, turns, id);
      if id in c.sessions {
        assert EntryOf(c.sessions, c.sessions.Keys, key, c.sessions[id]);
        assert c.sessions[id] in rows;
      }
      if r :| r in rows && r.sessionID == id {
        assert EntryOf(c.sessions, c.sessions.Keys, key, r);
      }
    }
  }

  ghost predicate ToolRowsSay(rows: seq<ToolRow>, day: Day, turns: seq<Turn>) {
    && Ordered(rows, (r: ToolRow) => r.tool)
    && (forall r :: r in rows ==> r.day == day && r.calls == SumOf(turns, CallsTo(r.tool)))
    && forall tool :: SumOf(turns, CallsTo(tool)) != 0 ==> exists r :: r in rows && r.tool == tool
  }

  lemma ToolRowsAreSaid(day: Day, turns: seq<Turn>)
    ensures ToolRowsSay(SummaryOf(day, turns).tools, day, turns)
  {
    var tools := CountAll(day, turns).tools;
    var m, key := ToolRows(day, tools), (r: ToolRow) => r.tool;
    var rows := SummaryOf(day, turns).tools;
    RowsAreSorted(m, key);
    forall r | r in rows ensures r.day == day && r.calls == SumOf(turns, CallsTo(r.tool)) {
      assert EntryOf(m, m.Keys, key, r);
      ToolsAreSaid(day, turns, r.tool);
    }
    forall tool | SumOf(turns, CallsTo(tool)) != 0 ensures exists r :: r in rows && r.tool == tool {
      ToolsAreSaid(day, turns, tool);
      assert EntryOf(m, m.Keys, key, m[tool]);
      assert m[tool] in rows;
    }
  }

  ghost predicate ProjectSays(r: ProjectRow, day: Day, own: seq<Turn>) {
    && own != [] && r.day == day && ShareSays(r.share, own)
    && r.share.project == own[0].facts.labels.project && r.inRepo == own[0].facts.labels.inRepo
    && r.sessions == |Windows.IDs(own)|
  }

  ghost predicate ProjectRowsSay(rows: seq<ProjectRow>, day: Day, turns: seq<Turn>) {
    && Ordered(rows, (r: ProjectRow) => r.share.projectID)
    && (forall r :: r in rows ==> ProjectSays(r, day, Sorting.Filter(turns, PlacedIn(r.share.projectID))))
    && forall id :: (exists r :: r in rows && r.share.projectID == id) <==> Sorting.Filter(turns, PlacedIn(id)) != []
  }

  lemma ProjectRowsAreSaid(day: Day, turns: seq<Turn>)
    ensures ProjectRowsSay(SummaryOf(day, turns).projects, day, turns)
  {
    var c := CountAll(day, turns);
    CountFiles(day, turns);
    var m, key := ProjectRows(day, c), (r: ProjectRow) => r.share.projectID;
    var rows := SummaryOf(day, turns).projects;
    RowsAreSorted(m, key);
    forall r | r in rows ensures ProjectSays(r, day, Sorting.Filter(turns, PlacedIn(r.share.projectID))) {
      assert EntryOf(m, m.Keys, key, r);
      ProjectsAreSaid(day, turns, r.share.projectID);
    }
    forall id ensures (exists r :: r in rows && r.share.projectID == id)
                      <==> Sorting.Filter(turns, PlacedIn(id)) != [] {
      ProjectsAreSaid(day, turns, id);
      if id in c.shares {
        assert EntryOf(m, m.Keys, key, m[id]);
        assert m[id] in rows;
      }
      if r :| r in rows && r.share.projectID == id {
        assert EntryOf(m, m.Keys, key, r);
      }
    }
  }

  /** The whole summary of a day. */
  lemma SummaryIsSaid(day: Day, turns: seq<Turn>)
    requires forall t :: t in turns ==> Assembled.PricedAsListed(t)
    ensures var s := SummaryOf(day, turns);
            && DayRowSays(s.day, day, turns) && ModelRowsSay(s.models, day, turns) && ToolRowsSay(s.tools, day, turns)
            && ProjectRowsSay(s.projects, day, turns) && SessionRowsSay(s.sessions, day, turns)
  {
    SumsAreSaid(day, turns);
    Windows.SessionsCounted(day, turns);
    ModelRowsAreSaid(day, turns);
    ToolRowsAreSaid(day, turns);
    ProjectRowsAreSaid(day, turns);
    SessionRowsAreSaid(day, turns);
  }
}
