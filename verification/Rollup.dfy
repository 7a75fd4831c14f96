/** The rows a day is frozen into (internal/compact/schema.go) and how they are computed from its turns
    (toRow, FromRow and rollup in internal/compact/compact.go). */
module Rollup {
  import opened Events
  import opened Fold
  import opened Tables
  import Pricing
  import Sorting

  // ---------------------------------------------------------------------------------------------
  // One row per turn
  // ---------------------------------------------------------------------------------------------

  /** Where Unix time starts, in milliseconds since Go's zero time. */
  const UNIX_EPOCH := 62_135_596_800_000

  datatype TurnRow = TurnRow(
    ts: int,
    sessionID: string,
    turnID: string,
    model: string,
    stream: bool,
    identity: Identity,
    project: string,
    projectID: string,
    gitBranch: string,
    source: string,
    messageID: string,
    statusCode: int,
    stopReason: string,
    durationMS: int,
    ttfbMS: int,
    messageCount: int,
    systemBlocks: int,
    input: int,
    output: int,
    write5m: int,
    write1h: int,
    cacheRead: int,
    cost: int,
    priced: bool,
    toolCalls: seq<string>,
    toolsOffered: seq<string>,
    requestBlob: string,
    responseBlob: string,
    contentBlobs: seq<string>,
    error: string,
    pending: bool)

  /** Go's conversion to int32: the low 32 bits, signed. */
  function Int32(n: int): (r: int)
    ensures -0x8000_0000 <= r < 0x8000_0000
    ensures -0x8000_0000 <= n < 0x8000_0000 ==> r == n
  {
    (n + 0x8000_0000) % 0x1_0000_0000 - 0x8000_0000
  }

  predicate FitsInt32(n: int) {
    -0x8000_0000 <= n < 0x8000_0000
  }

  function NameOf(call: ToolCall): string {
    call.name
  }

  function Nameless(name: string): ToolCall {
    ToolCall("", name)
  }

  function ToRow(t: Turn): TurnRow {
    var l, h, q, a := t.facts.labels, t.facts.shared, t.facts.asked, t.facts.answered;
    var w := CacheWrites(a.usage);
    TurnRow(
      h.startedAt - UNIX_EPOCH, l.sessionID, l.turnID, h.model, q.stream, l.identity, l.project, l.projectID,
      l.gitBranch, l.source, l.messageID, Int32(a.statusCode), a.stopReason, h.durationMS, a.ttfbMS,
      Int32(q.messageCount), Int32(q.systemBlocks), a.usage.input, a.usage.output, w.fiveMin, w.oneHour,
      a.usage.cacheRead, t.cost, t.priced, Sorting.Map(NameOf, t.toolCalls), q.toolsOffered, q.requestBlob,
      a.responseBlob, t.contentBlobs, h.error, h.pending)
  }

  function UsageOfRow(r: TurnRow): Usage {
    Usage(r.input, r.output, r.write5m + r.write1h, r.cacheRead, Some(CacheSplit(r.write5m, r.write1h)), None)
  }

  function FromRow(r: TurnRow): Turn {
    Turn(
      Facts(
        Labels(r.turnID, r.sessionID, r.identity, r.messageID, r.source, r.project, r.projectID, false,
               r.gitBranch, "", false),
        Shared(r.ts + UNIX_EPOCH, r.model, r.durationMS, r.error, r.pending),
        Asked(r.stream, r.messageCount, r.systemBlocks, r.toolsOffered, r.requestBlob),
        Answered(r.statusCode, r.stopReason, r.ttfbMS, UsageOfRow(r), r.responseBlob)),
      Sorting.Map(Nameless, r.toolCalls), r.contentBlobs, r.cost, r.priced)
  }

  predicate RowInRange(r: TurnRow) {
    FitsInt32(r.statusCode) && FitsInt32(r.messageCount) && FitsInt32(r.systemBlocks)
  }

  lemma {:induction false} NamesRoundTrip(names: seq<string>)
    ensures Sorting.Map(NameOf, Sorting.Map(Nameless, names)) == names
  {
    var there := Sorting.Map(Nameless, names);
    assert forall i :: 0 <= i < |names| ==> Sorting.Map(NameOf, there)[i] == names[i];
  }

  /** A row survives being read back as a turn and written again. */
  lemma RowRoundTrip(r: TurnRow)
    requires RowInRange(r)
    ensures ToRow(FromRow(r)) == r
  {
    NamesRoundTrip(r.toolCalls);
  }

  /** What no column holds. */
  predicate Storable(t: Turn) {
    var l, q, a := t.facts.labels, t.facts.asked, t.facts.answered;
    && !l.inRepo && l.effort == "" && !l.subagent
    && FitsInt32(a.statusCode) && FitsInt32(q.messageCount) && FitsInt32(q.systemBlocks)
    && a.usage.reasoning == None && a.usage.split.Some? && SplitAddsUp(a.usage)
    && forall c :: c in t.toolCalls ==> c.id == ""
  }

  /** The breakdown by tier, where one is reported, adds up to the total. */
  predicate SplitAddsUp(u: Usage) {
    u.split.Some? ==> u.split.value.fiveMin + u.split.value.oneHour == u.cacheWrite
  }

  lemma NamelessCalls(calls: seq<ToolCall>)
    ensures Sorting.Map(Nameless, Sorting.Map(NameOf, calls)) == calls <==> forall c :: c in calls ==> c.id == ""
  {
    var back := Sorting.Map(Nameless, Sorting.Map(NameOf, calls));
    assert forall i :: 0 <= i < |calls| ==> back[i] == ToolCall("", calls[i].name);
    if forall c :: c in calls ==> c.id == "" {
      assert forall i :: 0 <= i < |calls| ==> calls[i] in calls && back[i] == calls[i];
    } else {
      var c :| c in calls && c.id != "";
      var i :| 0 <= i < |calls| && calls[i] == c;
      assert back[i] != calls[i];
    }
  }

  lemma UsageRoundTrip(u: Usage)
    ensures var w := CacheWrites(u);
            u == Usage(u.input, u.output, w.fiveMin + w.oneHour, u.cacheRead, Some(CacheSplit(w.fiveMin, w.oneHour)),
                       None)
            <==> u.reasoning == None && u.split.Some? && SplitAddsUp(u)
  {
  }

  lemma FactsRoundTrip(t: Turn)
    ensures FromRow(ToRow(t)).facts == t.facts
       <==> var l, q, a := t.facts.labels, t.facts.asked, t.facts.answered;
            && !l.inRepo && l.effort == "" && !l.subagent
            && FitsInt32(a.statusCode) && FitsInt32(q.messageCount) && FitsInt32(q.systemBlocks)
            && a.usage.reasoning == None && a.usage.split.Some? && SplitAddsUp(a.usage)
  {
    var back := FromRow(ToRow(t)).facts;
    UsageRoundTrip(t.facts.answered.usage);
    assert back.labels == t.facts.labels
      <==> !t.facts.labels.inRepo && t.facts.labels.effort == "" && !t.facts.labels.subagent;
    assert back.shared == t.facts.shared;
    assert back.asked == t.facts.asked
        <==> FitsInt32(t.facts.asked.messageCount) && FitsInt32(t.facts.asked.systemBlocks);
  }

  /** A turn comes back from its row unchanged exactly when it holds nothing the row has no column for. */
  lemma TurnRoundTripIff(t: Turn)
    ensures FromRow(ToRow(t)) == t <==> Storable(t)
  {
    FactsRoundTrip(t);
    NamelessCalls(t.toolCalls);
  }

  // ---------------------------------------------------------------------------------------------
  // Rows that summarise a day
  // ---------------------------------------------------------------------------------------------

  /** The columns of the day's row that add up. */
  datatype Sums = Sums(
    turns: int,
    errors: int,
    input: int,
    output: int,
    write5m: int,
    write1h: int,
    cacheRead: int,
    cost: int,
    savings: int,
    unpriced: int)

  const NO_SUMS := Sums(0, 0, 0, 0, 0, 0, 0, 0, 0, 0)

  datatype DayRow = DayRow(day: Day, sessions: nat, sums: Sums)

  datatype ModelRow = ModelRow(day: Day, model: string, turns: int, input: int, output: int, cacheRead: int, cost: int)

  datatype ToolRow = ToolRow(day: Day, tool: string, calls: int)

  /** A project's part of some turns. */
  datatype Share = Share(
    project: string,
    projectID: string,
    turns: int,
    input: int,
    output: int,
    write: int,
    cacheRead: int,
    cost: int,
    errors: int)

  datatype ProjectRow = ProjectRow(day: Day, share: Share, inRepo: bool, sessions: nat)

  datatype SessionDayRow = SessionDayRow(day: Day, sessionID: string, turns: int, firstTS: int, lastTS: int)

  predicate Failed(t: Turn) {
    t.facts.shared.error != "" || t.facts.answered.statusCode >= 400
  }

  predicate Unpriced(t: Turn) {
    !t.priced && t.Model() != ""
  }

  function One(b: bool): int {
    if b then 1 else 0
  }

  function SumsOf(t: Turn): Sums {
    var u := t.Usage();
    var w := CacheWrites(u);
    Sums(1, One(Failed(t)), u.input, u.output, w.fiveMin, w.oneHour, u.cacheRead, t.cost,
         Pricing.CacheSavings(t.Model(), u), One(Unpriced(t)))
  }

  function PlusSums(a: Sums, b: Sums): Sums {
    Sums(a.turns + b.turns, a.errors + b.errors, a.input + b.input, a.output + b.output, a.write5m + b.write5m,
         a.write1h + b.write1h, a.cacheRead + b.cacheRead, a.cost + b.cost, a.savings + b.savings,
         a.unpriced + b.unpriced)
  }

  function ModelRowOf(day: Day, t: Turn): ModelRow {
    ModelRow(day, t.Model(), 1, t.Usage().input, t.Usage().output, t.Usage().cacheRead, t.cost)
  }

  function PlusModel(a: ModelRow, b: ModelRow): ModelRow {
    a.(turns := a.turns + b.turns, input := a.input + b.input, output := a.output + b.output,
       cacheRead := a.cacheRead + b.cacheRead, cost := a.cost + b.cost)
  }

  function ShareOf(t: Turn): Share {
    var w := CacheWrites(t.Usage());
    Share(t.facts.labels.project, t.ProjectID(), 1, t.Usage().input, t.Usage().output, w.fiveMin + w.oneHour,
          t.Usage().cacheRead, t.cost, One(Failed(t)))
  }

  /** Numbers add; the name stays that of the first. */
  function PlusShare(a: Share, b: Share): Share {
    Share(a.project, a.projectID, a.turns + b.turns, a.input + b.input, a.output + b.output, a.write + b.write,
          a.cacheRead + b.cacheRead, a.cost + b.cost, a.errors + b.errors)
  }

  function SessionRowOf(day: Day, sessionID: string, ts: int): SessionDayRow {
    SessionDayRow(day, sessionID, 1, ts, ts)
  }

  function PlusSession(a: SessionDayRow, b: SessionDayRow): SessionDayRow {
    a.(turns := a.turns + b.turns,
       firstTS := if b.firstTS < a.firstTS then b.firstTS else a.firstTS,
       lastTS := if b.lastTS > a.lastTS then b.lastTS else a.lastTS)
  }

  /** The tables a day's turns are counted in, a project's sessions being collected apart. */
  datatype Counting = Counting(
    sums: Sums,
    sessions: map<string, SessionDayRow>,
    models: map<string, ModelRow>,
    tools: map<string, int>,
    shares: map<string, Share>,
    inRepo: map<string, bool>,
    members: map<string, set<string>>)

  const NOTHING_COUNTED := Counting(NO_SUMS, map[], map[], map[], map[], map[], map[])

  function CountTools(tools: map<string, int>, calls: seq<ToolCall>): map<string, int> {
    if calls == [] then tools
    else Bump(CountTools(tools, calls[..|calls| - 1]), calls[|calls| - 1].name, 1, Add)
  }

  function Join(a: set<string>, b: set<string>): set<string> {
    a + b
  }

  function First(a: bool, b: bool): bool {
    a
  }

  function Count(c: Counting, day: Day, t: Turn): Counting {
    var id := t.ProjectID();
    var placed := t.facts.labels.project != "";
    Counting(
      PlusSums(c.sums, SumsOf(t)),
      Bump(c.sessions, t.SessionID(), SessionRowOf(day, t.SessionID(), t.StartedAt() - UNIX_EPOCH), PlusSession),
      if t.Model() != "" then Bump(c.models, t.Model(), ModelRowOf(day, t), PlusModel) else c.models,
      CountTools(c.tools, t.toolCalls),
      if placed then Bump(c.shares, id, ShareOf(t), PlusShare) else c.shares,
      if placed then Bump(c.inRepo, id, t.facts.labels.inRepo, First) else c.inRepo,
      if placed then Bump(c.members, id, {t.SessionID()}, Join) else c.members)
  }

  function CountAll(day: Day, turns: seq<Turn>): Counting {
    if turns == [] then NOTHING_COUNTED
    else Count(CountAll(day, turns[..|turns| - 1]), day, turns[|turns| - 1])
  }

  /** Every table is filed under the key it lists, and the three project tables know the same projects. */
  ghost predicate Filed(c: Counting) {
    && (forall k :: k in c.models ==> c.models[k].model == k)
    && (forall k :: k in c.sessions ==> c.sessions[k].sessionID == k)
    && (forall k :: k in c.shares ==> c.shares[k].projectID == k)
    && c.inRepo.Keys == c.shares.Keys && c.members.Keys == c.shares.Keys
  }

  lemma {:induction false} CountFiles(day: Day, turns: seq<Turn>)
    ensures Filed(CountAll(day, turns))
  {
    if turns != [] {
      CountFiles(day, turns[..|turns| - 1]);
    }
  }

  /** What one day is summarised into. */
  datatype Summary = Summary(
    day: DayRow,
    models: seq<ModelRow>,
    tools: seq<ToolRow>,
    projects: seq<ProjectRow>,
    sessions: seq<SessionDayRow>)

  function ToolRowOf(day: Day): (string, int) -> ToolRow {
    (tool, calls) => ToolRow(day, tool, calls)
  }

  ghost function ToolRows(day: Day, tools: map<string, int>): (rows: map<string, ToolRow>)
    ensures rows.Keys == tools.Keys && forall k :: k in tools ==> rows[k] == ToolRow(day, k, tools[k])
  {
    Mapped(tools, ToolRowOf(day))
  }

  function ProjectRowOf(day: Day, c: Counting): (string, Share) --> ProjectRow {
    (id, share) requires id in c.inRepo && id in c.members =>
      ProjectRow(day, share, c.inRepo[id], |c.members[id]|)
  }

  ghost function ProjectRows(day: Day, c: Counting): (rows: map<string, ProjectRow>)
    requires c.inRepo.Keys == c.shares.Keys && c.members.Keys == c.shares.Keys
    ensures rows.Keys == c.shares.Keys
    ensures forall k :: k in c.shares ==> rows[k] == ProjectRow(day, c.shares[k], c.inRepo[k], |c.members[k]|)
  {
    Mapped(c.shares, ProjectRowOf(day, c))
  }

  ghost function SummaryOf(day: Day, turns: seq<Turn>): Summary {
    var c := CountAll(day, turns);
    CountFiles(day, turns);
    Summary(
      DayRow(day, |c.sessions|, c.sums),
      Rows(c.models),
      Rows(ToolRows(day, c.tools)),
      Rows(ProjectRows(day, c)),
      Rows(c.sessions))
  }

  /** The source's loop over the turns of a day, and its four sorted listings. */
  method Summarise(day: Day, turns: seq<Turn>) returns (s: Summary)
    ensures s == SummaryOf(day, turns)
  {
    var c := NOTHING_COUNTED;
    for n := 0 to |turns|
      invariant c == CountAll(day, turns[..n])
    {
      assert turns[..n + 1][..n] == turns[..n];
      c := CountTurn(c, day, turns[n]);
    }
    assert turns[..|turns|] == turns;
    CountFiles(day, turns);
    var models := SortedRows(c.models, (r: ModelRow) => r.model);
    var byTool := MapEach(c.tools, ToolRowOf(day));
    var tools := SortedRows(byTool, (r: ToolRow) => r.tool);
    var byProject := MapEach(c.shares, ProjectRowOf(day, c));
    var projects := SortedRows(byProject, (r: ProjectRow) => r.share.projectID);
    var sessions := SortedRows(c.sessions, (r: SessionDayRow) => r.sessionID);
    s := Summary(DayRow(day, |c.sessions|, c.sums), models, tools, projects, sessions);
  }

  method CountSession(sessions: map<string, SessionDayRow>, day: Day, id: string, ts: int)
    returns (now: map<string, SessionDayRow>)
    ensures now == Bump(sessions, id, SessionRowOf(day, id, ts), PlusSession)
  {
    if id !in sessions {
      return sessions[id := SessionDayRow(day, id, 1, ts, ts)];
    }
    var row := sessions[id];
    var firstTS := if ts < row.firstTS then ts else row.firstTS;
    var lastTS := if ts > row.lastTS then ts else row.lastTS;
    now := sessions[id := SessionDayRow(row.day, row.sessionID, row.turns + 1, firstTS, lastTS)];
  }

  method CountCalls(tools: map<string, int>, calls: seq<ToolCall>) returns (now: map<string, int>)
    ensures now == CountTools(tools, calls)
  {
    now := tools;
    for i := 0 to |calls|
      invariant now == CountTools(tools, calls[..i])
    {
      assert calls[..i + 1][..i] == calls[..i];
      var name := calls[i].name;
      now := now[name := (if name in now then now[name] else 0) + 1];
    }
    assert calls[..|calls|] == calls;
  }

  /** One turn of that loop, counter by counter. */
  method CountTurn(c: Counting, day: Day, t: Turn) returns (now: Counting)
    ensures now == Count(c, day, t)
  {
    var sessions := CountSession(c.sessions, day, t.SessionID(), t.StartedAt() - UNIX_EPOCH);
    var models := c.models;
    if t.Model() != "" {
      models := Bump(models, t.Model(), ModelRowOf(day, t), PlusModel);
    }
    var tools := CountCalls(c.tools, t.toolCalls);
    var shares, inRepo, members := c.shares, c.inRepo, c.members;
    if t.facts.labels.project != "" {
      var id := t.ProjectID();
      shares := Bump(shares, id, ShareOf(t), PlusShare);
      inRepo := Bump(inRepo, id, t.facts.labels.inRepo, First);
      members := Bump(members, id, {t.SessionID()}, Join);
    }
    now := Counting(PlusSums(c.sums, SumsOf(t)), sessions, models, tools, shares, inRepo, members);
  }
}
