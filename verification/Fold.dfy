/** Folding the event stream into turns (internal/query/query.go).

    Every scalar field of a turn merges observations under one of three rules, and for two fields
    (`model`, `startedAt`) the rule depends on the kind of event. `EffectOf` writes an event down as
    one operation per field; the method `ApplyEvent` is the source's own sequence of assignments and
    is proved to have exactly that effect. */
module Fold {
  import opened Events
  import Pricing
  import Sorting

  // ---------------------------------------------------------------------------------------------
  // Merge operations
  // ---------------------------------------------------------------------------------------------

  /** What one observation does to one field. */
  datatype Op<+T> = Keep | IfEmpty(v: T) | Set(v: T)

  function Run<T(==)>(x: T, op: Op<T>, empty: T): T {
    match op
    case Keep => x
    case IfEmpty(v) => if x == empty then v else x
    case Set(v) => v
  }

  /** The single operation that does what `a` and then `b` do. */
  function Then<T(==)>(a: Op<T>, b: Op<T>, empty: T): Op<T> {
    match b
    case Keep => a
    case Set(_) => b
    case IfEmpty(w) =>
      match a
      case Keep => b
      case IfEmpty(v) => if v == empty then b else a
      case Set(v) => Set(if v == empty then w else v)
  }

  // ---------------------------------------------------------------------------------------------
  // Turns
  // ---------------------------------------------------------------------------------------------

  /** What any kind of event may say about a turn. */
  datatype Labels = Labels(
    turnID: string,
    sessionID: string,
    identity: Identity,
    messageID: string,
    source: string,
    project: string,
    projectID: string,
    inRepo: bool,
    gitBranch: string,
    effort: string,
    subagent: bool)

  /** Fields that several kinds of event write, under different rules. */
  datatype Shared = Shared(startedAt: Instant, model: string, durationMS: int, error: string, pending: bool)

  /** What only a request knows. */
  datatype Asked = Asked(
    stream: bool,
    messageCount: int,
    systemBlocks: int,
    toolsOffered: seq<string>,
    requestBlob: string)

  /** What only a response knows. */
  datatype Answered = Answered(
    statusCode: int,
    stopReason: string,
    ttfbMS: int,
    usage: Usage,
    responseBlob: string)

  /** The scalar fields of a turn. */
  datatype Facts = Facts(labels: Labels, shared: Shared, asked: Asked, answered: Answered)

  datatype Turn = Turn(
    facts: Facts,
    toolCalls: seq<ToolCall>,
    contentBlobs: seq<string>,
    cost: int,
    priced: bool)
  {
    function SessionID(): string { facts.labels.sessionID }

    function ProjectID(): string { facts.labels.projectID }

    function StartedAt(): Instant { facts.shared.startedAt }

    function Model(): string { facts.shared.model }

    function Usage(): Usage { facts.answered.usage }
  }

  const BLANK_FACTS := Facts(
    Labels("", "", NO_IDENTITY, "", "", "", "", false, "", "", false),
    Shared(ZERO_TIME, "", 0, "", true),
    Asked(false, 0, 0, [], ""),
    Answered(0, "", 0, NO_USAGE, ""))

  const BLANK_TURN := Turn(BLANK_FACTS, [], [], 0, false)

  /** A turn as first created: it carries the first event's turn id. */
  function BlankTurn(turnID: string): Turn {
    BLANK_TURN.(facts := BLANK_FACTS.(labels := BLANK_FACTS.labels.(turnID := turnID)))
  }

  /** One operation per field. */
  datatype LabelsEffect = LabelsEffect(
    turnID: Op<string>,
    sessionID: Op<string>,
    tenantID: Op<string>,
    userID: Op<string>,
    machineID: Op<string>,
    messageID: Op<string>,
    source: Op<string>,
    project: Op<string>,
    projectID: Op<string>,
    inRepo: Op<bool>,
    gitBranch: Op<string>,
    effort: Op<string>,
    subagent: Op<bool>)

  datatype SharedEffect = SharedEffect(
    startedAt: Op<Instant>,
    model: Op<string>,
    durationMS: Op<int>,
    error: Op<string>,
    pending: Op<bool>)

  datatype AskedEffect = AskedEffect(
    stream: Op<bool>,
    messageCount: Op<int>,
    systemBlocks: Op<int>,
    toolsOffered: Op<seq<string>>,
    requestBlob: Op<string>)

  datatype AnsweredEffect = AnsweredEffect(
    statusCode: Op<int>,
    stopReason: Op<string>,
    ttfbMS: Op<int>,
    usage: Op<Usage>,
    responseBlob: Op<string>)

  datatype Effect = Effect(
    labels: LabelsEffect,
    shared: SharedEffect,
    asked: AskedEffect,
    answered: AnsweredEffect)

  function RunLabels(f: Labels, e: LabelsEffect): Labels {
    Labels(
      Run(f.turnID, e.turnID, ""),
      Run(f.sessionID, e.sessionID, ""),
      Identity(
        Run(f.identity.tenantID, e.tenantID, ""),
        Run(f.identity.userID, e.userID, ""),
        Run(f.identity.machineID, e.machineID, "")),
      Run(f.messageID, e.messageID, ""),
      Run(f.source, e.source, ""),
      Run(f.project, e.project, ""),
      Run(f.projectID, e.projectID, ""),
      Run(f.inRepo, e.inRepo, false),
      Run(f.gitBranch, e.gitBranch, ""),
      Run(f.effort, e.effort, ""),
      Run(f.subagent, e.subagent, false))
  }

  function RunShared(f: Shared, e: SharedEffect): Shared {
    Shared(
      Run(f.startedAt, e.startedAt, ZERO_TIME),
      Run(f.model, e.model, ""),
      Run(f.durationMS, e.durationMS, 0),
      Run(f.error, e.error, ""),
      Run(f.pending, e.pending, true))
  }

  function RunAsked(f: Asked, e: AskedEffect): Asked {
    Asked(
      Run(f.stream, e.stream, false),
      Run(f.messageCount, e.messageCount, 0),
      Run(f.systemBlocks, e.systemBlocks, 0),
      Run(f.toolsOffered, e.toolsOffered, []),
      Run(f.requestBlob, e.requestBlob, ""))
  }

  function RunAnswered(f: Answered, e: AnsweredEffect): Answered {
    Answered(
      Run(f.statusCode, e.statusCode, 0),
      Run(f.stopReason, e.stopReason, ""),
      Run(f.ttfbMS, e.ttfbMS, 0),
      Run(f.usage, e.usage, NO_USAGE),
      Run(f.responseBlob, e.responseBlob, ""))
  }

  function RunAll(f: Facts, e: Effect): Facts {
    Facts(
      RunLabels(f.labels, e.labels),
      RunShared(f.shared, e.shared),
      RunAsked(f.asked, e.asked),
      RunAnswered(f.answered, e.answered))
  }

  function FlagOp(b: bool): Op<bool> {
    if b then Set(true) else Keep
  }

  function NumberOp(n: int): Op<int> {
    if n != 0 then Set(n) else Keep
  }

  function NameOp(s: string): Op<string> {
    if s != "" then Set(s) else Keep
  }

  function LabelsEffectOf(ev: Event): LabelsEffect {
    LabelsEffect(
      IfEmpty(ev.turnID),
      NameOp(ev.sessionID),
      IfEmpty(ev.identity.tenantID),
      IfEmpty(ev.identity.userID),
      IfEmpty(ev.identity.machineID),
      IfEmpty(ev.messageID),
      IfEmpty(ev.source),
      IfEmpty(ev.project),
      IfEmpty(ev.projectID),
      FlagOp(ev.inRepo),
      IfEmpty(ev.gitBranch),
      IfEmpty(ev.effort),
      FlagOp(ev.subagent))
  }

  /** A request sets `startedAt` and offers a model; a response sets the model and offers `startedAt`. */
  function SharedEffectOf(ev: Event): SharedEffect {
    match ev.kind
    case Request => SharedEffect(Set(ev.timestamp), IfEmpty(ev.model), Keep, Keep, Keep)
    case Response => SharedEffect(IfEmpty(ev.timestamp), NameOp(ev.model), NumberOp(ev.durationMS), Keep, Set(false))
    case Failure => SharedEffect(IfEmpty(ev.timestamp), Keep, Set(ev.durationMS), Set(ev.error), Set(false))
    case Content => SharedEffect(Keep, Keep, Keep, Keep, Keep)
  }

  function AskedEffectOf(ev: Event): AskedEffect {
    if ev.kind == Request then
      AskedEffect(
        FlagOp(ev.stream),
        NumberOp(ev.messageCount),
        NumberOp(ev.systemBlocks),
        if ev.toolsOffered != [] then Set(ev.toolsOffered) else Keep,
        IfEmpty(ev.requestBlob))
    else AskedEffect(Keep, Keep, Keep, Keep, Keep)
  }

  function AnsweredEffectOf(ev: Event): AnsweredEffect {
    if ev.kind == Response then
      AnsweredEffect(
        NumberOp(ev.statusCode),
        IfEmpty(ev.stopReason),
        NumberOp(ev.ttfbMS),
        if ev.usage.Some? then Set(ev.usage.value) else Keep,
        IfEmpty(ev.responseBlob))
    else AnsweredEffect(Keep, Keep, Keep, Keep, Keep)
  }

  /** The scalar effect of one event, field by field. */
  function EffectOf(ev: Event): Effect {
    Effect(LabelsEffectOf(ev), SharedEffectOf(ev), AskedEffectOf(ev), AnsweredEffectOf(ev))
  }

  // ---------------------------------------------------------------------------------------------
  // Tool calls
  // ---------------------------------------------------------------------------------------------

  /** The position of the first call with this id, or |calls|. */
  function IndexOf(calls: seq<ToolCall>, id: string): (i: nat)
    ensures i <= |calls|
    ensures i < |calls| ==> calls[i].id == id
    ensures forall j :: 0 <= j < i ==> calls[j].id != id
  {
    if calls == [] then 0
    else if calls[0].id == id then 0
    else 1 + IndexOf(calls[1..], id)
  }

  /** One observation of one call: a call seen twice is one call, and a call without an id cannot be
      recognised. */
  function MergeCall(calls: seq<ToolCall>, call: ToolCall): seq<ToolCall> {
    var i := IndexOf(calls, call.id);
    if call.id == "" || i == |calls| then calls + [call]
    else if calls[i].name == "" then calls[i := ToolCall(call.id, call.name)]
    else calls
  }

  function MergeCalls(calls: seq<ToolCall>, more: seq<ToolCall>): seq<ToolCall> {
    if more == [] then calls
    else MergeCall(MergeCalls(calls, more[..|more| - 1]), more[|more| - 1])
  }

  /** The source's nested loops over the calls already held. */
  method MergeToolCalls(held: seq<ToolCall>, calls: seq<ToolCall>) returns (merged: seq<ToolCall>)
    ensures merged == MergeCalls(held, calls)
  {
    merged := held;
    for c := 0 to |calls|
      invariant merged == MergeCalls(held, calls[..c])
    {
      var call := calls[c];
      var known := false;
      var i := 0;
      ghost var before := merged;
      while i < |merged| && !known
        invariant 0 <= i <= |merged|
        invariant !known ==> merged == before
        invariant !known && call.id != "" ==> forall j :: 0 <= j < i ==> merged[j].id != call.id
        invariant known ==> call.id != "" && merged == MergeCall(before, call)
        decreases |merged| - i, !known
      {
        if merged[i].id == call.id && merged[i].id != "" {
          assert IndexOf(before, call.id) == i;
          if merged[i].name == "" {
            merged := merged[i := ToolCall(merged[i].id, call.name)];
          }
          known := true;
        } else {
          i := i + 1;
        }
      }
      if !known {
        assert call.id != "" ==> IndexOf(before, call.id) == |before|;
        merged := merged + [call];
      }
      assert calls[..c + 1][..c] == calls[..c];
    }
    assert calls[..|calls|] == calls;
  }

  // ---------------------------------------------------------------------------------------------
  // One event against one turn
  // ---------------------------------------------------------------------------------------------

  function CallsOf(ev: Event): seq<ToolCall> {
    if ev.kind == Response then ev.toolCalls else []
  }

  function BlobsOf(ev: Event): seq<string> {
    if ev.kind == Content && ev.contentBlob != "" then [ev.contentBlob] else []
  }

  function Apply(t: Turn, ev: Event): Turn {
    t.(facts := RunAll(t.facts, EffectOf(ev)),
       toolCalls := MergeCalls(t.toolCalls, CallsOf(ev)),
       contentBlobs := t.contentBlobs + BlobsOf(ev))
  }

  function SetIfEmpty(dst: string, v: string): (r: string)
    ensures r == Run(dst, IfEmpty(v), "")
  {
    if dst == "" && v != "" then v else dst
  }

  /** A number replaces what is there unless it is zero. */
  function SetIfNumber(dst: int, v: int): (r: int)
    ensures r == Run(dst, NumberOp(v), 0)
  {
    if v != 0 then v else dst
  }

  /** A name replaces what is there unless it is empty. */
  function SetIfName(dst: string, v: string): (r: string)
    ensures r == Run(dst, NameOp(v), "")
  {
    if v != "" then v else dst
  }

  /** A flag, once raised, stays raised. */
  function SetIfFlag(dst: bool, v: bool): (r: bool)
    ensures r == Run(dst, FlagOp(v), false)
  {
    v || dst
  }

  /** Identity.Merge: fill what is empty, overwrite nothing. */
  function MergeIdentity(i: Identity, o: Identity): (r: Identity)
    ensures r.tenantID == Run(i.tenantID, IfEmpty(o.tenantID), "")
    ensures r.userID == Run(i.userID, IfEmpty(o.userID), "")
    ensures r.machineID == Run(i.machineID, IfEmpty(o.machineID), "")
  {
    Identity(
      if i.tenantID == "" then o.tenantID else i.tenantID,
      if i.userID == "" then o.userID else i.userID,
      if i.machineID == "" then o.machineID else i.machineID)
  }

  /** An instant fills one that is not set yet. */
  function SetIfZero(dst: Instant, v: Instant): (r: Instant)
    ensures r == Run(dst, IfEmpty(v), ZERO_TIME)
  {
    if dst == ZERO_TIME then v else dst
  }

  function Relabel(l: Labels, ev: Event): (r: Labels)
    ensures r == RunLabels(l, LabelsEffectOf(ev))
  {
    Labels(
      SetIfEmpty(l.turnID, ev.turnID),
      SetIfName(l.sessionID, ev.sessionID),
      MergeIdentity(l.identity, ev.identity),
      SetIfEmpty(l.messageID, ev.messageID),
      SetIfEmpty(l.source, ev.source),
      SetIfEmpty(l.project, ev.project),
      SetIfEmpty(l.projectID, ev.projectID),
      SetIfFlag(l.inRepo, ev.inRepo),
      SetIfEmpty(l.gitBranch, ev.gitBranch),
      SetIfEmpty(l.effort, ev.effort),
      SetIfFlag(l.subagent, ev.subagent))
  }

  function Ask(a: Asked, ev: Event): (r: Asked)
    requires ev.kind == Request
    ensures r == RunAsked(a, AskedEffectOf(ev))
  {
    Asked(
      SetIfFlag(a.stream, ev.stream),
      SetIfNumber(a.messageCount, ev.messageCount),
      SetIfNumber(a.systemBlocks, ev.systemBlocks),
      if |ev.toolsOffered| > 0 then ev.toolsOffered else a.toolsOffered,
      SetIfEmpty(a.requestBlob, ev.requestBlob))
  }

  function Answer(a: Answered, ev: Event): (r: Answered)
    requires ev.kind == Response
    ensures r == RunAnswered(a, AnsweredEffectOf(ev))
  {
    Answered(
      SetIfNumber(a.statusCode, ev.statusCode),
      SetIfEmpty(a.stopReason, ev.stopReason),
      SetIfNumber(a.ttfbMS, ev.ttfbMS),
      if ev.usage.Some? then ev.usage.value else a.usage,
      SetIfEmpty(a.responseBlob, ev.responseBlob))
  }

  function ShareRequest(h: Shared, ev: Event): (r: Shared)
    requires ev.kind == Request
    ensures r == RunShared(h, SharedEffectOf(ev))
  {
    h.(startedAt := ev.timestamp, model := SetIfEmpty(h.model, ev.model))
  }

  function ShareResponse(h: Shared, ev: Event): (r: Shared)
    requires ev.kind == Response
    ensures r == RunShared(h, SharedEffectOf(ev))
  {
    Shared(
      SetIfZero(h.startedAt, ev.timestamp),
      SetIfName(h.model, ev.model),
      SetIfNumber(h.durationMS, ev.durationMS),
      h.error,
      false)
  }

  function ShareFailure(h: Shared, ev: Event): (r: Shared)
    requires ev.kind == Failure
    ensures r == RunShared(h, SharedEffectOf(ev))
  {
    Shared(SetIfZero(h.startedAt, ev.timestamp), h.model, ev.durationMS, ev.error, false)
  }

  /** What an event of one kind leaves alone. */
  lemma LeftAlone(f: Facts, ev: Event)
    ensures ev.kind != Request ==> RunAsked(f.asked, AskedEffectOf(ev)) == f.asked
    ensures ev.kind != Response ==> RunAnswered(f.answered, AnsweredEffectOf(ev)) == f.answered
    ensures ev.kind == Content ==> RunShared(f.shared, SharedEffectOf(ev)) == f.shared
  {
  }

  /** The turn under construction that `byTurn` points at; `applyEvent` updates it in place. */
  class Record {
    var labels: Labels
    var shared: Shared
    var asked: Asked
    var answered: Answered
    var toolCalls: seq<ToolCall>
    var contentBlobs: seq<string>
    var cost: int
    var priced: bool

    function Value(): Turn
      reads this
    {
      Turn(Facts(labels, shared, asked, answered), toolCalls, contentBlobs, cost, priced)
    }

    constructor (turnID: string)
      ensures Value() == BlankTurn(turnID)
    {
      labels := BLANK_FACTS.labels.(turnID := turnID);
      shared, asked, answered := BLANK_FACTS.shared, BLANK_FACTS.asked, BLANK_FACTS.answered;
      toolCalls, contentBlobs, cost, priced := [], [], 0, false;
    }

    method Price()
      modifies this
      ensures Value() == Priced(old(Value()))
    {
      var paid := Pricing.Cost(shared.model, answered.usage);
      if paid.Some? {
        cost, priced := paid.value, true;
      }
    }

    method ApplyEvent(ev: Event)
      modifies this
      ensures Value() == Apply(old(Value()), ev)
    {
      LeftAlone(Value().facts, ev);
      labels := Relabel(labels, ev);
      match ev.kind {
        case Request =>
          shared := ShareRequest(shared, ev);
          asked := Ask(asked, ev);
        case Response =>
          shared := ShareResponse(shared, ev);
          answered := Answer(answered, ev);
          toolCalls := MergeToolCalls(toolCalls, ev.toolCalls);
        case Content =>
          if ev.contentBlob != "" {
            contentBlobs := contentBlobs + [ev.contentBlob];
          }
        case Failure =>
          shared := ShareFailure(shared, ev);
      }
    }
  }

  // ---------------------------------------------------------------------------------------------
  // The fold over a stream
  // ---------------------------------------------------------------------------------------------

  function TurnKey(ev: Event): string {
    if ev.messageID != "" then "msg:" + ev.messageID else "turn:" + ev.turnID
  }

  predicate IsResult(ev: Event) {
    ev.kind == Content && ev.contentKind == ToolResult
  }

  /** `byTurn`, `order` and the tool results held back for the second pass. */
  datatype State = State(byTurn: map<string, Turn>, order: seq<string>, results: seq<Event>)

  const START := State(map[], [], [])

  function View(s: State, key: string): Turn {
    if key in s.byTurn then s.byTurn[key] else BLANK_TURN
  }

  function Step(s: State, ev: Event): State {
    if IsResult(ev) then s.(results := s.results + [ev])
    else
      var key := TurnKey(ev);
      State(
        s.byTurn[key := Apply(View(s, key), ev)],
        if key in s.byTurn then s.order else s.order + [key],
        s.results)
  }

  function FoldFrom(s: State, es: seq<Event>): State {
    if es == [] then s
    else Step(FoldFrom(s, es[..|es| - 1]), es[|es| - 1])
  }

  /** The turn, latest in first-appearance order, that made a call. The source fills its table of owners
      ranging over a map, so when two turns hold the same call id either may own it there; here it is the
      latest. With one turn to a call id, which is what the API issues, the order makes no difference. */
  function Owner(byTurn: map<string, Turn>, order: seq<string>, id: string): (o: Option<string>)
    requires forall k :: k in order ==> k in byTurn
    ensures o.Some? ==> o.value in byTurn && id != ""
  {
    if order == [] || id == "" then None
    else
      var k := order[|order| - 1];
      if exists i :: 0 <= i < |byTurn[k].toolCalls| && byTurn[k].toolCalls[i].id == id then Some(k)
      else Owner(byTurn, order[..|order| - 1], id)
  }

  function AddBlob(byTurn: map<string, Turn>, key: string, blob: string): map<string, Turn>
    requires key in byTurn
  {
    byTurn[key := byTurn[key].(contentBlobs := byTurn[key].contentBlobs + [blob])]
  }

  /** File each result under the turn that made the call; a result without one is dropped. Owners are
      decided before any result is filed. */
  function Attach(owners: map<string, Turn>, order: seq<string>, results: seq<Event>): (out: map<string, Turn>)
    requires forall k :: k in order ==> k in owners
    ensures out.Keys == owners.Keys
  {
    if results == [] then owners
    else
      var rest := Attach(owners, order, results[..|results| - 1]);
      var ev := results[|results| - 1];
      var owner := Owner(owners, order, ev.toolUseID);
      if owner.Some? && ev.contentBlob != "" then AddBlob(rest, owner.value, ev.contentBlob) else rest
  }

  function Priced(t: Turn): Turn {
    match Pricing.Cost(t.Model(), t.Usage())
    case None => t
    case Some(cost) => t.(cost := cost, priced := true)
  }

  function Collect(byTurn: map<string, Turn>, order: seq<string>): (out: seq<Turn>)
    requires forall k :: k in order ==> k in byTurn
    ensures |out| == |order|
    ensures forall i :: 0 <= i < |order| ==> out[i] == Priced(byTurn[order[i]])
  {
    if order == [] then []
    else Collect(byTurn, order[..|order| - 1]) + [Priced(byTurn[order[|order| - 1]])]
  }

  predicate StartsBefore(a: Turn, b: Turn) {
    a.StartedAt() < b.StartedAt()
  }

  ghost predicate WellOrdered(s: State) {
    && (forall k :: k in s.order <==> k in s.byTurn)
    && (forall i, j :: 0 <= i < j < |s.order| ==> s.order[i] != s.order[j])
  }

  lemma {:induction false} FoldKeepsOrder(s: State, es: seq<Event>)
    requires WellOrdered(s)
    ensures WellOrdered(FoldFrom(s, es))
  {
    if es != [] {
      FoldKeepsOrder(s, es[..|es| - 1]);
      var t := FoldFrom(s, es[..|es| - 1]);
      var ev := es[|es| - 1];
      var u := Step(t, ev);
      if !IsResult(ev) && TurnKey(ev) !in t.byTurn {
        assert u.order == t.order + [TurnKey(ev)];
      }
    }
  }

  function Finish(s: State): seq<Turn>
    requires WellOrdered(s)
  {
    Sorting.SortBy(Collect(Attach(s.byTurn, s.order, s.results), s.order), StartsBefore)
  }

  function TurnsOf(es: seq<Event>): seq<Turn> {
    FoldKeepsOrder(START, es);
    Finish(FoldFrom(START, es))
  }

  // ---------------------------------------------------------------------------------------------
  // The source's loops
  // ---------------------------------------------------------------------------------------------

  /** What the map of records stands for. */
  ghost function Values(byTurn: map<string, Record>): map<string, Turn>
    reads byTurn.Values
  {
    map k | k in byTurn :: byTurn[k].Value()
  }

  ghost predicate Separate(byTurn: map<string, Record>) {
    forall j, k :: j in byTurn && k in byTurn && j != k ==> byTurn[j] != byTurn[k]
  }

  /** Which keys' records an already filled part of `owner` points at. */
  ghost predicate Owns(owner: map<string, Record>, byTurn: map<string, Record>, was: map<string, Turn>,
          order: seq<string>)
    requires was.Keys == byTurn.Keys
    requires forall k :: k in order ==> k in byTurn
  {
    forall id ::
      match Owner(was, order, id)
      case None => id !in owner
      case Some(k) => id in owner && owner[id] == byTurn[k]
  }

  method OwnersOf(byTurn: map<string, Record>, order: seq<string>) returns (owner: map<string, Record>)
    requires forall k :: k in order ==> k in byTurn
    ensures Owns(owner, byTurn, Values(byTurn), order)
  {
    owner := map[];
    for n := 0 to |order|
      invariant Owns(owner, byTurn, Values(byTurn), order[..n])
    {
      var t := byTurn[order[n]];
      ghost var before := owner;
      assert order[..n + 1][..n] == order[..n];
      for c := 0 to |t.toolCalls|
        invariant forall id ::
          if id != "" && exists i :: 0 <= i < c && t.toolCalls[i].id == id
          then id in owner && owner[id] == t
          else if id in before then id in owner && owner[id] == before[id] else id !in owner
      {
        if t.toolCalls[c].id != "" {
          owner := owner[t.toolCalls[c].id := t];
        }
      }
    }
    assert order[..|order|] == order;
  }

  /** A turn takes one more reference; no other turn moves. */
  method AppendBlob(byTurn: map<string, Record>, ghost key: string, t: Record, blob: string)
    requires key in byTurn && byTurn[key] == t && Separate(byTurn)
    modifies t
    ensures Values(byTurn) == AddBlob(old(Values(byTurn)), key, blob)
  {
    t.contentBlobs := t.contentBlobs + [blob];
    assert forall k :: k in byTurn && k != key ==> byTurn[k].Value() == old(byTurn[k].Value());
  }

  method AttachResults(byTurn: map<string, Record>, order: seq<string>, results: seq<Event>)
    requires forall k :: k in order ==> k in byTurn
    requires Separate(byTurn)
    modifies byTurn.Values
    ensures Values(byTurn) == Attach(old(Values(byTurn)), order, results)
  {
    if |results| == 0 {
      return;
    }
    var owner := OwnersOf(byTurn, order);
    ghost var was := Values(byTurn);
    for r := 0 to |results|
      invariant Values(byTurn) == Attach(was, order, results[..r])
    {
      var ev := results[r];
      assert results[..r + 1][..r] == results[..r];
      ghost var k := Owner(was, order, ev.toolUseID);
      if ev.toolUseID in owner && ev.contentBlob != "" {
        AppendBlob(byTurn, k.value, owner[ev.toolUseID], ev.contentBlob);
      }
    }
    assert results[..|results|] == results;
  }

  lemma BlankTakesTurnID(ev: Event)
    ensures Apply(BlankTurn(ev.turnID), ev) == Apply(BLANK_TURN, ev)
  {
  }

  /** The turn an event belongs to, created if there is none. */
  method FindOrCreate(byTurn: map<string, Record>, order: seq<string>, ev: Event)
    returns (now: map<string, Record>, nowOrder: seq<string>, t: Record)
    requires Separate(byTurn)
    ensures Separate(now) && now == byTurn[TurnKey(ev) := t]
    ensures fresh(t) || (TurnKey(ev) in byTurn && byTurn[TurnKey(ev)] == t)
    ensures nowOrder == if TurnKey(ev) in byTurn then order else order + [TurnKey(ev)]
    ensures Apply(t.Value(), ev) == Apply(View(State(Values(byTurn), order, []), TurnKey(ev)), ev)
  {
    var key := TurnKey(ev);
    if key in byTurn {
      now, nowOrder, t := byTurn, order, byTurn[key];
    } else {
      t := new Record(ev.turnID);
      BlankTakesTurnID(ev);
      now, nowOrder := byTurn[key := t], order + [key];
    }
  }

  lemma OrdinaryStep(was: map<string, Turn>, order: seq<string>, ev: Event, t: Turn)
    requires !IsResult(ev) && t == Apply(View(State(was, order, []), TurnKey(ev)), ev)
    ensures Step(State(was, order, []), ev)
         == State(was[TurnKey(ev) := t], if TurnKey(ev) in was then order else order + [TurnKey(ev)], [])
  {
  }

  /** Only the one record was written. */
  lemma OneWritten(now: map<string, Record>, key: string, t: Record, was: map<string, Turn>)
    requires key in now && now[key] == t && now.Keys == was.Keys + {key}
    requires forall k :: k in now && k != key ==> now[k].Value() == was[k]
    ensures Values(now) == was[key := t.Value()]
  {
  }

  /** One ordinary event: find or create the turn, then apply. */
  method Observe(byTurn: map<string, Record>, order: seq<string>, ev: Event)
    returns (now: map<string, Record>, nowOrder: seq<string>)
    requires !IsResult(ev) && Separate(byTurn)
    modifies byTurn.Values
    ensures Separate(now)
    ensures State(Values(now), nowOrder, []) == Step(State(old(Values(byTurn)), order, []), ev)
    ensures forall k :: k in now ==> fresh(now[k]) || (k in byTurn && now[k] == byTurn[k])
  {
    ghost var was := Values(byTurn);
    var t;
    now, nowOrder, t := FindOrCreate(byTurn, order, ev);
    t.ApplyEvent(ev);
    OneWritten(now, TurnKey(ev), t, was);
    OrdinaryStep(was, order, ev, t.Value());
  }

  /** One event of any kind: a tool result is held back, every other goes to its turn. */
  method Take(byTurn: map<string, Record>, order: seq<string>, results: seq<Event>, ev: Event)
    returns (now: map<string, Record>, nowOrder: seq<string>, nowResults: seq<Event>)
    requires Separate(byTurn)
    modifies byTurn.Values
    ensures Separate(now)
    ensures State(Values(now), nowOrder, nowResults) == Step(State(old(Values(byTurn)), order, results), ev)
    ensures forall k :: k in now ==> fresh(now[k]) || (k in byTurn && now[k] == byTurn[k])
  {
    now, nowOrder, nowResults := byTurn, order, results;
    if IsResult(ev) {
      nowResults := results + [ev];
    } else {
      now, nowOrder := Observe(byTurn, order, ev);
    }
  }

  /** The pass over the events. */
  method FoldAll(events: seq<Event>)
    returns (byTurn: map<string, Record>, order: seq<string>, results: seq<Event>)
    ensures Separate(byTurn) && forall k :: k in byTurn ==> fresh(byTurn[k])
    ensures State(Values(byTurn), order, results) == FoldFrom(START, events)
  {
    byTurn, order, results := map[], [], [];
    for n := 0 to |events|
      invariant Separate(byTurn) && forall k :: k in byTurn ==> fresh(byTurn[k])
      invariant State(Values(byTurn), order, results) == FoldFrom(START, events[..n])
    {
      assert events[..n + 1][..n] == events[..n];
      byTurn, order, results := Take(byTurn, order, results, events[n]);
    }
    assert events[..|events|] == events;
  }

  method BuildTurns(events: seq<Event>) returns (turns: seq<Turn>)
    ensures turns == TurnsOf(events)
  {
    var byTurn, order, results := FoldAll(events);
    FoldKeepsOrder(START, events);
    AttachResults(byTurn, order, results);
    turns := PriceAll(byTurn, order);
    turns := Sorting.SortBy(turns, StartsBefore);
  }

  method PriceAll(byTurn: map<string, Record>, order: seq<string>) returns (turns: seq<Turn>)
    requires forall k :: k in order ==> k in byTurn
    requires forall i, j :: 0 <= i < j < |order| ==> order[i] != order[j]
    requires Separate(byTurn)
    modifies byTurn.Values
    ensures turns == Collect(old(Values(byTurn)), order)
  {
    turns := [];
    ghost var was := Values(byTurn);
    for n := 0 to |order|
      invariant turns == Collect(was, order[..n])
      invariant forall i :: n <= i < |order| ==> byTurn[order[i]].Value() == was[order[i]]
    {
      assert order[..n + 1][..n] == order[..n];
      var t := byTurn[order[n]];
      t.Price();
      turns := turns + [t.Value()];
    }
    assert order[..|order|] == order;
  }
}
