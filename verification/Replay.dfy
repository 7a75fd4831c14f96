/** Why resending is harmless: the fold of internal/query/query.go absorbs repeated observations.

    Three laws, each from an arbitrary fold state: a block folded twice in a row is the block folded
    once, exactly when no event of it carries something that is appended without being recognised; an
    observation seen before and again later may be dropped from the middle; and hence any reader that
    advances one event at a time and rewinds at will (a restarted tailer, a shipper that resends) ends
    in the state of a single pass. */
module Replay {
  import opened Events
  import opened Fold

  // ---------------------------------------------------------------------------------------------
  // Fields: operations compose, and every composite is idempotent
  // ---------------------------------------------------------------------------------------------

  function ThenLabels(a: LabelsEffect, b: LabelsEffect): LabelsEffect {
    LabelsEffect(
      Then(a.turnID, b.turnID, ""),
      Then(a.sessionID, b.sessionID, ""),
      Then(a.tenantID, b.tenantID, ""),
      Then(a.userID, b.userID, ""),
      Then(a.machineID, b.machineID, ""),
      Then(a.messageID, b.messageID, ""),
      Then(a.source, b.source, ""),
      Then(a.project, b.project, ""),
      Then(a.projectID, b.projectID, ""),
      Then(a.inRepo, b.inRepo, false),
      Then(a.gitBranch, b.gitBranch, ""),
      Then(a.effort, b.effort, ""),
      Then(a.subagent, b.subagent, false))
  }

  function ThenShared(a: SharedEffect, b: SharedEffect): SharedEffect {
    SharedEffect(
      Then(a.startedAt, b.startedAt, ZERO_TIME),
      Then(a.model, b.model, ""),
      Then(a.durationMS, b.durationMS, 0),
      Then(a.error, b.error, ""),
      Then(a.pending, b.pending, true))
  }

  function ThenAsked(a: AskedEffect, b: AskedEffect): AskedEffect {
    AskedEffect(
      Then(a.stream, b.stream, false),
      Then(a.messageCount, b.messageCount, 0),
      Then(a.systemBlocks, b.systemBlocks, 0),
      Then(a.toolsOffered, b.toolsOffered, []),
      Then(a.requestBlob, b.requestBlob, ""))
  }

  function ThenAnswered(a: AnsweredEffect, b: AnsweredEffect): AnsweredEffect {
    AnsweredEffect(
      Then(a.statusCode, b.statusCode, 0),
      Then(a.stopReason, b.stopReason, ""),
      Then(a.ttfbMS, b.ttfbMS, 0),
      Then(a.usage, b.usage, NO_USAGE),
      Then(a.responseBlob, b.responseBlob, ""))
  }

  function ThenAll(a: Effect, b: Effect): Effect {
    Effect(
      ThenLabels(a.labels, b.labels),
      ThenShared(a.shared, b.shared),
      ThenAsked(a.asked, b.asked),
      ThenAnswered(a.answered, b.answered))
  }

  lemma LabelsCompose(f: Labels, a: LabelsEffect, b: LabelsEffect)
    ensures RunLabels(RunLabels(f, a), b) == RunLabels(f, ThenLabels(a, b))
    ensures RunLabels(RunLabels(f, a), a) == RunLabels(f, a)
  {
  }

  lemma SharedCompose(f: Shared, a: SharedEffect, b: SharedEffect)
    ensures RunShared(RunShared(f, a), b) == RunShared(f, ThenShared(a, b))
    ensures RunShared(RunShared(f, a), a) == RunShared(f, a)
  {
  }

  lemma AskedCompose(f: Asked, a: AskedEffect, b: AskedEffect)
    ensures RunAsked(RunAsked(f, a), b) == RunAsked(f, ThenAsked(a, b))
    ensures RunAsked(RunAsked(f, a), a) == RunAsked(f, a)
  {
  }

  lemma AnsweredCompose(f: Answered, a: AnsweredEffect, b: AnsweredEffect)
    ensures RunAnswered(RunAnswered(f, a), b) == RunAnswered(f, ThenAnswered(a, b))
    ensures RunAnswered(RunAnswered(f, a), a) == RunAnswered(f, a)
  {
  }

  /** Composition, and idempotence of every composite. */
  lemma EffectsCompose(f: Facts, a: Effect, b: Effect)
    ensures RunAll(RunAll(f, a), b) == RunAll(f, ThenAll(a, b))
    ensures RunAll(RunAll(f, a), a) == RunAll(f, a)
  {
    LabelsCompose(f.labels, a.labels, b.labels);
    SharedCompose(f.shared, a.shared, b.shared);
    AskedCompose(f.asked, a.asked, b.asked);
    AnsweredCompose(f.answered, a.answered, b.answered);
  }

  // ---------------------------------------------------------------------------------------------
  // Tool calls: once observed, observing again changes nothing
  // ---------------------------------------------------------------------------------------------

  predicate Settled(calls: seq<ToolCall>, c: ToolCall) {
    var i := IndexOf(calls, c.id);
    c.id != "" && i < |calls| && (calls[i].name != "" || c.name == "")
  }

  predicate AllSettled(calls: seq<ToolCall>, cs: seq<ToolCall>) {
    forall c :: c in cs ==> Settled(calls, c)
  }

  lemma FirstIndex(calls: seq<ToolCall>, id: string, i: nat)
    requires i < |calls| && calls[i].id == id && forall j :: 0 <= j < i ==> calls[j].id != id
    ensures IndexOf(calls, id) == i
  {
  }

  lemma MergeCallSettles(calls: seq<ToolCall>, c: ToolCall, d: ToolCall)
    ensures c.id != "" ==> Settled(MergeCall(calls, c), c)
    ensures Settled(calls, d) ==> Settled(MergeCall(calls, c), d)
    ensures Settled(calls, c) ==> MergeCall(calls, c) == calls
  {
    var merged := MergeCall(calls, c);
    var i := IndexOf(calls, c.id);
    if c.id != "" {
      FirstIndex(merged, c.id, i);
    }
    if Settled(calls, d) {
      FirstIndex(merged, d.id, IndexOf(calls, d.id));
    }
  }

  lemma {:induction false} MergeCallsSettles(calls: seq<ToolCall>, cs: seq<ToolCall>, d: ToolCall)
    ensures d.id != "" && d in cs ==> Settled(MergeCalls(calls, cs), d)
    ensures Settled(calls, d) ==> Settled(MergeCalls(calls, cs), d)
    ensures AllSettled(calls, cs) ==> MergeCalls(calls, cs) == calls
    decreases |cs|
  {
    if cs != [] {
      var init, last := cs[..|cs| - 1], cs[|cs| - 1];
      MergeCallsSettles(calls, init, d);
      MergeCallSettles(MergeCalls(calls, init), last, d);
      assert last in cs;
    }
  }

  // ---------------------------------------------------------------------------------------------
  // One turn
  // ---------------------------------------------------------------------------------------------

  /** An event whose every contribution is recognised when seen again. */
  predicate Replayable(ev: Event) {
    && !IsResult(ev)
    && BlobsOf(ev) == []
    && forall c :: c in CallsOf(ev) ==> c.id != ""
  }

  predicate AllReplayable(es: seq<Event>) {
    forall ev :: ev in es ==> Replayable(ev)
  }

  function FoldTurn(t: Turn, es: seq<Event>): Turn {
    if es == [] then t else Apply(FoldTurn(t, es[..|es| - 1]), es[|es| - 1])
  }

  function Total(es: seq<Event>): Effect
    requires es != []
  {
    if |es| == 1 then EffectOf(es[0]) else ThenAll(Total(es[..|es| - 1]), EffectOf(es[|es| - 1]))
  }

  lemma {:induction false} FactsOfFold(t: Turn, es: seq<Event>)
    requires es != []
    ensures FoldTurn(t, es).facts == RunAll(t.facts, Total(es))
    decreases |es|
  {
    if |es| == 1 {
      assert es[..0] == [];
      assert FoldTurn(t, es[..0]) == t;
    } else {
      FactsOfFold(t, es[..|es| - 1]);
      EffectsCompose(t.facts, Total(es[..|es| - 1]), EffectOf(es[|es| - 1]));
    }
  }

  /** A call some event of the stream carried is settled afterwards, and stays so. */
  lemma {:induction false} FoldTurnSettles(t: Turn, es: seq<Event>, ev: Event, c: ToolCall)
    requires c.id != ""
    requires Settled(t.toolCalls, c) || (ev in es && c in CallsOf(ev))
    ensures Settled(FoldTurn(t, es).toolCalls, c)
    decreases |es|
  {
    if es != [] {
      var init, last := es[..|es| - 1], es[|es| - 1];
      MergeCallsSettles(FoldTurn(t, init).toolCalls, CallsOf(last), c);
      if Settled(t.toolCalls, c) || ev in init {
        FoldTurnSettles(t, init, ev, c);
      }
    }
  }

  /** What replayable events leave alone. */
  lemma {:induction false} FoldTurnKeeps(t: Turn, es: seq<Event>)
    requires AllReplayable(es)
    ensures var u := FoldTurn(t, es); u.contentBlobs == t.contentBlobs && u.cost == t.cost && u.priced == t.priced
    ensures (forall ev :: ev in es ==> AllSettled(t.toolCalls, CallsOf(ev))) ==>
        FoldTurn(t, es).toolCalls == t.toolCalls
    decreases |es|
  {
    if es != [] {
      var init, last := es[..|es| - 1], es[|es| - 1];
      FoldTurnKeeps(t, init);
      assert last in es;
      if forall ev :: ev in es ==> AllSettled(t.toolCalls, CallsOf(ev)) {
        MergeCallsSettles(t.toolCalls, CallsOf(last), ToolCall("", ""));
      }
    }
  }

  lemma FoldTurnTwice(t: Turn, es: seq<Event>)
    requires AllReplayable(es)
    ensures FoldTurn(FoldTurn(t, es), es) == FoldTurn(t, es)
  {
    if es != [] {
      var u := FoldTurn(t, es);
      FactsOfFold(t, es);
      FactsOfFold(u, es);
      EffectsCompose(t.facts, Total(es), Total(es));
      forall ev, c | ev in es && c in CallsOf(ev) ensures Settled(u.toolCalls, c) {
        FoldTurnSettles(t, es, ev, c);
      }
      FoldTurnKeeps(u, es);
    }
  }

  // ---------------------------------------------------------------------------------------------
  // One turn: the middle copy of an observation is redundant
  // ---------------------------------------------------------------------------------------------

  /** The part of an operation that overwrites. */
  function Overwrite<T>(op: Op<T>): Op<T> {
    if op.Set? then op else Keep
  }

  function OverwriteLabels(e: LabelsEffect): LabelsEffect {
    LabelsEffect(
      Overwrite(e.turnID), Overwrite(e.sessionID), Overwrite(e.tenantID), Overwrite(e.userID),
      Overwrite(e.machineID), Overwrite(e.messageID), Overwrite(e.source), Overwrite(e.project),
      Overwrite(e.projectID), Overwrite(e.inRepo), Overwrite(e.gitBranch), Overwrite(e.effort),
      Overwrite(e.subagent))
  }

  function OverwriteShared(e: SharedEffect): SharedEffect {
    SharedEffect(Overwrite(e.startedAt), Overwrite(e.model), Overwrite(e.durationMS), Overwrite(e.error),
                 Overwrite(e.pending))
  }

  function OverwriteAsked(e: AskedEffect): AskedEffect {
    AskedEffect(Overwrite(e.stream), Overwrite(e.messageCount), Overwrite(e.systemBlocks),
                Overwrite(e.toolsOffered), Overwrite(e.requestBlob))
  }

  function OverwriteAnswered(e: AnsweredEffect): AnsweredEffect {
    AnsweredEffect(Overwrite(e.statusCode), Overwrite(e.stopReason), Overwrite(e.ttfbMS), Overwrite(e.usage),
                   Overwrite(e.responseBlob))
  }

  function OverwriteAll(e: Effect): Effect {
    Effect(OverwriteLabels(e.labels), OverwriteShared(e.shared), OverwriteAsked(e.asked),
           OverwriteAnswered(e.answered))
  }

  /** Equal in every field that `e` does not overwrite. */
  predicate Alike(a: Facts, b: Facts, e: Effect) {
    RunAll(a, OverwriteAll(e)) == RunAll(b, OverwriteAll(e))
  }

  /** What `e` merely offers has already been taken into account. */
  predicate Absorbed(f: Facts, e: Effect) {
    Alike(RunAll(f, e), f, e)
  }

  lemma LabelsAlike(a: Labels, b: Labels, e: LabelsEffect, g: LabelsEffect)
    requires RunLabels(a, OverwriteLabels(e)) == RunLabels(b, OverwriteLabels(e))
    ensures RunLabels(RunLabels(a, g), OverwriteLabels(e)) == RunLabels(RunLabels(b, g), OverwriteLabels(e))
    ensures RunLabels(a, e) == RunLabels(b, e)
  {
  }

  lemma SharedAlike(a: Shared, b: Shared, e: SharedEffect, g: SharedEffect)
    requires RunShared(a, OverwriteShared(e)) == RunShared(b, OverwriteShared(e))
    ensures RunShared(RunShared(a, g), OverwriteShared(e)) == RunShared(RunShared(b, g), OverwriteShared(e))
    ensures RunShared(a, e) == RunShared(b, e)
  {
  }

  lemma AskedAlike(a: Asked, b: Asked, e: AskedEffect, g: AskedEffect)
    requires RunAsked(a, OverwriteAsked(e)) == RunAsked(b, OverwriteAsked(e))
    ensures RunAsked(RunAsked(a, g), OverwriteAsked(e)) == RunAsked(RunAsked(b, g), OverwriteAsked(e))
    ensures RunAsked(a, e) == RunAsked(b, e)
  {
  }

  lemma AnsweredAlike(a: Answered, b: Answered, e: AnsweredEffect, g: AnsweredEffect)
    requires RunAnswered(a, OverwriteAnswered(e)) == RunAnswered(b, OverwriteAnswered(e))
    ensures RunAnswered(RunAnswered(a, g), OverwriteAnswered(e)) == RunAnswered(RunAnswered(b, g), OverwriteAnswered(e))
    ensures RunAnswered(a, e) == RunAnswered(b, e)
  {
  }

  /** Likeness survives any further operation, and `e` itself turns it into equality. */
  lemma AlikeSteps(a: Facts, b: Facts, e: Effect, g: Effect)
    requires Alike(a, b, e)
    ensures Alike(RunAll(a, g), RunAll(b, g), e)
    ensures RunAll(a, e) == RunAll(b, e)
  {
    LabelsAlike(a.labels, b.labels, e.labels, g.labels);
    SharedAlike(a.shared, b.shared, e.shared, g.shared);
    AskedAlike(a.asked, b.asked, e.asked, g.asked);
    AnsweredAlike(a.answered, b.answered, e.answered, g.answered);
  }

  /** An event with a usable timestamp; without one a request would blank `startedAt`. */
  predicate Dated(ev: Event) {
    ev.timestamp != ZERO_TIME
  }

  lemma LabelsAbsorbedStays(f: Labels, ev: Event, g: Event)
    requires RunLabels(RunLabels(f, LabelsEffectOf(ev)), OverwriteLabels(LabelsEffectOf(ev)))
          == RunLabels(f, OverwriteLabels(LabelsEffectOf(ev)))
    ensures var h := RunLabels(f, LabelsEffectOf(g));
            RunLabels(RunLabels(h, LabelsEffectOf(ev)), OverwriteLabels(LabelsEffectOf(ev)))
            == RunLabels(h, OverwriteLabels(LabelsEffectOf(ev)))
  {
  }

  lemma SharedAbsorbedStays(f: Shared, ev: Event, g: Event)
    requires Dated(g)
    requires RunShared(RunShared(f, SharedEffectOf(ev)), OverwriteShared(SharedEffectOf(ev)))
          == RunShared(f, OverwriteShared(SharedEffectOf(ev)))
    ensures var h := RunShared(f, SharedEffectOf(g));
            RunShared(RunShared(h, SharedEffectOf(ev)), OverwriteShared(SharedEffectOf(ev)))
            == RunShared(h, OverwriteShared(SharedEffectOf(ev)))
  {
  }

  lemma AskedAbsorbedStays(f: Asked, ev: Event, g: Event)
    requires RunAsked(RunAsked(f, AskedEffectOf(ev)), OverwriteAsked(AskedEffectOf(ev)))
          == RunAsked(f, OverwriteAsked(AskedEffectOf(ev)))
    ensures var h := RunAsked(f, AskedEffectOf(g));
            RunAsked(RunAsked(h, AskedEffectOf(ev)), OverwriteAsked(AskedEffectOf(ev)))
            == RunAsked(h, OverwriteAsked(AskedEffectOf(ev)))
  {
  }

  lemma AnsweredAbsorbedStays(f: Answered, ev: Event, g: Event)
    requires RunAnswered(RunAnswered(f, AnsweredEffectOf(ev)), OverwriteAnswered(AnsweredEffectOf(ev)))
          == RunAnswered(f, OverwriteAnswered(AnsweredEffectOf(ev)))
    ensures var h := RunAnswered(f, AnsweredEffectOf(g));
            RunAnswered(RunAnswered(h, AnsweredEffectOf(ev)), OverwriteAnswered(AnsweredEffectOf(ev)))
            == RunAnswered(h, OverwriteAnswered(AnsweredEffectOf(ev)))
  {
  }

  lemma AbsorbedStays(f: Facts, ev: Event, g: Event)
    requires Absorbed(f, EffectOf(ev)) && Dated(g)
    ensures Absorbed(RunAll(f, EffectOf(g)), EffectOf(ev))
  {
    LabelsAbsorbedStays(f.labels, ev, g);
    SharedAbsorbedStays(f.shared, ev, g);
    AskedAbsorbedStays(f.asked, ev, g);
    AnsweredAbsorbedStays(f.answered, ev, g);
  }

  lemma {:induction false} AbsorbedAfter(t: Turn, es: seq<Event>, ev: Event)
    requires ev in es && forall g :: g in es ==> Dated(g)
    ensures Absorbed(FoldTurn(t, es).facts, EffectOf(ev))
    decreases |es|
  {
    var init, last := es[..|es| - 1], es[|es| - 1];
    var f := FoldTurn(t, init).facts;
    if ev in init {
      AbsorbedAfter(t, init, ev);
      AbsorbedStays(f, ev, last);
    } else {
      EffectsCompose(f, EffectOf(ev), EffectOf(ev));
    }
  }

  /** Two turns alike up to `ev` become one as soon as the stream observes `ev`. */
  lemma {:induction false} AlikeMeet(a: Turn, b: Turn, es: seq<Event>, ev: Event)
    requires Alike(a.facts, b.facts, EffectOf(ev)) && a == b.(facts := a.facts)
    ensures Alike(FoldTurn(a, es).facts, FoldTurn(b, es).facts, EffectOf(ev))
    ensures FoldTurn(a, es) == FoldTurn(b, es).(facts := FoldTurn(a, es).facts)
    ensures ev in es ==> FoldTurn(a, es) == FoldTurn(b, es)
    decreases |es|
  {
    if es != [] {
      var init, last := es[..|es| - 1], es[|es| - 1];
      AlikeMeet(a, b, init, ev);
      AlikeSteps(FoldTurn(a, init).facts, FoldTurn(b, init).facts, EffectOf(ev), EffectOf(last));
    }
  }

  lemma FoldTurnMiddle(t: Turn, before: seq<Event>, ev: Event, after: seq<Event>)
    requires ev in before && ev in after && Replayable(ev)
    requires forall g :: g in before ==> Dated(g)
    ensures FoldTurn(Apply(FoldTurn(t, before), ev), after) == FoldTurn(FoldTurn(t, before), after)
  {
    var u := FoldTurn(t, before);
    AbsorbedAfter(t, before, ev);
    forall c | c in CallsOf(ev) ensures Settled(u.toolCalls, c) {
      FoldTurnSettles(t, before, ev, c);
    }
    MergeCallsSettles(u.toolCalls, CallsOf(ev), ToolCall("", ""));
    AlikeMeet(Apply(u, ev), u, after, ev);
  }

  // ---------------------------------------------------------------------------------------------
  // From one turn to the whole fold state
  // ---------------------------------------------------------------------------------------------

  /** The events of a stream that one turn is built from. */
  function Only(es: seq<Event>, key: string): seq<Event> {
    if es == [] then []
    else
      var last := es[|es| - 1];
      Only(es[..|es| - 1], key) + if !IsResult(last) && TurnKey(last) == key then [last] else []
  }

  lemma {:induction false} OnlyIn(es: seq<Event>, key: string, ev: Event)
    ensures ev in Only(es, key) <==> ev in es && !IsResult(ev) && TurnKey(ev) == key
  {
    if es != [] {
      OnlyIn(es[..|es| - 1], key, ev);
    }
  }

  lemma {:induction false} FoldConcat(s: State, a: seq<Event>, b: seq<Event>)
    ensures FoldFrom(s, a + b) == FoldFrom(FoldFrom(s, a), b)
    decreases |b|
  {
    if b == [] {
      assert a + b == a;
    } else {
      assert (a + b)[..|a + b| - 1] == a + b[..|b| - 1];
      FoldConcat(s, a, b[..|b| - 1]);
    }
  }

  /** Turn by turn, the fold of a stream is the fold of that turn's own events. */
  lemma {:induction false} FoldView(s: State, es: seq<Event>, key: string)
    ensures View(FoldFrom(s, es), key) == FoldTurn(View(s, key), Only(es, key))
    ensures key in FoldFrom(s, es).byTurn <==> key in s.byTurn || Only(es, key) != []
    decreases |es|
  {
    if es != [] {
      var init, last := es[..|es| - 1], es[|es| - 1];
      FoldView(s, init, key);
      var own := Only(init, key);
      if !IsResult(last) && TurnKey(last) == key {
        assert (own + [last])[..|own|] == own;
      } else {
        assert own + [] == own;
      }
    }
  }

  /** Folding events of known turns leaves the order alone, and ordinary events leave the results alone. */
  lemma {:induction false} FoldKeepsKnown(s: State, es: seq<Event>)
    requires forall ev :: ev in es ==> !IsResult(ev)
    ensures FoldFrom(s, es).results == s.results
    ensures (forall ev :: ev in es ==> TurnKey(ev) in s.byTurn) ==> FoldFrom(s, es).order == s.order
    ensures forall k :: k in s.byTurn ==> k in FoldFrom(s, es).byTurn
    decreases |es|
  {
    if es != [] {
      FoldKeepsKnown(s, es[..|es| - 1]);
      assert es[|es| - 1] in es;
    }
  }

  lemma SameState(s: State, t: State)
    requires forall k: string :: k in s.byTurn <==> k in t.byTurn
    requires forall k: string :: View(s, k) == View(t, k)
    requires s.order == t.order && s.results == t.results
    ensures s == t
  {
    assert forall k :: k in s.byTurn ==> s.byTurn[k] == View(s, k) && t.byTurn[k] == View(t, k);
    assert s.byTurn == t.byTurn;
  }

  /** A block folded twice in a row is the block folded once. */
  lemma FoldTwice(s: State, es: seq<Event>)
    requires AllReplayable(es)
    ensures FoldFrom(FoldFrom(s, es), es) == FoldFrom(s, es)
  {
    var t := FoldFrom(s, es);
    var u := FoldFrom(t, es);
    forall k: string
      ensures View(u, k) == View(t, k) && (k in u.byTurn <==> k in t.byTurn)
    {
      FoldView(s, es, k);
      FoldView(t, es, k);
      forall ev | ev in Only(es, k) ensures Replayable(ev) {
        OnlyIn(es, k, ev);
      }
      FoldTurnTwice(View(s, k), Only(es, k));
    }
    forall ev | ev in es ensures TurnKey(ev) in t.byTurn {
      FoldView(s, es, TurnKey(ev));
      OnlyIn(es, TurnKey(ev), ev);
    }
    FoldKeepsKnown(t, es);
    SameState(u, t);
  }

  lemma MiddleView(s: State, before: seq<Event>, ev: Event, after: seq<Event>, k: string)
    requires ev in before && ev in after
    requires AllReplayable(before) && forall g :: g in before ==> Dated(g)
    ensures var t := FoldFrom(s, before);
            View(FoldFrom(Step(t, ev), after), k) == View(FoldFrom(t, after), k)
  {
    var t := FoldFrom(s, before);
    FoldView(s, before, k);
    FoldView(Step(t, ev), after, k);
    FoldView(t, after, k);
    if k == TurnKey(ev) {
      OnlyIn(before, k, ev);
      OnlyIn(after, k, ev);
      forall g | g in Only(before, k) ensures Dated(g) {
        OnlyIn(before, k, g);
      }
      FoldTurnMiddle(View(s, k), Only(before, k), ev, Only(after, k));
    }
  }

  /** An observation made before and made again later adds nothing in between. */
  lemma FoldMiddle(s: State, before: seq<Event>, ev: Event, after: seq<Event>)
    requires ev in before && ev in after
    requires AllReplayable(before) && forall g :: g in before ==> Dated(g)
    ensures FoldFrom(s, before + [ev] + after) == FoldFrom(s, before + after)
  {
    var t := FoldFrom(s, before);
    var u := Step(t, ev);
    FoldConcat(s, before + [ev], after);
    FoldConcat(s, before, after);
    assert (before + [ev])[..|before|] == before;
    FoldView(s, before, TurnKey(ev));
    OnlyIn(before, TurnKey(ev), ev);
    FoldLockstep(u, t, after);
    var v, w := FoldFrom(u, after), FoldFrom(t, after);
    forall k: string ensures View(v, k) == View(w, k) {
      MiddleView(s, before, ev, after, k);
    }
    SameState(v, w);
  }

  /** The order and the results depend on which turns exist, not on what they hold. */
  lemma {:induction false} FoldLockstep(s: State, t: State, es: seq<Event>)
    requires s.byTurn.Keys == t.byTurn.Keys && s.order == t.order && s.results == t.results
    ensures var u, v := FoldFrom(s, es), FoldFrom(t, es);
            u.byTurn.Keys == v.byTurn.Keys && u.order == v.order && u.results == v.results
    decreases |es|
  {
    if es != [] {
      FoldLockstep(s, t, es[..|es| - 1]);
    }
  }

  // ---------------------------------------------------------------------------------------------
  // Exactly which blocks may be resent
  // ---------------------------------------------------------------------------------------------

  /** Everything a fold state holds that only ever grows. */
  function Weight(s: State, key: string): nat {
    |s.results| + |View(s, key).toolCalls| + |View(s, key).contentBlobs|
  }

  lemma {:induction false} MergeCallsGrows(calls: seq<ToolCall>, cs: seq<ToolCall>)
    ensures |MergeCalls(calls, cs)| >= |calls|
    ensures (exists c :: c in cs && c.id == "") ==> |MergeCalls(calls, cs)| > |calls|
    decreases |cs|
  {
    if cs != [] {
      MergeCallsGrows(calls, cs[..|cs| - 1]);
    }
  }

  lemma {:induction false} WeightGrows(s: State, es: seq<Event>, bad: Event)
    ensures Weight(FoldFrom(s, es), TurnKey(bad)) >= Weight(s, TurnKey(bad))
    ensures bad in es && !Replayable(bad) ==> Weight(FoldFrom(s, es), TurnKey(bad)) > Weight(s, TurnKey(bad))
    decreases |es|
  {
    if es != [] {
      var init, last := es[..|es| - 1], es[|es| - 1];
      WeightGrows(s, init, bad);
      MergeCallsGrows(View(FoldFrom(s, init), TurnKey(last)).toolCalls, CallsOf(last));
    }
  }

  /** From any state, folding a block a second time changes nothing if and only if every event of the
      block is replayable: no captured content, no tool result and no tool call without an id. */
  lemma ResendIsHarmlessIff(s: State, es: seq<Event>)
    ensures FoldFrom(s, es + es) == FoldFrom(s, es) <==> AllReplayable(es)
  {
    FoldConcat(s, es, es);
    if AllReplayable(es) {
      FoldTwice(s, es);
    } else {
      var bad :| bad in es && !Replayable(bad);
      WeightGrows(FoldFrom(s, es), es, bad);
    }
  }

  /** A repeated block anywhere inside a stream. */
  lemma FoldTwiceInside(s: State, before: seq<Event>, block: seq<Event>, rest: seq<Event>)
    requires AllReplayable(block)
    ensures FoldFrom(s, before + (block + (block + rest))) == FoldFrom(s, before + (block + rest))
  {
    var p := FoldFrom(s, before);
    FoldConcat(s, before, block + (block + rest));
    FoldConcat(s, before, block + rest);
    FoldConcat(p, block, block + rest);
    FoldConcat(FoldFrom(p, block), block, rest);
    FoldConcat(p, block, rest);
    FoldTwice(p, block);
  }

  /** An attempt that stopped somewhere, followed by the whole. */
  lemma AttemptIsAbsorbed(s: State, q: seq<Event>, es: seq<Event>)
    requires AllReplayable(q) && q <= es
    ensures FoldFrom(FoldFrom(s, q), es) == FoldFrom(s, es)
  {
    var rest := es[|q|..];
    assert es == q + rest;
    FoldConcat(FoldFrom(s, q), q, rest);
    FoldConcat(s, q, rest);
    FoldTwice(s, q);
  }

  lemma {:induction false} AttemptsAreAbsorbed(s: State, attempts: seq<seq<Event>>, es: seq<Event>)
    requires AllReplayable(es)
    requires forall i :: 0 <= i < |attempts| ==> attempts[i] <= es
    ensures FoldFrom(FoldFrom(s, Concat(attempts)), es) == FoldFrom(s, es)
    decreases |attempts|
  {
    if attempts != [] {
      var init, q := attempts[..|attempts| - 1], attempts[|attempts| - 1];
      AttemptsAreAbsorbed(s, init, es);
      FoldConcat(s, Concat(init), q);
      AttemptIsAbsorbed(FoldFrom(s, Concat(init)), q, es);
    }
  }

  /** Any number of abandoned attempts, each a prefix of what is finally folded in full. */
  lemma AbandonedAttemptsAreAbsorbed(s: State, attempts: seq<seq<Event>>, es: seq<Event>)
    requires AllReplayable(es)
    requires forall i :: 0 <= i < |attempts| ==> attempts[i] <= es
    ensures FoldFrom(s, Concat(attempts) + es) == FoldFrom(s, es)
  {
    FoldConcat(s, Concat(attempts), es);
    AttemptsAreAbsorbed(s, attempts, es);
  }

  function Concat<T>(parts: seq<seq<T>>): seq<T> {
    if parts == [] then [] else Concat(parts[..|parts| - 1]) + parts[|parts| - 1]
  }

  // ---------------------------------------------------------------------------------------------
  // Readers that rewind
  // ---------------------------------------------------------------------------------------------

  /** A reader emits the next event, or goes back to an earlier position. */
  datatype Move = Emit | Rewind(to: nat)

  /** What has been emitted, where the reader stands, and how far it has ever been. */
  datatype Tape = Tape(emitted: seq<Event>, position: nat, reached: nat)

  const FRESH_TAPE := Tape([], 0, 0)

  function Advance(log: seq<Event>, t: Tape, m: Move): Tape {
    match m
    case Emit =>
      if t.position < |log| then
        Tape(t.emitted + [log[t.position]], t.position + 1,
             if t.position + 1 > t.reached then t.position + 1 else t.reached)
      else t
    case Rewind(to) => if to <= t.position then t.(position := to) else t
  }

  function Travel(log: seq<Event>, t: Tape, moves: seq<Move>): Tape {
    if moves == [] then t else Advance(log, Travel(log, t, moves[..|moves| - 1]), moves[|moves| - 1])
  }

  /** Resuming from `j` and catching up yields the single pass, whatever follows. */
  predicate Recovers(s: State, log: seq<Event>, t: Tape, j: nat, rest: seq<Event>)
    requires j <= t.reached <= |log|
  {
    FoldFrom(s, t.emitted + (log[j..t.reached] + rest)) == FoldFrom(s, log[..t.reached] + rest)
  }

  ghost predicate CatchesUp(s: State, log: seq<Event>, t: Tape) {
    && t.position <= t.reached <= |log|
    && (forall ev :: ev in t.emitted <==> ev in log[..t.reached])
    && (forall j: nat, rest: seq<Event> :: j <= t.position ==> Recovers(s, log, t, j, rest))
  }

  lemma ReemitRecovers(s: State, log: seq<Event>, t: Tape, j: nat, rest: seq<Event>)
    requires AllReplayable(log) && forall ev :: ev in log ==> Dated(ev)
    requires CatchesUp(s, log, t) && t.position < t.reached && j <= t.position + 1
    ensures Recovers(s, log, Advance(log, t, Emit), j, rest)
  {
    var e := log[t.position];
    var tail := log[j..t.reached];
    if j == t.position + 1 {
      assert t.emitted + [e] + (tail + rest) == t.emitted + (log[t.position..t.reached] + rest);
      assert Recovers(s, log, t, t.position, rest);
    } else {
      assert e == log[..t.reached][t.position];
      assert e == tail[t.position - j];
      FoldMiddle(s, t.emitted, e, tail + rest);
      assert Recovers(s, log, t, j, rest);
    }
  }

  lemma Reassociate<T>(a: seq<T>, b: seq<T>, c: seq<T>)
    ensures a + (b + c) == (a + b) + c
  {
  }

  /** A new event, then once more the block that ends with it. */
  lemma BlockAgain(s: State, emitted: seq<Event>, before: seq<Event>, e: seq<Event>, pre: seq<Event>,
          block: seq<Event>, rest: seq<Event>)
    requires AllReplayable(block) && before + e == pre + block
    requires FoldFrom(s, emitted + (e + (block + rest))) == FoldFrom(s, before + (e + (block + rest)))
    ensures FoldFrom(s, (emitted + e) + (block + rest)) == FoldFrom(s, (pre + block) + rest)
  {
    Reassociate(emitted, e, block + rest);
    Reassociate(before, e, block + rest);
    Reassociate(pre, block, block + rest);
    Reassociate(pre, block, rest);
    FoldTwiceInside(s, pre, block, rest);
  }

  lemma Slices(log: seq<Event>, h: nat, j: nat)
    requires j <= h + 1 <= |log|
    ensures log[..h] + [log[h]] == log[..h + 1] == log[..j] + log[j..h + 1] && log[h..h] == []
    ensures AllReplayable(log) ==> AllReplayable(log[j..h + 1])
  {
  }

  /** From what holds of one continuation to what holds of another. */
  lemma EmitNewOne(s: State, log: seq<Event>, emitted: seq<Event>, h: nat, j: nat, rest: seq<Event>)
    requires AllReplayable(log) && h < |log| && j <= h + 1
    requires var more := [log[h]] + (log[j..h + 1] + rest);
             FoldFrom(s, emitted + (log[h..h] + more)) == FoldFrom(s, log[..h] + more)
    ensures FoldFrom(s, (emitted + [log[h]]) + (log[j..h + 1] + rest)) == FoldFrom(s, log[..h + 1] + rest)
  {
    var e, block := [log[h]], log[j..h + 1];
    Slices(log, h, j);
    assert [] + (e + (block + rest)) == e + (block + rest);
    BlockAgain(s, emitted, log[..h], e, log[..j], block, rest);
  }

  lemma EmitNewRecovers(s: State, log: seq<Event>, t: Tape, j: nat, rest: seq<Event>)
    requires AllReplayable(log)
    requires CatchesUp(s, log, t) && t.position == t.reached < |log| && j <= t.position + 1
    ensures Recovers(s, log, Advance(log, t, Emit), j, rest)
  {
    assert Recovers(s, log, t, t.reached, [log[t.reached]] + (log[j..t.reached + 1] + rest));
    EmitNewOne(s, log, t.emitted, t.reached, j, rest);
  }

  lemma AdvanceCatchesUp(s: State, log: seq<Event>, t: Tape, m: Move)
    requires AllReplayable(log) && forall ev :: ev in log ==> Dated(ev)
    requires CatchesUp(s, log, t)
    ensures CatchesUp(s, log, Advance(log, t, m))
  {
    var u := Advance(log, t, m);
    if m == Emit && t.position < |log| {
      var e := log[t.position];
      if t.position < t.reached {
        assert e == log[..t.reached][t.position];
      } else {
        assert log[..u.reached] == log[..t.reached] + [e];
      }
      forall j: nat, rest: seq<Event> | j <= u.position ensures Recovers(s, log, u, j, rest) {
        if t.position < t.reached {
          ReemitRecovers(s, log, t, j, rest);
        } else {
          EmitNewRecovers(s, log, t, j, rest);
        }
      }
    } else {
      forall j: nat, rest: seq<Event> | j <= u.position ensures Recovers(s, log, u, j, rest) {
        assert Recovers(s, log, t, j, rest);
      }
    }
  }

  lemma FreshTapeCatchesUp(s: State, log: seq<Event>)
    ensures CatchesUp(s, log, FRESH_TAPE)
  {
    forall rest: seq<Event> ensures Recovers(s, log, FRESH_TAPE, 0, rest) {
      assert FRESH_TAPE.emitted + (log[0..0] + rest) == log[..0] + rest;
    }
  }

  lemma {:induction false} TravelCatchesUp(s: State, log: seq<Event>, moves: seq<Move>)
    requires AllReplayable(log) && forall ev :: ev in log ==> Dated(ev)
    ensures CatchesUp(s, log, Travel(log, FRESH_TAPE, moves))
    decreases |moves|
  {
    if moves == [] {
      FreshTapeCatchesUp(s, log);
    } else {
      TravelCatchesUp(s, log, moves[..|moves| - 1]);
      AdvanceCatchesUp(s, log, Travel(log, FRESH_TAPE, moves[..|moves| - 1]), moves[|moves| - 1]);
    }
  }

  /** Folding what is still owed completes the single pass. */
  lemma CaughtUp(s: State, log: seq<Event>, t: Tape)
    requires CatchesUp(s, log, t)
    ensures FoldFrom(s, t.emitted + log[t.position..]) == FoldFrom(s, log)
  {
    var rest := log[t.reached..];
    assert Recovers(s, log, t, t.position, rest);
    assert log[t.position..] == log[t.position..t.reached] + rest;
    assert log == log[..t.reached] + rest;
  }

  /** At-least-once reading folds like exactly-once reading: however often and however far the reader
      rewinds, once what it still owes is folded too, the state is that of one pass. */
  lemma RewindingReaderFoldsOnce(s: State, log: seq<Event>, moves: seq<Move>)
    requires AllReplayable(log) && forall ev :: ev in log ==> Dated(ev)
    ensures var t := Travel(log, FRESH_TAPE, moves);
            t.position <= |log| && FoldFrom(s, t.emitted + log[t.position..]) == FoldFrom(s, log)
  {
    TravelCatchesUp(s, log, moves);
    CaughtUp(s, log, Travel(log, FRESH_TAPE, moves));
  }
}
