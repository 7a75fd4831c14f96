/** Rolling turns up into sessions (SessionsFromTurns and summarize in internal/query/query.go), and the
    narrow rows a listing reads (internal/compact/sessions.go). The fields kept here are those that do not
    depend on the order in which a session's turns are met. */
module Sessions {
  import opened Events
  import opened Fold
  import opened Rollup
  import Aggregates
  import Sorting

  datatype Session = Session(
    id: string,
    turns: nat,
    startedAt: Option<Instant>,
    endedAt: Instant,
    input: int,
    output: int,
    write: int,
    cacheRead: int,
    cost: int,
    unpriced: int,
    errors: int,
    toolCalls: nat,
    models: set<string>,
    toolNames: set<string>)

  function NewSession(id: string): Session {
    Session(id, 0, None, ZERO_TIME, 0, 0, 0, 0, 0, 0, 0, 0, {}, {})
  }

  function Earlier(a: Option<Instant>, b: Instant): Option<Instant> {
    if a.None? || b < a.value then Some(b) else a
  }

  function Later(a: Instant, b: Instant): Instant {
    if b > a then b else a
  }

  function EndOf(t: Turn): Instant {
    t.StartedAt() + t.facts.shared.durationMS
  }

  function Names(calls: seq<ToolCall>): set<string> {
    set c | c in calls :: c.name
  }

  function AddTurn(s: Session, t: Turn): Session {
    var u := t.Usage();
    Session(
      s.id, s.turns + 1, Earlier(s.startedAt, t.StartedAt()), Later(s.endedAt, EndOf(t)),
      s.input + u.input, s.output + u.output, s.write + u.cacheWrite, s.cacheRead + u.cacheRead,
      s.cost + t.cost, s.unpriced + One(Unpriced(t)), s.errors + One(Failed(t)), s.toolCalls + |t.toolCalls|,
      if t.Model() != "" then s.models + {t.Model()} else s.models,
      s.toolNames + Names(t.toolCalls))
  }

  function Sum(s: Session, turns: seq<Turn>): Session {
    if turns == [] then s else AddTurn(Sum(s, turns[..|turns| - 1]), turns[|turns| - 1])
  }

  function Summary(id: string, turns: seq<Turn>): Session {
    Sum(NewSession(id), turns)
  }

  method Summarize(id: string, turns: seq<Turn>) returns (s: Session)
    ensures s == Summary(id, turns)
  {
    s := NewSession(id);
    for i := 0 to |turns|
      invariant s == Sum(NewSession(id), turns[..i])
    {
      assert turns[..i + 1][..i] == turns[..i];
      var t := turns[i];
      var start, ended := s.startedAt, s.endedAt;
      if i == 0 || start.None? || t.StartedAt() < start.value {
        start := Some(t.StartedAt());
      }
      if EndOf(t) > ended {
        ended := EndOf(t);
      }
      s := AddTurn(s, t).(startedAt := Earlier(s.startedAt, t.StartedAt()), endedAt := ended);
    }
    assert turns[..|turns|] == turns;
  }

  // ---------------------------------------------------------------------------------------------
  // In any order
  // ---------------------------------------------------------------------------------------------

  lemma AddTurnsCommute(s: Session, a: Turn, b: Turn)
    ensures AddTurn(AddTurn(s, a), b) == AddTurn(AddTurn(s, b), a)
  {
  }

  lemma {:induction false} SumConcat(s: Session, a: seq<Turn>, b: seq<Turn>)
    ensures Sum(s, a + b) == Sum(Sum(s, a), b)
    decreases |b|
  {
    if b == [] {
      assert a + b == a;
    } else {
      assert (a + b)[..|a + b| - 1] == a + b[..|b| - 1];
      SumConcat(s, a, b[..|b| - 1]);
    }
  }

  lemma {:induction false} SumFirst(s: Session, t: Turn, rest: seq<Turn>)
    ensures Sum(AddTurn(s, t), rest) == AddTurn(Sum(s, rest), t)
    decreases |rest|
  {
    if rest != [] {
      var init, last := rest[..|rest| - 1], rest[|rest| - 1];
      SumFirst(s, t, init);
      AddTurnsCommute(Sum(s, init), t, last);
    }
  }

  lemma {:induction false} SumsSwap(s: Session, a: seq<Turn>, b: seq<Turn>)
    ensures Sum(Sum(s, a), b) == Sum(Sum(s, b), a)
    decreases |b|
  {
    if b != [] {
      var init, last := b[..|b| - 1], b[|b| - 1];
      SumsSwap(s, a, init);
      SumFirst(Sum(s, init), last, a);
    }
  }

  /** Two stretches may be met in either order. */
  lemma SumSwaps(s: Session, a: seq<Turn>, b: seq<Turn>)
    ensures Sum(s, a + b) == Sum(s, b + a)
  {
    SumConcat(s, a, b);
    SumConcat(s, b, a);
    SumsSwap(s, a, b);
  }

  // ---------------------------------------------------------------------------------------------
  // From narrow rows
  // ---------------------------------------------------------------------------------------------

  /** The columns a session row reads; every other field of the turn stays empty. */
  function Narrow(r: TurnRow): Turn {
    Turn(
      Facts(
        BLANK_FACTS.labels.(sessionID := r.sessionID, identity := Identity(r.identity.tenantID, r.identity.userID, ""),
                            project := r.project, projectID := r.projectID, gitBranch := r.gitBranch),
        Shared(r.ts + UNIX_EPOCH, r.model, r.durationMS, r.error, false),
        BLANK_FACTS.asked,
        Answered(r.statusCode, "", 0, UsageOfRow(r), "")),
      Sorting.Map(Nameless, r.toolCalls), [], r.cost, r.priced)
  }

  /** A turn as it was folded, or as it comes back from a narrow row. */
  predicate StandsNarrow(t: Turn, original: Turn) {
    t == original || t == Narrow(ToRow(original))
  }

  lemma NamesOfRow(t: Turn)
    ensures Names(Narrow(ToRow(t)).toolCalls) == Names(t.toolCalls)
    ensures |Narrow(ToRow(t)).toolCalls| == |t.toolCalls|
  {
    var calls := Narrow(ToRow(t)).toolCalls;
    assert forall i :: 0 <= i < |calls| ==> calls[i].name == t.toolCalls[i].name;
    forall n ensures n in Names(calls) <==> n in Names(t.toolCalls) {
      if n in Names(calls) {
        var i :| 0 <= i < |calls| && calls[i].name == n;
        assert t.toolCalls[i] in t.toolCalls;
      }
      if n in Names(t.toolCalls) {
        var i :| 0 <= i < |t.toolCalls| && t.toolCalls[i].name == n;
        assert calls[i] in calls;
      }
    }
  }

  /** The narrow projection leaves a session's summary as the full turns give it. */
  lemma NarrowSumsTheSame(s: Session, t: Turn, original: Turn)
    requires StandsNarrow(t, original) && Aggregates.Plain(original)
    ensures AddTurn(s, t) == AddTurn(s, original)
    ensures t.SessionID() == original.SessionID() && t.StartedAt() == original.StartedAt()
  {
    NamesOfRow(original);
  }

  predicate AllStandNarrow(ts: seq<Turn>, originals: seq<Turn>) {
    |ts| == |originals| && forall i :: 0 <= i < |ts| ==> StandsNarrow(ts[i], originals[i])
  }

  lemma {:induction false} NarrowSummary(s: Session, ts: seq<Turn>, originals: seq<Turn>)
    requires AllStandNarrow(ts, originals) && forall t :: t in originals ==> Aggregates.Plain(t)
    ensures Sum(s, ts) == Sum(s, originals)
    decreases |ts|
  {
    if ts != [] {
      var n := |ts| - 1;
      NarrowSummary(s, ts[..n], originals[..n]);
      assert originals[n] in originals;
      NarrowSumsTheSame(Sum(s, originals[..n]), ts[n], originals[n]);
    }
  }
}
