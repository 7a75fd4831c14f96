/** What the figures count, told by the fields of the turns: totals, tables by model, tool and project, the rows of a
    day and the figures of a session (addTurn and rollup under internal/compact, summarize in
    internal/query/query.go). */
module Figures {
  import opened Aggregates
  import opened Events
  import opened Fold
  import opened Rollup
  import opened Tables
  import Assembled
  import Pricing
  import Sessions
  import Sorting
  import Windows

  // ---------------------------------------------------------------------------------------------
  // Sums and counts over turns
  // ---------------------------------------------------------------------------------------------

  function SumOf(turns: seq<Turn>, f: Turn -> int): int {
    if turns == [] then 0 else SumOf(turns[..|turns| - 1], f) + f(turns[|turns| - 1])
  }

  function CountOf(turns: seq<Turn>, which: Turn -> bool): int {
    |Sorting.Filter(turns, which)|
  }

  function InputOf(t: Turn): int { t.facts.answered.usage.input }
  function OutputOf(t: Turn): int { t.facts.answered.usage.output }
  function WriteOf(t: Turn): int { t.facts.answered.usage.cacheWrite }
  function ReadOf(t: Turn): int { t.facts.answered.usage.cacheRead }
  function CostOf(t: Turn): int { t.cost }
  function StartOfIt(t: Turn): Instant { t.facts.shared.startedAt }
  function SavedBy(t: Turn): int { Pricing.CacheSavings(t.facts.shared.model, t.facts.answered.usage) }

  /** Written to the five-minute tier, which takes what is not broken down, and to the one-hour tier. */
  function ShortOf(t: Turn): int {
    var u := t.facts.answered.usage;
    if u.split.Some? then u.split.value.fiveMin else u.cacheWrite
  }

  function LongOf(t: Turn): int {
    var u := t.facts.answered.usage;
    if u.split.Some? then u.split.value.oneHour else 0
  }

  predicate Erred(t: Turn) {
    t.facts.shared.error != "" || t.facts.answered.statusCode >= 400
  }

  /** The turn names a model, and no listed name begins it. */
  predicate Unlisted(t: Turn) {
    t.facts.shared.model != "" && forall j :: 0 <= j < Pricing.KEYS ==> !(Pricing.Key(j) <= t.facts.shared.model)
  }

  function OfModel(model: string): Turn -> bool {
    (t: Turn) => t.facts.shared.model == model
  }

  function OfProject(id: string): Turn -> bool {
    (t: Turn) => t.facts.labels.projectID == id
  }

  function OfSession(id: string): Turn -> bool {
    (t: Turn) => t.facts.labels.sessionID == id
  }

  predicate InProject(t: Turn) {
    t.facts.labels.projectID != ""
  }

  function CallsTo(tool: string): Turn -> int {
    (t: Turn) => |Sorting.Filter(t.toolCalls, (c: ToolCall) => c.name == tool)|
  }

  lemma CountSnoc(turns: seq<Turn>, which: Turn -> bool)
    requires turns != []
    ensures CountOf(turns, which) == CountOf(turns[..|turns| - 1], which) + if which(turns[|turns| - 1]) then 1 else 0
  {
  }

  /** A turn counts as unpriced if and only if it names a model that begins with no listed name. */
  lemma UnpricedIff(t: Turn)
    requires Assembled.PricedAsListed(t)
    ensures Unpriced(t) <==> Unlisted(t)
  {
    Pricing.LookupIsLongestPrefix(t.Model());
    if j :| 0 <= j < Pricing.KEYS && Pricing.Key(j) <= t.Model() {
      var k :| Pricing.IsLongest(t.Model(), k);
    }
  }

  // ---------------------------------------------------------------------------------------------
  // Totals
  // ---------------------------------------------------------------------------------------------

  ghost predicate CountsAdd(was: Totals, now: Totals, turns: seq<Turn>) {
    && now.turns == was.turns + |turns|
    && now.errors == was.errors + CountOf(turns, Erred)
    && now.unpriced == was.unpriced + CountOf(turns, Unlisted)
  }

  ghost predicate SumsAdd(was: Totals, now: Totals, turns: seq<Turn>) {
    && now.input == was.input + SumOf(turns, InputOf)
    && now.output == was.output + SumOf(turns, OutputOf)
    && now.write == was.write + SumOf(turns, WriteOf)
    && now.cacheRead == was.cacheRead + SumOf(turns, ReadOf)
    && now.cost == was.cost + SumOf(turns, CostOf)
    && now.savings == was.savings + SumOf(turns, SavedBy)
  }

  ghost predicate TotalsAdd(was: Totals, now: Totals, turns: seq<Turn>) {
    CountsAdd(was, now, turns) && SumsAdd(was, now, turns)
  }

  lemma CountsAddMore(was: Totals, now: Totals, turns: seq<Turn>, t: Turn)
    requires CountsAdd(was, now, turns) && Assembled.PricedAsListed(t)
    ensures CountsAdd(was, PlusTotals(now, TotalsOf(t)), turns + [t])
  {
    assert (turns + [t])[..|turns|] == turns;
    UnpricedIff(t);
    CountSnoc(turns + [t], Erred);
    CountSnoc(turns + [t], Unlisted);
  }

  lemma SumsAddMore(was: Totals, now: Totals, turns: seq<Turn>, t: Turn)
    requires SumsAdd(was, now, turns)
    ensures SumsAdd(was, PlusTotals(now, TotalsOf(t)), turns + [t])
  {
    assert (turns + [t])[..|turns|] == turns;
  }

  /** Each total is the sum of its own field, or the number of turns it is about. */
  lemma {:induction false} TotalsAreSums(a: Agg, turns: seq<Turn>)
    requires forall t :: t in turns ==> Assembled.PricedAsListed(t)
    ensures TotalsAdd(a.totals, AddAll(a, turns).totals, turns)
    decreases |turns|
  {
    if turns != [] {
      var init, last := turns[..|turns| - 1], turns[|turns| - 1];
      assert last in turns && turns == init + [last];
      TotalsAreSums(a, init);
      CountsAddMore(a.totals, AddAll(a, init).totals, init, last);
      SumsAddMore(a.totals, AddAll(a, init).totals, init, last);
    }
  }

  // ---------------------------------------------------------------------------------------------
  // Tables
  // ---------------------------------------------------------------------------------------------

  function CountAt(m: map<string, int>, k: string): int {
    if k in m then m[k] else 0
  }

  /** Each model's number is how many turns it answered; turns without a model are in no row. */
  lemma {:induction false} ByModelCounts(a: Agg, turns: seq<Turn>, model: string)
    ensures var now := AddAll(a, turns).byModel;
            && CountAt(now, model)
               == CountAt(a.byModel, model) + (if model != "" then CountOf(turns, OfModel(model)) else 0)
            && (model in now <==> model in a.byModel || (model != "" && CountOf(turns, OfModel(model)) > 0))
    decreases |turns|
  {
    if turns != [] {
      ByModelCounts(a, turns[..|turns| - 1], model);
      CountSnoc(turns, OfModel(model));
    }
  }

  lemma {:induction false} ToolsCount(tools: map<string, int>, calls: seq<ToolCall>, tool: string)
    ensures var now, n := CountTools(tools, calls), |Sorting.Filter(calls, (c: ToolCall) => c.name == tool)|;
            CountAt(now, tool) == CountAt(tools, tool) + n && (tool in now <==> tool in tools || n > 0)
    decreases |calls|
  {
    if calls != [] {
      ToolsCount(tools, calls[..|calls| - 1], tool);
    }
  }

  /** Each tool's number is how many calls were made to it. */
  lemma {:induction false} ToolCallsCount(a: Agg, turns: seq<Turn>, tool: string)
    ensures CountAt(AddAll(a, turns).toolCalls, tool) == CountAt(a.toolCalls, tool) + SumOf(turns, CallsTo(tool))
    decreases |turns|
  {
    if turns != [] {
      ToolCallsCount(a, turns[..|turns| - 1], tool);
      ToolsCount(AddAll(a, turns[..|turns| - 1]).toolCalls, turns[|turns| - 1].toolCalls, tool);
    }
  }

  /** A project's share of some turns: it goes by the name the first of them gives it. */
  ghost predicate ShareSays(share: Share, own: seq<Turn>) {
    && own != [] && share.project == own[0].facts.labels.project
    && share.turns == |own| && share.errors == CountOf(own, Erred)
    && share.input == SumOf(own, InputOf) && share.output == SumOf(own, OutputOf)
    && share.write == SumOf(own, ShortOf) + SumOf(own, LongOf)
    && share.cacheRead == SumOf(own, ReadOf) && share.cost == SumOf(own, CostOf)
  }

  lemma ShareSaysMore(share: Share, own: seq<Turn>, t: Turn)
    requires ShareSays(share, own)
    ensures ShareSays(PlusShare(share, ShareOf(t)), own + [t])
  {
    assert (own + [t])[..|own|] == own;
    CountSnoc(own + [t], Erred);
  }

  lemma ShareOfOne(t: Turn)
    ensures ShareSays(ShareOf(t), [t])
  {
    assert [t][..0] == [];
    CountSnoc([t], Erred);
  }

  /** Each project's figures are those of its own turns; turns without a project are in no share. */
  ghost predicate ShareIs(shares: map<string, Share>, id: string, own: seq<Turn>) {
    && (id in shares <==> id != "" && own != [])
    && (id in shares ==> ShareSays(shares[id], own) && shares[id].projectID == id)
  }

  lemma ShareIsMore(shares: map<string, Share>, id: string, own: seq<Turn>, t: Turn)
    requires ShareIs(shares, id, own)
    ensures ShareIs(AddProject(shares, ShareOf(t)), id, own + if t.ProjectID() == id then [t] else [])
  {
    if t.ProjectID() == id {
      if own == [] {
        ShareOfOne(t);
        assert own + [t] == [t];
      } else if id in shares {
        ShareSaysMore(shares[id], own, t);
      }
    } else {
      assert own + [] == own;
    }
  }

  lemma {:induction false} ByProjectAdds(turns: seq<Turn>, id: string)
    ensures ShareIs(AddAll(NOTHING, turns).byProject, id, Sorting.Filter(turns, OfProject(id)))
    decreases |turns|
  {
    if turns != [] {
      ByProjectAdds(turns[..|turns| - 1], id);
      ShareIsMore(AddAll(NOTHING, turns[..|turns| - 1]).byProject, id,
          Sorting.Filter(turns[..|turns| - 1], OfProject(id)), turns[|turns| - 1]);
    }
  }

  // ---------------------------------------------------------------------------------------------
  // All projects together
  // ---------------------------------------------------------------------------------------------

  /** A column summed over all shares. */
  ghost function SumShares(shares: map<string, Share>, column: Share -> int): int
    decreases |shares|
  {
    if shares == map[] then 0
    else
      var k :| k in shares;
      column(shares[k]) + SumShares(shares - {k}, column)
  }

  lemma {:induction false} SumWithout(shares: map<string, Share>, k: string, column: Share -> int)
    requires k in shares
    ensures SumShares(shares, column) == column(shares[k]) + SumShares(shares - {k}, column)
    decreases |shares|
  {
    var j :| j in shares && SumShares(shares, column) == column(shares[j]) + SumShares(shares - {j}, column);
    if j != k {
      SumWithout(shares - {j}, k, column);
      SumWithout(shares - {k}, j, column);
      assert shares - {j} - {k} == shares - {k} - {j};
    }
  }

  ghost predicate Adds(column: Share -> int) {
    forall a, b :: column(PlusShare(a, b)) == column(a) + column(b)
  }

  ghost predicate Reads(column: Share -> int, field: Turn -> int) {
    forall t :: column(ShareOf(t)) == field(t)
  }

  lemma SumBumped(shares: map<string, Share>, k: string, share: Share, column: Share -> int)
    requires Adds(column)
    ensures SumShares(Bump(shares, k, share, PlusShare), column) == SumShares(shares, column) + column(share)
  {
    var now := Bump(shares, k, share, PlusShare);
    SumWithout(now, k, column);
    assert now - {k} == shares - {k};
    if k in shares {
      SumWithout(shares, k, column);
    } else {
      assert shares - {k} == shares;
    }
  }

  /** Column by column, the projects add up to the turns that have one. */
  lemma {:induction false} SharesAddUp(turns: seq<Turn>, column: Share -> int, field: Turn -> int)
    requires Adds(column) && Reads(column, field)
    ensures SumShares(AddAll(NOTHING, turns).byProject, column) == SumOf(Sorting.Filter(turns, InProject), field)
    decreases |turns|
  {
    if turns != [] {
      var init, last := turns[..|turns| - 1], turns[|turns| - 1];
      SharesAddUp(init, column, field);
      SharesAddMore(AddAll(NOTHING, init).byProject, Sorting.Filter(init, InProject), last, column, field);
    }
  }

  lemma SharesAddMore(shares: map<string, Share>, own: seq<Turn>, t: Turn, column: Share -> int, field: Turn -> int)
    requires Adds(column) && Reads(column, field) && SumShares(shares, column) == SumOf(own, field)
    ensures SumShares(AddProject(shares, ShareOf(t)), column) == SumOf(own + if InProject(t) then [t] else [], field)
  {
    if InProject(t) {
      SumBumped(shares, t.ProjectID(), ShareOf(t), column);
      SumSnoc(own, t, field);
    } else {
      assert own + [] == own;
    }
  }

  lemma SumSnoc(turns: seq<Turn>, t: Turn, f: Turn -> int)
    ensures SumOf(turns + [t], f) == SumOf(turns, f) + f(t)
  {
    assert (turns + [t])[..|turns|] == turns;
  }

  function WrittenOf(t: Turn): int { ShortOf(t) + LongOf(t) }
  function ErrorOf(t: Turn): int { if Erred(t) then 1 else 0 }

  lemma ProjectsAddUp(turns: seq<Turn>)
    ensures var shares, own := AddAll(NOTHING, turns).byProject, Sorting.Filter(turns, InProject);
            && SumShares(shares, (s: Share) => s.turns) == SumOf(own, t => 1)
            && SumShares(shares, (s: Share) => s.input) == SumOf(own, InputOf)
            && SumShares(shares, (s: Share) => s.output) == SumOf(own, OutputOf)
            && SumShares(shares, (s: Share) => s.write) == SumOf(own, WrittenOf)
            && SumShares(shares, (s: Share) => s.cacheRead) == SumOf(own, ReadOf)
            && SumShares(shares, (s: Share) => s.cost) == SumOf(own, CostOf)
            && SumShares(shares, (s: Share) => s.errors) == SumOf(own, ErrorOf)
  {
    SharesAddUp(turns, (s: Share) => s.turns, t => 1);
    SharesAddUp(turns, (s: Share) => s.input, InputOf);
    SharesAddUp(turns, (s: Share) => s.output, OutputOf);
    SharesAddUp(turns, (s: Share) => s.write, WrittenOf);
    SharesAddUp(turns, (s: Share) => s.cacheRead, ReadOf);
    SharesAddUp(turns, (s: Share) => s.cost, CostOf);
    SharesAddUp(turns, (s: Share) => s.errors, ErrorOf);
  }

  // ---------------------------------------------------------------------------------------------
  // A session
  // ---------------------------------------------------------------------------------------------

  /** The last instant of a turn. */
  function EndOfIt(t: Turn): Instant { t.facts.shared.startedAt + t.facts.shared.durationMS }

  function CallsIn(t: Turn): int { |t.toolCalls| }

  ghost predicate SpanSays(s: Sessions.Session, turns: seq<Turn>) {
    && (s.startedAt == None <==> turns == [])
    && (s.startedAt.Some? ==>
          && (forall t :: t in turns ==> s.startedAt.value <= StartOfIt(t))
          && exists t :: t in turns && s.startedAt.value == StartOfIt(t))
    && (forall t :: t in turns ==> EndOfIt(t) <= s.endedAt)
    && (s.endedAt == ZERO_TIME || exists t :: t in turns && s.endedAt == EndOfIt(t))
  }

  ghost predicate SumsSay(s: Sessions.Session, turns: seq<Turn>) {
    && s.turns == |turns| && s.input == SumOf(turns, InputOf) && s.output == SumOf(turns, OutputOf)
    && s.write == SumOf(turns, WriteOf) && s.cacheRead == SumOf(turns, ReadOf) && s.cost == SumOf(turns, CostOf)
    && s.unpriced == CountOf(turns, Unlisted) && s.errors == CountOf(turns, Erred)
    && s.toolCalls == SumOf(turns, CallsIn)
  }

  ghost predicate NamesSay(s: Sessions.Session, turns: seq<Turn>) {
    && (forall m :: m in s.models <==> m != "" && exists t :: t in turns && t.facts.shared.model == m)
    && (forall n :: n in s.toolNames <==> exists t, c :: t in turns && c in t.toolCalls && c.name == n)
  }

  lemma SpanSaysMore(s: Sessions.Session, turns: seq<Turn>, t: Turn)
    requires SpanSays(s, turns)
    ensures SpanSays(Sessions.AddTurn(s, t), turns + [t])
  {
    assert t in turns + [t];
    forall u | u in turns ensures u in turns + [t] {
    }
  }

  lemma SumsSayMore(s: Sessions.Session, turns: seq<Turn>, t: Turn)
    requires SumsSay(s, turns) && Assembled.PricedAsListed(t)
    ensures SumsSay(Sessions.AddTurn(s, t), turns + [t])
  {
    assert (turns + [t])[..|turns|] == turns;
    UnpricedIff(t);
    CountSnoc(turns + [t], Erred);
    CountSnoc(turns + [t], Unlisted);
  }

  lemma NamesSayMore(s: Sessions.Session, turns: seq<Turn>, t: Turn)
    requires NamesSay(s, turns)
    ensures NamesSay(Sessions.AddTurn(s, t), turns + [t])
  {
    var now := Sessions.AddTurn(s, t);
    assert forall u :: u in turns + [t] <==> u in turns || u == t;
    forall n ensures n in now.toolNames <==> exists u, c :: u in turns + [t] && c in u.toolCalls && c.name == n {
      if c :| c in t.toolCalls && c.name == n {
        assert n in Sessions.Names(t.toolCalls);
      }
    }
  }

  /** A session's figures are those of its turns: it starts when the first of them starts, and ends when the last of
      them to end ends. */
  lemma {:induction false} SessionIsSaid(id: string, turns: seq<Turn>)
    requires forall t :: t in turns ==> Assembled.PricedAsListed(t)
    ensures var s := Sessions.Summary(id, turns);
            s.id == id && SpanSays(s, turns) && SumsSay(s, turns) && NamesSay(s, turns)
    decreases |turns|
  {
    if turns != [] {
      var init, last := turns[..|turns| - 1], turns[|turns| - 1];
      assert last in turns && turns == init + [last];
      SessionIsSaid(id, init);
      SpanSaysMore(Sessions.Summary(id, init), init, last);
      SumsSayMore(Sessions.Summary(id, init), init, last);
      NamesSayMore(Sessions.Summary(id, init), init, last);
    }
  }
}
