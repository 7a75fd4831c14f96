/** What a finished turn is, told by the events of its exchange: BuildTurns as a whole (internal/query/query.go). */
module Assembled {
  import opened Events
  import opened Fold
  import opened Observations
  import opened Replay
  import opened Said
  import Growth
  import Pricing
  import Sorting
  import TurnFacts

  // ---------------------------------------------------------------------------------------------
  // Tool calls
  // ---------------------------------------------------------------------------------------------

  /** The calls the responses report, one after another. */
  function CallsIn(es: seq<Event>): seq<ToolCall> {
    if es == [] then []
    else CallsIn(es[..|es| - 1]) + if es[|es| - 1].kind == Response then es[|es| - 1].toolCalls else []
  }

  predicate Has(calls: seq<ToolCall>, id: string) {
    exists n :: 0 <= n < |calls| && calls[n].id == id
  }

  /** Those without an id, and of each id the first. */
  function FirstOnes(calls: seq<ToolCall>): seq<ToolCall> {
    if calls == [] then []
    else
      var init, last := calls[..|calls| - 1], calls[|calls| - 1];
      FirstOnes(init) + if last.id == "" || !Has(init, last.id) then [last] else []
  }

  function Named(id: string): ToolCall -> bool {
    (c: ToolCall) => c.id == id && c.name != ""
  }

  function NameIn(c: ToolCall): string { c.name }

  /** A turn lists each call once, in the order they were first reported, under the first name that was reported for
      it; calls without an id are all listed. */
  ghost predicate CallsSaid(calls: seq<ToolCall>, listed: seq<ToolCall>) {
    var first := FirstOnes(calls);
    && |listed| == |first|
    && forall n :: 0 <= n < |first| ==>
         && listed[n].id == first[n].id
         && listed[n].name == if first[n].id == "" then first[n].name
                              else FirstOf(calls, Named(first[n].id), NameIn, "")
  }

  lemma HasSnoc(calls: seq<ToolCall>, c: ToolCall, id: string)
    ensures Has(calls + [c], id) <==> Has(calls, id) || c.id == id
  {
    assert (calls + [c])[|calls|] == c;
    if n :| 0 <= n < |calls| && calls[n].id == id {
      assert (calls + [c])[n] == calls[n];
    }
  }

  lemma {:induction false} FirstOnesHave(calls: seq<ToolCall>, id: string)
    ensures Has(FirstOnes(calls), id) <==> Has(calls, id)
  {
    if calls != [] {
      var init, last := calls[..|calls| - 1], calls[|calls| - 1];
      FirstOnesHave(init, id);
      HasSnoc(init, last, id);
      HasSnoc(FirstOnes(init), last, id);
      assert calls == init + [last];
      if last.id != "" && Has(init, last.id) {
        assert FirstOnes(init) + [] == FirstOnes(init);
      }
    }
  }

  lemma {:induction false} FirstOnesDiffer(calls: seq<ToolCall>, n: nat, m: nat)
    requires n < m < |FirstOnes(calls)| && FirstOnes(calls)[n].id != ""
    ensures FirstOnes(calls)[n].id != FirstOnes(calls)[m].id
  {
    var init, last := calls[..|calls| - 1], calls[|calls| - 1];
    if m < |FirstOnes(init)| {
      FirstOnesDiffer(init, n, m);
    } else {
      FirstOnesHave(init, last.id);
      assert Has(FirstOnes(init), FirstOnes(init)[n].id);
    }
  }

  lemma NameSnoc(calls: seq<ToolCall>, c: ToolCall, id: string)
    ensures FirstOf(calls + [c], Named(id), NameIn, "")
         == if FirstOf(calls, Named(id), NameIn, "") == "" && c.id == id then c.name
            else FirstOf(calls, Named(id), NameIn, "")
  {
    FirstOfSnoc(calls, c, Named(id), NameIn, "");
  }

  lemma UnnamedYet(calls: seq<ToolCall>, id: string)
    requires !Has(calls, id)
    ensures FirstOf(calls, Named(id), NameIn, "") == ""
  {
    assert !Any(calls, Named(id)) by {
      if i :| 0 <= i < |calls| && Named(id)(calls[i]) {
        assert Has(calls, id);
      }
    }
    NoneIsFirst(calls, Named(id), NameIn, "");
  }

  /** A call that is new. */
  lemma NewCallSaid(calls: seq<ToolCall>, listed: seq<ToolCall>, c: ToolCall)
    requires CallsSaid(calls, listed) && (c.id == "" || !Has(calls, c.id))
    ensures CallsSaid(calls + [c], listed + [c])
  {
    var first := FirstOnes(calls);
    assert (calls + [c])[..|calls|] == calls;
    assert FirstOnes(calls + [c]) == first + [c];
    UnnamedYetIfNew(calls, c);
    forall n | 0 <= n < |first| ensures first[n].id != "" ==>
        FirstOf(calls + [c], Named(first[n].id), NameIn, "") == FirstOf(calls, Named(first[n].id), NameIn, "") {
      NameSnoc(calls, c, first[n].id);
      FirstOnesHave(calls, first[n].id);
      assert Has(first, first[n].id);
    }
  }

  lemma UnnamedYetIfNew(calls: seq<ToolCall>, c: ToolCall)
    requires c.id == "" || !Has(calls, c.id)
    ensures c.id != "" ==> FirstOf(calls + [c], Named(c.id), NameIn, "") == c.name
  {
    if c.id != "" {
      NameSnoc(calls, c, c.id);
      UnnamedYet(calls, c.id);
    }
  }

  /** A call that was reported before. */
  lemma KnownCallSaid(calls: seq<ToolCall>, listed: seq<ToolCall>, c: ToolCall, i: nat)
    requires CallsSaid(calls, listed) && c.id != "" && Has(calls, c.id)
    requires i < |listed| && listed[i].id == c.id
    ensures CallsSaid(calls + [c], if listed[i].name == "" then listed[i := ToolCall(c.id, c.name)] else listed)
  {
    var first := FirstOnes(calls);
    assert (calls + [c])[..|calls|] == calls;
    assert FirstOnes(calls + [c]) == first;
    forall n | 0 <= n < |first| ensures
      && (n != i ==> first[n].id != c.id)
      && FirstOf(calls + [c], Named(first[n].id), NameIn, "")
         == if FirstOf(calls, Named(first[n].id), NameIn, "") == "" && c.id == first[n].id then c.name
            else FirstOf(calls, Named(first[n].id), NameIn, "")
    {
      NameSnoc(calls, c, first[n].id);
      if n < i {
        if first[n].id != "" {
          FirstOnesDiffer(calls, n, i);
        }
      } else if n > i {
        FirstOnesDiffer(calls, i, n);
      }
    }
  }

  lemma ListedIffHas(calls: seq<ToolCall>, listed: seq<ToolCall>, id: string)
    requires CallsSaid(calls, listed)
    ensures Has(listed, id) <==> Has(calls, id)
  {
    var first := FirstOnes(calls);
    FirstOnesHave(calls, id);
    if n :| 0 <= n < |first| && first[n].id == id {
      assert listed[n].id == id;
    }
    if n :| 0 <= n < |listed| && listed[n].id == id {
      assert first[n].id == id;
    }
  }

  lemma {:induction false} CallsAreSaid(calls: seq<ToolCall>)
    ensures CallsSaid(calls, MergeCalls([], calls))
  {
    if calls != [] {
      var init, last := calls[..|calls| - 1], calls[|calls| - 1];
      CallsAreSaid(init);
      var listed := MergeCalls([], init);
      var i := IndexOf(listed, last.id);
      ListedIffHas(init, listed, last.id);
      assert calls == init + [last];
      if last.id == "" || i == |listed| {
        NewCallSaid(init, listed, last);
      } else {
        KnownCallSaid(init, listed, last, i);
      }
    }
  }

  lemma {:induction false} MergeConcat(held: seq<ToolCall>, a: seq<ToolCall>, b: seq<ToolCall>)
    ensures MergeCalls(held, a + b) == MergeCalls(MergeCalls(held, a), b)
    decreases |b|
  {
    if b == [] {
      assert a + b == a;
    } else {
      assert (a + b)[..|a + b| - 1] == a + b[..|b| - 1];
      MergeConcat(held, a, b[..|b| - 1]);
    }
  }

  lemma {:induction false} CallsFold(es: seq<Event>)
    ensures FoldTurn(BLANK_TURN, es).toolCalls == MergeCalls([], CallsIn(es))
    decreases |es|
  {
    if es != [] {
      CallsFold(es[..|es| - 1]);
      MergeConcat([], CallsIn(es[..|es| - 1]), CallsOf(es[|es| - 1]));
    }
  }

  // ---------------------------------------------------------------------------------------------
  // Captured content
  // ---------------------------------------------------------------------------------------------

  /** What the content events among these captured. */
  function BlobsIn(es: seq<Event>): seq<string> {
    if es == [] then []
    else
      var last := es[|es| - 1];
      BlobsIn(es[..|es| - 1]) + if last.kind == Content && last.contentBlob != "" then [last.contentBlob] else []
  }

  lemma {:induction false} BlobsFold(es: seq<Event>)
    ensures FoldTurn(BLANK_TURN, es).contentBlobs == BlobsIn(es)
    decreases |es|
  {
    if es != [] {
      BlobsFold(es[..|es| - 1]);
    }
  }

  predicate MakesCall(byTurn: map<string, Turn>, key: string, id: string) {
    key in byTurn && Has(byTurn[key].toolCalls, id)
  }

  /** Of the turns that made this call, the one that appeared last. */
  predicate MadeLast(byTurn: map<string, Turn>, order: seq<string>, key: string, id: string) {
    exists i :: 0 <= i < |order| && order[i] == key && MakesCall(byTurn, key, id)
                && forall j :: i < j < |order| ==> !MakesCall(byTurn, order[j], id)
  }

  lemma MadeLastSnoc(byTurn: map<string, Turn>, order: seq<string>, last: string, key: string, id: string)
    ensures MadeLast(byTurn, order + [last], key, id)
       <==> if MakesCall(byTurn, last, id) then key == last else MadeLast(byTurn, order, key, id)
  {
    var more := order + [last];
    assert more[|order|] == last && forall i :: 0 <= i < |order| ==> more[i] == order[i];
    if MadeLast(byTurn, more, key, id) {
      var i :| 0 <= i < |more| && more[i] == key && MakesCall(byTurn, key, id)
          && forall j :: i < j < |more| ==> !MakesCall(byTurn, more[j], id);
      assert i < |order| ==> !MakesCall(byTurn, more[|order|], id);
    }
    if !MakesCall(byTurn, last, id) && MadeLast(byTurn, order, key, id) {
      var i :| 0 <= i < |order| && order[i] == key && MakesCall(byTurn, key, id)
          && forall j :: i < j < |order| ==> !MakesCall(byTurn, order[j], id);
      assert more[i] == key;
    }
  }

  /** A result goes where its call was made. */
  lemma {:induction false} OwnerIff(byTurn: map<string, Turn>, order: seq<string>, id: string, key: string)
    requires forall k :: k in order ==> k in byTurn
    ensures Owner(byTurn, order, id) == Some(key) <==> id != "" && MadeLast(byTurn, order, key, id)
  {
    if order != [] && id != "" {
      var init, last := order[..|order| - 1], order[|order| - 1];
      OwnerIff(byTurn, init, id, key);
      MadeLastSnoc(byTurn, init, last, key, id);
      assert order == init + [last];
      assert last in order;
    }
  }

  /** Results that go to a turn. */
  ghost function FiledUnder(byTurn: map<string, Turn>, order: seq<string>, key: string): Event -> bool {
    (ev: Event) => ev.toolUseID != "" && MadeLast(byTurn, order, key, ev.toolUseID)
  }

  function WithBlobs(t: Turn, more: seq<string>): Turn {
    t.(contentBlobs := t.contentBlobs + more)
  }

  lemma WithBlobsTwice(t: Turn, a: seq<string>, b: seq<string>)
    ensures WithBlobs(WithBlobs(t, a), b) == WithBlobs(t, a + b) && WithBlobs(t, []) == t && a + [] == a
  {
    assert (t.contentBlobs + a) + b == t.contentBlobs + (a + b);
    assert t.contentBlobs + [] == t.contentBlobs;
  }

  lemma AttachOne(byTurn: map<string, Turn>, order: seq<string>, results: seq<Event>, ev: Event, key: string)
    requires (forall k :: k in order ==> k in byTurn) && key in byTurn
    ensures var was, now := Attach(byTurn, order, results)[key], Attach(byTurn, order, results + [ev])[key];
            now == if Owner(byTurn, order, ev.toolUseID) == Some(key) && ev.contentBlob != ""
                   then WithBlobs(was, [ev.contentBlob]) else was
  {
    assert (results + [ev])[..|results|] == results;
  }

  lemma {:induction false} FiledSnoc(results: seq<Event>, ev: Event, filed: Event -> bool)
    requires ev.kind == Content
    ensures BlobsIn(Sorting.Filter(results + [ev], filed))
         == BlobsIn(Sorting.Filter(results, filed)) + if filed(ev) && ev.contentBlob != "" then [ev.contentBlob] else []
  {
    Sorting.FilterSnoc(results, ev, filed);
    BlobsSnoc(Sorting.Filter(results, filed), ev);
  }

  lemma {:induction false} AttachFiles(byTurn: map<string, Turn>, order: seq<string>, results: seq<Event>, key: string,
          filed: Event -> bool)
    requires (forall k :: k in order ==> k in byTurn) && key in byTurn
    requires forall ev :: ev in results ==>
               ev.kind == Content && (filed(ev) <==> Owner(byTurn, order, ev.toolUseID) == Some(key))
    ensures Attach(byTurn, order, results)[key] == WithBlobs(byTurn[key], BlobsIn(Sorting.Filter(results, filed)))
  {
    if results == [] {
      WithBlobsTwice(byTurn[key], [], []);
    } else {
      var init, last := results[..|results| - 1], results[|results| - 1];
      assert results == init + [last] && last in results;
      AttachFiles(byTurn, order, init, key, filed);
      AttachOne(byTurn, order, init, last, key);
      FiledSnoc(init, last, filed);
      WithBlobsTwice(byTurn[key], BlobsIn(Sorting.Filter(init, filed)), [last.contentBlob]);
    }
  }

  lemma FiledIsOwned(byTurn: map<string, Turn>, order: seq<string>, key: string)
    requires forall k :: k in order ==> k in byTurn
    ensures forall ev :: FiledUnder(byTurn, order, key)(ev) <==> Owner(byTurn, order, ev.toolUseID) == Some(key)
  {
    forall ev: Event
      ensures FiledUnder(byTurn, order, key)(ev) <==> Owner(byTurn, order, ev.toolUseID) == Some(key)
    {
      OwnerIff(byTurn, order, ev.toolUseID, key);
    }
  }

  lemma BlobsSnoc(es: seq<Event>, ev: Event)
    ensures BlobsIn(es + [ev])
         == BlobsIn(es) + if ev.kind == Content && ev.contentBlob != "" then [ev.contentBlob] else []
    ensures BlobsIn(es + []) == BlobsIn(es)
  {
    assert (es + [ev])[..|es|] == es;
    assert es + [] == es;
  }

  // ---------------------------------------------------------------------------------------------
  // A finished turn
  // ---------------------------------------------------------------------------------------------

  predicate ToolAnswer(ev: Event) {
    ev.kind == Content && ev.contentKind == ToolResult
  }

  /** An event of the same exchange: of the same message, or without message ids of the same proxied turn. */
  function Of(t: Turn): Event -> bool {
    (ev: Event) =>
      && !ToolAnswer(ev)
      && if ev.messageID != "" then ev.messageID == t.facts.labels.messageID
         else t.facts.labels.messageID == "" && ev.turnID == t.facts.labels.turnID
  }

  /** The events a turn was assembled from. */
  function Exchange(es: seq<Event>, t: Turn): seq<Event> {
    Sorting.Filter(es, Of(t))
  }

  /** The tool results filed with it. */
  ghost function FiledWith(es: seq<Event>, t: Turn): Event -> bool {
    var s := FoldFrom(START, es);
    (ev: Event) => ToolAnswer(ev) && FiledUnder(s.byTurn, s.order, TurnFacts.KeyOfTurn(t))(ev)
  }

  /** The price of the longest listed name the model starts with, and none if it starts with none. */
  ghost predicate PricedAsListed(t: Turn) {
    && (forall j :: Pricing.IsLongest(t.Model(), j) ==>
          t.priced && t.cost == Pricing.CostAt(Pricing.RateAt(j), t.Usage()))
    && ((forall j :: 0 <= j < Pricing.KEYS ==> !(Pricing.Key(j) <= t.Model())) ==> !t.priced && t.cost == 0)
  }

  ghost predicate AssembledFrom(es: seq<Event>, t: Turn) {
    var own := Exchange(es, t);
    && own != [] && FactsSaid(own, t.facts) && CallsSaid(CallsIn(own), t.toolCalls)
    && t.contentBlobs == BlobsIn(own) + BlobsIn(Sorting.Filter(es, FiledWith(es, t)))
    && PricedAsListed(t)
  }

  lemma {:induction false} OnlyIsFilter(es: seq<Event>, key: string, mine: Event -> bool)
    requires forall ev :: mine(ev) <==> !IsResult(ev) && TurnKey(ev) == key
    ensures Only(es, key) == Sorting.Filter(es, mine)
  {
    if es != [] {
      OnlyIsFilter(es[..|es| - 1], key, mine);
    }
  }

  lemma OfIffKey(t: Turn, ev: Event)
    ensures Of(t)(ev) <==> !IsResult(ev) && TurnKey(ev) == TurnFacts.KeyOfTurn(t)
  {
    var l := t.facts.labels;
    TurnFacts.KeysAreTagged(l.messageID, ev.turnID);
    TurnFacts.KeysAreTagged(ev.messageID, l.turnID);
    TurnFacts.KeysAreTagged(l.messageID, ev.messageID);
    TurnFacts.KeysAreTagged(l.turnID, ev.turnID);
  }

  lemma ExchangeIsOnly(es: seq<Event>, t: Turn)
    ensures Exchange(es, t) == Only(es, TurnFacts.KeyOfTurn(t))
  {
    forall ev ensures Of(t)(ev) <==> !IsResult(ev) && TurnKey(ev) == TurnFacts.KeyOfTurn(t) {
      OfIffKey(t, ev);
    }
    OnlyIsFilter(es, TurnFacts.KeyOfTurn(t), Of(t));
  }

  lemma {:induction false} ResultsAreFilter(es: seq<Event>)
    ensures FoldFrom(START, es).results == Sorting.Filter(es, IsResult)
    ensures forall ev :: ev in FoldFrom(START, es).results ==> ev.kind == Content
  {
    if es != [] {
      ResultsAreFilter(es[..|es| - 1]);
    }
  }

  lemma PricedIsAsListed(t: Turn)
    requires t.cost == 0 && !t.priced
    ensures PricedAsListed(Priced(t))
  {
    Pricing.LookupIsLongestPrefix(t.Model());
    forall j | Pricing.IsLongest(t.Model(), j)
      ensures Priced(t).priced && Priced(t).cost == Pricing.CostAt(Pricing.RateAt(j), t.Usage())
    {
      Pricing.LongestIsOne(t.Model(), j);
    }
  }

  /** A finished turn, before sorting. */
  lemma CollectedFrom(es: seq<Event>, t: Turn) returns (k: string)
    requires t in TurnsOf(es)
    ensures var s := FoldFrom(START, es);
            && WellOrdered(s) && k in s.byTurn && t == Priced(Attach(s.byTurn, s.order, s.results)[k])
  {
    FoldKeepsOrder(START, es);
    var s := FoldFrom(START, es);
    k := FinishedFrom(Attach(s.byTurn, s.order, s.results), s.order, t);
  }

  lemma {:induction false} FinishedFrom(byTurn: map<string, Turn>, order: seq<string>, t: Turn) returns (k: string)
    requires (forall j :: j in order ==> j in byTurn) && t in Sorting.SortBy(Collect(byTurn, order), StartsBefore)
    ensures k in order && t == Priced(byTurn[k])
  {
    Sorting.SortMembers(Collect(byTurn, order), StartsBefore, t);
    var i :| 0 <= i < |order| && Collect(byTurn, order)[i] == t;
    k := order[i];
  }

  lemma {:induction false} NeverPriced(es: seq<Event>)
    ensures FoldTurn(BLANK_TURN, es).cost == 0 && !FoldTurn(BLANK_TURN, es).priced
    decreases |es|
  {
    if es != [] {
      NeverPriced(es[..|es| - 1]);
    }
  }

  /** What the fold leaves under a key, results attached. */
  lemma AttachedFrom(es: seq<Event>, key: string)
    requires key in FoldFrom(START, es).byTurn && WellOrdered(FoldFrom(START, es))
    ensures var s, own := FoldFrom(START, es), Only(es, key);
            var t := Attach(s.byTurn, s.order, s.results)[key];
            && own != [] && FactsSaid(own, t.facts) && CallsSaid(CallsIn(own), t.toolCalls)
            && t.contentBlobs
               == BlobsIn(own) + BlobsIn(Sorting.Filter(s.results, FiledUnder(s.byTurn, s.order, key)))
            && t.cost == 0 && !t.priced
  {
    var s, own := FoldFrom(START, es), Only(es, key);
    FoldView(START, es, key);
    ResultsAreFilter(es);
    FiledIsOwned(s.byTurn, s.order, key);
    AttachFiles(s.byTurn, s.order, s.results, key, FiledUnder(s.byTurn, s.order, key));
    FactsAreSaid(own);
    CallsFold(own);
    CallsAreSaid(CallsIn(own));
    BlobsFold(own);
    NeverPriced(own);
  }

  lemma KeyIs(es: seq<Event>, key: string)
    requires key in FoldFrom(START, es).byTurn && WellOrdered(FoldFrom(START, es))
    ensures var s := FoldFrom(START, es);
            TurnFacts.KeyOfTurn(Priced(Attach(s.byTurn, s.order, s.results)[key])) == key
  {
    var s := FoldFrom(START, es);
    Growth.AttachKeepsFacts(s.byTurn, s.order, s.results, key);
    TurnFacts.FoldKeepsKeys(es, key);
  }

  lemma FiledWithIs(es: seq<Event>, t: Turn)
    ensures var s := FoldFrom(START, es);
            var filed := FiledUnder(s.byTurn, s.order, TurnFacts.KeyOfTurn(t));
            Sorting.Filter(es, FiledWith(es, t)) == Sorting.Filter(s.results, filed)
  {
    var s := FoldFrom(START, es);
    ResultsAreFilter(es);
    Sorting.FilterNarrows(es, IsResult, FiledUnder(s.byTurn, s.order, TurnFacts.KeyOfTurn(t)), FiledWith(es, t));
  }

  /** Every turn is what its exchange says: each field decided by its own rule, each call once, the content of its own
      events and then of the tool results that answer its calls, and the listed price. */
  lemma TurnsAreAssembled(es: seq<Event>, t: Turn)
    requires t in TurnsOf(es)
    ensures AssembledFrom(es, t)
  {
    var k := CollectedFrom(es, t);
    var s := FoldFrom(START, es);
    AttachedFrom(es, k);
    KeyIs(es, k);
    PricedIsAsListed(Attach(s.byTurn, s.order, s.results)[k]);
    ExchangeIsOnly(es, t);
    FiledWithIs(es, t);
  }

  /** For one: whatever was reported before, the usage of a turn is that of its last response that reports any. */
  lemma LastReportStands(es: seq<Event>, t: Turn, i: nat)
    requires t in TurnsOf(es) && i < |Exchange(es, t)| && Reports(Exchange(es, t)[i])
    requires forall j :: i < j < |Exchange(es, t)| ==> !Reports(Exchange(es, t)[j])
    ensures Some(t.Usage()) == Exchange(es, t)[i].usage
  {
    TurnsAreAssembled(es, t);
    LastDecides(Exchange(es, t), Reports, UsageIn, NO_USAGE, i);
  }

  /** If none reports any it used nothing and cost nothing. */
  lemma NoReportNoCost(es: seq<Event>, t: Turn)
    requires t in TurnsOf(es) && !Any(Exchange(es, t), Reports)
    ensures t.Usage() == NO_USAGE && t.cost == 0
  {
    TurnsAreAssembled(es, t);
    NoneIsLast(Exchange(es, t), Reports, UsageIn, NO_USAGE);
    Pricing.LookupIsLongestPrefix(t.Model());
  }

  /** And it stopped for the reason that was given first. */
  lemma FirstStopStands(es: seq<Event>, t: Turn, i: nat)
    requires t in TurnsOf(es) && i < |Exchange(es, t)| && NamesStop(Exchange(es, t)[i])
    requires forall j :: 0 <= j < i ==> !NamesStop(Exchange(es, t)[j])
    ensures t.facts.answered.stopReason == Exchange(es, t)[i].stopReason
  {
    TurnsAreAssembled(es, t);
    FirstDecides(Exchange(es, t), NamesStop, StopIn, "", i);
  }

  lemma OnePlace(keys: seq<string>, order: seq<string>, key: string) returns (n: nat)
    requires multiset(keys) == multiset(order) && key in order
    requires forall i, j :: 0 <= i < j < |order| ==> order[i] != order[j]
    ensures n < |keys| && forall m :: 0 <= m < |keys| ==> (keys[m] == key <==> m == n)
  {
    assert key in multiset(order);
    assert key in multiset(keys);
    n :| n < |keys| && keys[n] == key;
    DistinctStays(order, keys);
  }

  /** The one turn of a key. */
  lemma KeyHasOnePlace(es: seq<Event>, turns: seq<Turn>, key: string) returns (n: nat)
    requires turns == TurnsOf(es) && key in Growth.KeysOf(es)
    ensures n < |turns| && forall m :: 0 <= m < |turns| ==> (TurnFacts.KeyOfTurn(turns[m]) == key <==> m == n)
  {
    Growth.TurnsCarryKeys(es);
    FoldKeepsOrder(START, es);
    n := OnePlace(Sorting.Map(TurnFacts.KeyOfTurn, turns), Growth.KeysOf(es), key);
  }

  lemma KeyIsKnown(es: seq<Event>, ev: Event)
    requires ev in es && !ToolAnswer(ev)
    ensures TurnKey(ev) in Growth.KeysOf(es)
  {
    FoldKeepsOrder(START, es);
    OnlyIn(es, TurnKey(ev), ev);
    FoldView(START, es, TurnKey(ev));
  }

  ghost predicate OnlyTurnOf(turns: seq<Turn>, n: nat, ev: Event) {
    n < |turns| && forall m :: 0 <= m < |turns| ==> (Of(turns[m])(ev) <==> m == n)
  }

  /** And every event but a tool result belongs to exactly one turn. */
  lemma EveryEventHasItsTurn(es: seq<Event>, ev: Event)
    requires ev in es && !ToolAnswer(ev)
    ensures exists n :: OnlyTurnOf(TurnsOf(es), n, ev)
  {
    KeyIsKnown(es, ev);
    var turns := TurnsOf(es);
    var n := KeyHasOnePlace(es, turns, TurnKey(ev));
    forall m | 0 <= m < |turns| ensures Of(turns[m])(ev) <==> m == n {
      OfIffKey(turns[m], ev);
    }
    assert OnlyTurnOf(turns, n, ev);
  }

  lemma {:induction false} CountOne(xs: seq<string>, i: nat, j: nat)
    requires i < j < |xs| && xs[i] == xs[j]
    ensures multiset(xs)[xs[i]] >= 2
  {
    assert xs == xs[..i] + [xs[i]] + xs[i + 1..j] + [xs[j]] + xs[j + 1..];
  }

  lemma {:induction false} DistinctCounts(xs: seq<string>, x: string)
    requires forall i, j :: 0 <= i < j < |xs| ==> xs[i] != xs[j]
    ensures multiset(xs)[x] <= 1
  {
    if xs != [] {
      DistinctCounts(xs[..|xs| - 1], x);
      Sorting.SplitLast(xs);
      if x == xs[|xs| - 1] {
        assert x !in xs[..|xs| - 1];
      }
    }
  }

  lemma DistinctStays(xs: seq<string>, ys: seq<string>)
    requires multiset(xs) == multiset(ys) && forall i, j :: 0 <= i < j < |xs| ==> xs[i] != xs[j]
    ensures forall i, j :: 0 <= i < j < |ys| ==> ys[i] != ys[j]
  {
    forall i, j | 0 <= i < j < |ys| ensures ys[i] != ys[j] {
      DistinctCounts(xs, ys[i]);
      if ys[i] == ys[j] {
        CountOne(ys, i, j);
      }
    }
  }
}
