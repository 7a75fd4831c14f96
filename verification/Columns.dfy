/** What the stored row of a turn says, told by the events of its exchange (toRow in internal/compact/compact.go over
    BuildTurns in internal/query/query.go). */
module Columns {
  import opened Assembled
  import opened Events
  import opened Observations
  import opened Rollup
  import opened Said
  import Archive
  import Fold
  import Pricing
  import Sorting
  import Tallies

  ghost predicate NamesHold(r: TurnRow, own: seq<Event>) {
    && r.sessionID == LastOf(own, NamesSession, SessionIn, "")
    && r.turnID == FirstOf(own, Naming(TurnIDIn), TurnIDIn, "")
    && r.messageID == FirstOf(own, Naming(MessageIn), MessageIn, "")
    && r.source == FirstOf(own, Naming(SourceIn), SourceIn, "")
    && r.project == FirstOf(own, Naming(ProjectIn), ProjectIn, "")
    && r.projectID == FirstOf(own, Naming(ProjectIDIn), ProjectIDIn, "")
    && r.gitBranch == FirstOf(own, Naming(BranchIn), BranchIn, "")
    && IdentitySaid(own, r.identity)
  }

  /** The start is in Unix time. */
  ghost predicate CourseHolds(r: TurnRow, own: seq<Event>) {
    && r.ts == StartOfTurn(own) - StartOf(Tallies.EPOCH_DAY) && r.model == ModelOfTurn(own)
    && r.durationMS == LastOf(own, Times, DurationIn, 0) && r.error == LastOf(own, Fails, ErrorIn, "")
    && (r.pending <==> !Any(own, Ends))
  }

  ghost predicate RequestHolds(r: TurnRow, own: seq<Event>) {
    && (r.stream <==> Any(own, Streams))
    && Holds32(r.messageCount, LastOf(own, CountsMessages, MessagesIn, 0))
    && Holds32(r.systemBlocks, LastOf(own, CountsBlocks, BlocksIn, 0))
    && r.toolsOffered == LastOf(own, Offers, OfferedIn, [])
    && r.requestBlob == FirstOf(own, NamesRequest, RequestBlobIn, "")
  }

  /** A column of 32 bits holds what fits. */
  predicate Holds32(column: int, n: int) {
    -0x8000_0000 <= column < 0x8000_0000 && (-0x8000_0000 <= n < 0x8000_0000 ==> column == n)
  }

  ghost predicate ResponseHolds(r: TurnRow, own: seq<Event>) {
    && Holds32(r.statusCode, LastOf(own, HasStatus, StatusIn, 0))
    && r.ttfbMS == LastOf(own, HasFirstByte, FirstByteIn, 0)
    && r.stopReason == FirstOf(own, NamesStop, StopIn, "")
    && r.responseBlob == FirstOf(own, NamesResponse, ResponseBlobIn, "")
  }

  /** The tokens of the last report, writes by tier. */
  ghost predicate TokensHold(r: TurnRow, own: seq<Event>) {
    var u := LastOf(own, Reports, UsageIn, NO_USAGE);
    && r.input == u.input && r.output == u.output && r.cacheRead == u.cacheRead
    && r.write5m == (if u.split.Some? then u.split.value.fiveMin else u.cacheWrite)
    && r.write1h == (if u.split.Some? then u.split.value.oneHour else 0)
    && (forall j :: Pricing.IsLongest(r.model, j) ==> r.priced && r.cost == Pricing.CostAt(Pricing.RateAt(j), u))
    && ((forall j :: 0 <= j < Pricing.KEYS ==> !(Pricing.Key(j) <= r.model)) ==> !r.priced && r.cost == 0)
  }

  /** The names of the calls, in order. */
  ghost predicate CallsHold(r: TurnRow, own: seq<Event>) {
    var calls := Assembled.CallsIn(own);
    var first := FirstOnes(calls);
    && |r.toolCalls| == |first|
    && forall n :: 0 <= n < |first| ==>
         r.toolCalls[n] == if first[n].id == "" then first[n].name else FirstOf(calls, Named(first[n].id), NameIn, "")
  }

  ghost predicate RowSaid(r: TurnRow, own: seq<Event>) {
    && NamesHold(r, own) && CourseHolds(r, own) && RequestHolds(r, own) && ResponseHolds(r, own)
    && TokensHold(r, own) && CallsHold(r, own)
  }

  lemma CallsStay(t: Fold.Turn, own: seq<Event>)
    requires CallsSaid(Assembled.CallsIn(own), t.toolCalls)
    ensures CallsHold(ToRow(t), own)
  {
  }

  lemma CountsStay(t: Fold.Turn, own: seq<Event>)
    requires AskedSaid(own, t.facts.asked) && AnsweredSaid(own, t.facts.answered)
    ensures RequestHolds(ToRow(t), own) && ResponseHolds(ToRow(t), own)
  {
  }

  lemma TokensStay(t: Fold.Turn, own: seq<Event>)
    requires AnsweredSaid(own, t.facts.answered) && PricedAsListed(t)
    ensures TokensHold(ToRow(t), own)
  {
    var r := ToRow(t);
    assert r.model == t.Model() && t.Usage() == LastOf(own, Reports, UsageIn, NO_USAGE);
    forall j | Pricing.IsLongest(r.model, j)
      ensures r.priced && r.cost == Pricing.CostAt(Pricing.RateAt(j), t.Usage())
    {
    }
  }

  lemma NamesStay(t: Fold.Turn, own: seq<Event>)
    requires NamesSaid(own, t.facts.labels) && IdentitySaid(own, t.facts.labels.identity)
    requires PlaceSaid(own, t.facts.labels)
    ensures NamesHold(ToRow(t), own)
  {
  }

  lemma CourseStays(t: Fold.Turn, own: seq<Event>)
    requires SharedSaid(own, t.facts.shared)
    ensures CourseHolds(ToRow(t), own)
  {
  }

  /** Every column of the row of a turn is decided by the turn's own events. */
  lemma RowIsSaid(es: seq<Event>, t: Fold.Turn)
    requires t in Fold.TurnsOf(es)
    ensures RowSaid(ToRow(t), Exchange(es, t))
    ensures ToRow(t).contentBlobs == BlobsIn(Exchange(es, t)) + BlobsIn(Sorting.Filter(es, FiledWith(es, t)))
  {
    var own := Exchange(es, t);
    TurnsAreAssembled(es, t);
    NamesStay(t, own);
    CourseStays(t, own);
    CountsStay(t, own);
    TokensStay(t, own);
    CallsStay(t, own);
  }

  /** The rows of a day that is compacted are those of the turns of its events, one each, in their order. */
  lemma PartitionIsSaid(day: Day, es: seq<Event>, n: nat)
    requires n < |Fold.TurnsOf(es)|
    ensures var rows := Archive.Full(day, es).turns;
            && rows.Some? && |rows.value| == |Fold.TurnsOf(es)|
            && RowSaid(rows.value[n], Exchange(es, Fold.TurnsOf(es)[n]))
  {
    RowIsSaid(es, Fold.TurnsOf(es)[n]);
  }
}
