/** What a turn says, told by the observations it was made of and not by how they are folded: which of them decides
    each field, which tool calls it lists, what it costs (BuildTurns in internal/query/query.go). */
module Observations {
  import opened Events
  import opened Fold
  import opened Replay
  import opened Said
  import Growth
  import Pricing
  import Sorting
  import TurnFacts

  // ---------------------------------------------------------------------------------------------
  // What an event says about a field
  // ---------------------------------------------------------------------------------------------

  function SessionIn(ev: Event): string { ev.sessionID }
  function TurnIDIn(ev: Event): string { ev.turnID }
  function TenantIn(ev: Event): string { ev.identity.tenantID }
  function UserIn(ev: Event): string { ev.identity.userID }
  function MachineIn(ev: Event): string { ev.identity.machineID }
  function MessageIn(ev: Event): string { ev.messageID }
  function SourceIn(ev: Event): string { ev.source }
  function ProjectIn(ev: Event): string { ev.project }
  function ProjectIDIn(ev: Event): string { ev.projectID }
  function BranchIn(ev: Event): string { ev.gitBranch }
  function EffortIn(ev: Event): string { ev.effort }
  function ModelIn(ev: Event): string { ev.model }
  function StopIn(ev: Event): string { ev.stopReason }
  function ErrorIn(ev: Event): string { ev.error }
  function RequestBlobIn(ev: Event): string { ev.requestBlob }
  function ResponseBlobIn(ev: Event): string { ev.responseBlob }
  function TimeIn(ev: Event): Instant { ev.timestamp }
  function DurationIn(ev: Event): int { ev.durationMS }
  function StatusIn(ev: Event): int { ev.statusCode }
  function FirstByteIn(ev: Event): int { ev.ttfbMS }
  function MessagesIn(ev: Event): int { ev.messageCount }
  function BlocksIn(ev: Event): int { ev.systemBlocks }
  function OfferedIn(ev: Event): seq<string> { ev.toolsOffered }
  function UsageIn(ev: Event): Usage { if ev.usage.Some? then ev.usage.value else NO_USAGE }

  function Naming(name: Event -> string): Event -> bool {
    (ev: Event) => name(ev) != ""
  }

  predicate NamesSession(ev: Event) { ev.sessionID != "" }
  predicate InRepo(ev: Event) { ev.inRepo }
  predicate Subagent(ev: Event) { ev.subagent }
  predicate Streams(ev: Event) { ev.kind == Request && ev.stream }
  predicate CountsMessages(ev: Event) { ev.kind == Request && ev.messageCount != 0 }
  predicate CountsBlocks(ev: Event) { ev.kind == Request && ev.systemBlocks != 0 }
  predicate Offers(ev: Event) { ev.kind == Request && ev.toolsOffered != [] }
  predicate Reports(ev: Event) { ev.kind == Response && ev.usage.Some? }
  predicate HasStatus(ev: Event) { ev.kind == Response && ev.statusCode != 0 }
  predicate HasFirstByte(ev: Event) { ev.kind == Response && ev.ttfbMS != 0 }
  predicate NamesAsked(ev: Event) { ev.kind == Request && ev.model != "" }
  predicate NamesServed(ev: Event) { ev.kind == Response && ev.model != "" }
  predicate NamesRequest(ev: Event) { ev.kind == Request && ev.requestBlob != "" }
  predicate NamesResponse(ev: Event) { ev.kind == Response && ev.responseBlob != "" }
  predicate NamesStop(ev: Event) { ev.kind == Response && ev.stopReason != "" }
  predicate Asks(ev: Event) { ev.kind == Request }
  predicate Fails(ev: Event) { ev.kind == Failure }
  predicate Ends(ev: Event) { ev.kind == Response || ev.kind == Failure }
  predicate EndsAt(ev: Event) { Ends(ev) && ev.timestamp != ZERO_TIME }
  predicate Times(ev: Event) { ev.kind == Failure || (ev.kind == Response && ev.durationMS != 0) }

  // ---------------------------------------------------------------------------------------------
  // What the observations of a turn make of its fields
  // ---------------------------------------------------------------------------------------------

  /** Each event naming a session renames it; of everything else that is named, the first name stays. */
  ghost predicate NamesSaid(es: seq<Event>, l: Labels) {
    && l.sessionID == LastOf(es, NamesSession, SessionIn, "")
    && l.turnID == FirstOf(es, Naming(TurnIDIn), TurnIDIn, "")
    && l.messageID == FirstOf(es, Naming(MessageIn), MessageIn, "")
  }

  /** Each part of the identity from whoever knew it first. */
  ghost predicate IdentitySaid(es: seq<Event>, i: Identity) {
    && i.tenantID == FirstOf(es, Naming(TenantIn), TenantIn, "")
    && i.userID == FirstOf(es, Naming(UserIn), UserIn, "")
    && i.machineID == FirstOf(es, Naming(MachineIn), MachineIn, "")
  }

  /** A flag is up if it ever was. */
  ghost predicate PlaceSaid(es: seq<Event>, l: Labels) {
    && l.source == FirstOf(es, Naming(SourceIn), SourceIn, "")
    && l.project == FirstOf(es, Naming(ProjectIn), ProjectIn, "")
    && l.projectID == FirstOf(es, Naming(ProjectIDIn), ProjectIDIn, "")
    && l.gitBranch == FirstOf(es, Naming(BranchIn), BranchIn, "")
    && l.effort == FirstOf(es, Naming(EffortIn), EffortIn, "")
    && (l.inRepo <==> Any(es, InRepo)) && (l.subagent <==> Any(es, Subagent))
  }

  /** A turn starts when it was last asked for, if that is dated, and otherwise when it was first answered or failed
      after that. */
  function StartOfTurn(es: seq<Event>): Instant {
    var asked := LastOf(es, Asks, TimeIn, ZERO_TIME);
    if asked != ZERO_TIME then asked else FirstOf(AfterLast(es, Asks), EndsAt, TimeIn, ZERO_TIME)
  }

  /** The model that last answered, or without one the first that was asked for. */
  function ModelOfTurn(es: seq<Event>): string {
    var served := LastOf(es, NamesServed, ModelIn, "");
    if served != "" then served else FirstOf(es, NamesAsked, ModelIn, "")
  }

  /** The last failure's text and, unless a response measured later, its duration. */
  ghost predicate SharedSaid(es: seq<Event>, h: Shared) {
    && h.startedAt == StartOfTurn(es) && h.model == ModelOfTurn(es)
    && h.durationMS == LastOf(es, Times, DurationIn, 0)
    && h.error == LastOf(es, Fails, ErrorIn, "")
    && (h.pending <==> !Any(es, Ends))
  }

  ghost predicate AskedSaid(es: seq<Event>, q: Asked) {
    && (q.stream <==> Any(es, Streams))
    && q.messageCount == LastOf(es, CountsMessages, MessagesIn, 0)
    && q.systemBlocks == LastOf(es, CountsBlocks, BlocksIn, 0)
    && q.toolsOffered == LastOf(es, Offers, OfferedIn, [])
    && q.requestBlob == FirstOf(es, NamesRequest, RequestBlobIn, "")
  }

  /** The usage is the last one reported. */
  ghost predicate AnsweredSaid(es: seq<Event>, a: Answered) {
    && a.usage == LastOf(es, Reports, UsageIn, NO_USAGE)
    && a.statusCode == LastOf(es, HasStatus, StatusIn, 0)
    && a.ttfbMS == LastOf(es, HasFirstByte, FirstByteIn, 0)
    && a.stopReason == FirstOf(es, NamesStop, StopIn, "")
    && a.responseBlob == FirstOf(es, NamesResponse, ResponseBlobIn, "")
  }

  ghost predicate FactsSaid(es: seq<Event>, f: Facts) {
    && NamesSaid(es, f.labels) && IdentitySaid(es, f.labels.identity) && PlaceSaid(es, f.labels)
    && SharedSaid(es, f.shared) && AskedSaid(es, f.asked) && AnsweredSaid(es, f.answered)
  }

  // ---------------------------------------------------------------------------------------------
  // Field by field
  // ---------------------------------------------------------------------------------------------

  /** One group of a turn's fields as the events leave it, one after another. */
  function LabelsOf(es: seq<Event>): Labels {
    if es == [] then BLANK_FACTS.labels else RunLabels(LabelsOf(es[..|es| - 1]), LabelsEffectOf(es[|es| - 1]))
  }

  function SharedOf(es: seq<Event>): Shared {
    if es == [] then BLANK_FACTS.shared else RunShared(SharedOf(es[..|es| - 1]), SharedEffectOf(es[|es| - 1]))
  }

  function AskedOf(es: seq<Event>): Asked {
    if es == [] then BLANK_FACTS.asked else RunAsked(AskedOf(es[..|es| - 1]), AskedEffectOf(es[|es| - 1]))
  }

  function AnsweredOf(es: seq<Event>): Answered {
    if es == [] then BLANK_FACTS.answered else RunAnswered(AnsweredOf(es[..|es| - 1]), AnsweredEffectOf(es[|es| - 1]))
  }

  lemma {:induction false} GroupsFold(es: seq<Event>)
    ensures FoldTurn(BLANK_TURN, es).facts == Facts(LabelsOf(es), SharedOf(es), AskedOf(es), AnsweredOf(es))
    decreases |es|
  {
    if es != [] {
      GroupsFold(es[..|es| - 1]);
    }
  }

  /** Filling what is empty is letting the first decide. */
  lemma FirstNamed(es: seq<Event>, ev: Event, name: Event -> string)
    ensures FirstOf(es + [ev], Naming(name), name, "")
         == if FirstOf(es, Naming(name), name, "") == "" then name(ev) else FirstOf(es, Naming(name), name, "")
  {
    FirstOfSnoc(es, ev, Naming(name), name, "");
  }

  lemma {:induction false} NamesAreSaid(es: seq<Event>)
    ensures NamesSaid(es, LabelsOf(es))
    decreases |es|
  {
    if es != [] {
      var init, last := es[..|es| - 1], es[|es| - 1];
      NamesAreSaid(init);
      assert es == init + [last];
      FirstNamed(init, last, TurnIDIn);
      FirstNamed(init, last, MessageIn);
    }
  }

  lemma {:induction false} IdentityIsSaid(es: seq<Event>)
    ensures IdentitySaid(es, LabelsOf(es).identity)
    decreases |es|
  {
    if es != [] {
      var init, last := es[..|es| - 1], es[|es| - 1];
      IdentityIsSaid(init);
      assert es == init + [last];
      FirstNamed(init, last, TenantIn);
      FirstNamed(init, last, UserIn);
      FirstNamed(init, last, MachineIn);
    }
  }

  lemma {:induction false} PlaceIsSaid(es: seq<Event>)
    ensures PlaceSaid(es, LabelsOf(es))
    decreases |es|
  {
    if es != [] {
      var init, last := es[..|es| - 1], es[|es| - 1];
      PlaceIsSaid(init);
      assert es == init + [last];
      FirstNamed(init, last, SourceIn);
      FirstNamed(init, last, ProjectIn);
      FirstNamed(init, last, ProjectIDIn);
      FirstNamed(init, last, BranchIn);
      FirstNamed(init, last, EffortIn);
      AnySnoc(init, last, InRepo);
      AnySnoc(init, last, Subagent);
    }
  }

  /** One more event, seen from the start of a turn. */
  lemma StartOneMore(es: seq<Event>, ev: Event)
    ensures StartOfTurn(es + [ev]) == if ev.kind == Request then ev.timestamp
                                      else if Ends(ev) && StartOfTurn(es) == ZERO_TIME then ev.timestamp
                                      else StartOfTurn(es)
  {
    assert (es + [ev])[..|es|] == es;
    FirstOfSnoc(AfterLast(es, Asks), ev, EndsAt, TimeIn, ZERO_TIME);
  }

  lemma ModelOneMore(es: seq<Event>, ev: Event)
    ensures ModelOfTurn(es + [ev]) == if ev.kind == Response && ev.model != "" then ev.model
                                      else if ev.kind == Request && ModelOfTurn(es) == "" then ev.model
                                      else ModelOfTurn(es)
  {
    assert (es + [ev])[..|es|] == es;
    FirstOfSnoc(es, ev, NamesAsked, ModelIn, "");
  }

  lemma {:induction false} SharedIsSaid(es: seq<Event>)
    ensures SharedSaid(es, SharedOf(es))
    decreases |es|
  {
    if es != [] {
      var init, last := es[..|es| - 1], es[|es| - 1];
      SharedIsSaid(init);
      assert es == init + [last];
      StartOneMore(init, last);
      ModelOneMore(init, last);
      AnySnoc(init, last, Ends);
    }
  }

  lemma {:induction false} AskedIsSaid(es: seq<Event>)
    ensures AskedSaid(es, AskedOf(es))
    decreases |es|
  {
    if es != [] {
      var init, last := es[..|es| - 1], es[|es| - 1];
      AskedIsSaid(init);
      assert es == init + [last];
      AnySnoc(init, last, Streams);
      FirstOfSnoc(init, last, NamesRequest, RequestBlobIn, "");
    }
  }

  lemma {:induction false} AnsweredIsSaid(es: seq<Event>)
    ensures AnsweredSaid(es, AnsweredOf(es))
    decreases |es|
  {
    if es != [] {
      var init, last := es[..|es| - 1], es[|es| - 1];
      AnsweredIsSaid(init);
      assert es == init + [last];
      FirstOfSnoc(init, last, NamesStop, StopIn, "");
      FirstOfSnoc(init, last, NamesResponse, ResponseBlobIn, "");
    }
  }

  lemma FactsAreSaid(es: seq<Event>)
    ensures FactsSaid(es, FoldTurn(BLANK_TURN, es).facts)
  {
    GroupsFold(es);
    NamesAreSaid(es);
    IdentityIsSaid(es);
    PlaceIsSaid(es);
    SharedIsSaid(es);
    AskedIsSaid(es);
    AnsweredIsSaid(es);
  }
}
