/** What every call of the device flow answers, told by the calls and answers before it (sections 3.1 to 3.5 of
    RFC 8628). */
module Grants {
  import opened Device
  import opened Events

  // ---------------------------------------------------------------------------------------------
  // What is known about one device code
  // ---------------------------------------------------------------------------------------------

  datatype Decision = Undecided | ApprovedBy(account: Account) | Denied

  /** Who asked, and when. */
  datatype Asked = Asked(userCode: string, machineID: string, machineLabel: string, at: Instant)

  /** Whether the code can still be answered: its token was handed out or its refusal reported, or minting failed. */
  datatype Ending = Open | Gone | Spent

  datatype Tale = Tale(asked: Option<Asked>, decision: Decision, polled: Option<Instant>, ending: Ending)

  const UNTOLD := Tale(None, Undecided, None, Open)

  function Tell(t: Tale, code: string, s: Step): Tale {
    match s.call
    case Start(machineID, machineLabel, _, now) =>
      if s.answer.Started? && s.answer.request.deviceCode == code
      then t.(asked := Some(Asked(s.answer.request.userCode, machineID, machineLabel, now))) else t
    case Approve(_, account, _) => if s.answer == Bound(code) then t.(decision := ApprovedBy(account)) else t
    case Deny(_, _) => if s.answer == Refused(code) then t.(decision := Denied) else t
    case Poll(device, now, _) =>
      if device != code then t
      else
        match s.answer
        case Token(_, _, _) => t.(ending := Gone)
        case Failed(AccessDenied) => t.(ending := Gone)
        case Failed(IssuerFailed) => t.(ending := Spent, polled := Some(now))
        case Failed(SlowDown) => t.(polled := Some(now))
        case Failed(AuthorizationPending) => t.(polled := Some(now))
        case _ => t
  }

  function TaleOf(h: seq<Step>, code: string): Tale {
    if h == [] then UNTOLD else Tell(TaleOf(h[..|h| - 1], code), code, h[|h| - 1])
  }

  // ---------------------------------------------------------------------------------------------
  // What each call should answer
  // ---------------------------------------------------------------------------------------------

  /** Ten minutes after it was asked for a code is good no longer. */
  predicate Expired(a: Asked, now: Instant) {
    now > a.at + 10 * 60 * 1000
  }

  function Verdict(t: Tale, now: Instant, issued: bool): Answer {
    if t.asked.None? || !t.ending.Open? then Failed(BadDeviceCode)
    else if Expired(t.asked.value, now) then Failed(ExpiredToken)
    else if t.polled.Some? && now - t.polled.value < 5 * 1000 then Failed(SlowDown)
    else
      match t.decision
      case Denied => Failed(AccessDenied)
      case Undecided => Failed(AuthorizationPending)
      case ApprovedBy(account) =>
        var a := t.asked.value;
        if !issued then Failed(IssuerFailed)
        else Token(account, a.machineID, if a.machineLabel == "" then a.machineID else a.machineLabel)
  }

  /** An approval or a refusal is taken as long as the request is undecided and in time. */
  function Taken(t: Tale, now: Instant, taken: Answer): Answer
    requires t.asked.Some?
  {
    if Expired(t.asked.value, now) then Failed(ExpiredToken)
    else if !t.decision.Undecided? then Failed(BadDeviceCode)
    else taken
  }

  /** Some code that is still kept goes by this user code. */
  ghost predicate InUse(h: seq<Step>, userCode: string) {
    exists code :: UsedBy(TaleOf(h, code), userCode)
  }

  predicate UsedBy(t: Tale, userCode: string) {
    t.asked.Some? && !t.ending.Gone? && t.asked.value.userCode == userCode
  }

  // ---------------------------------------------------------------------------------------------
  // The store is what was told
  // ---------------------------------------------------------------------------------------------

  predicate Decided(r: Request, d: Decision) {
    match d
    case Undecided => !r.approved && !r.denied
    case ApprovedBy(account) => r.approved && !r.denied && r.account == account
    case Denied => r.denied && !r.approved
  }

  predicate Matches(r: Request, code: string, t: Tale) {
    && t.asked.Some? && !t.ending.Gone?
    && r.deviceCode == code && r.userCode == t.asked.value.userCode
    && r.machineID == t.asked.value.machineID && r.machineLabel == t.asked.value.machineLabel
    && r.expiresAt == t.asked.value.at + 600_000 && r.interval == 5_000
    && Decided(r, t.decision) && (r.redeemed <==> t.ending.Spent?)
    && (if t.polled.Some? then r.lastPolled == t.polled.value != ZERO_TIME else r.lastPolled == ZERO_TIME)
  }

  predicate Told(s: Devices, h: seq<Step>, code: string) {
    var t := TaleOf(h, code);
    && (code in s.byDevice <==> t.asked.Some? && !t.ending.Gone?)
    && (code in s.byDevice ==> Matches(s.byDevice[code], code, t))
    && (t.asked.None? ==> t == UNTOLD)
    && (t.asked.Some? <==> TrackOf(h, code).request.Some?)
  }

  lemma TaleSnoc(h: seq<Step>, s: Step, code: string)
    ensures TaleOf(h + [s], code) == Tell(TaleOf(h, code), code, s)
    ensures TrackOf(h + [s], code) == Note(TrackOf(h, code), code, s)
  {
    assert (h + [s])[..|h|] == h;
  }

  lemma StartIsTold(s: Devices, h: seq<Step>, c: Call, code: string)
    requires c.Start? && Told(s, h, code) && Fresh(h, c) && Inverse(s)
    ensures Told(Respond(s, c).0, h + [Step(c, Respond(s, c).1)], code)
  {
    TaleSnoc(h, Step(c, Respond(s, c).1), code);
    var i := FirstFree(s.byUser, c.draws, 0);
    if c.machineID != "" && i < |c.draws| {
      assert c.draws[i] in c.draws;
    }
  }

  /** What a call leaves of a request: as it was, or changed in this way. */
  predicate Leaves(s: Devices, after: Devices, code: string) {
    && (code in after.byDevice <==> code in s.byDevice)
    && (code in s.byDevice ==> after.byDevice[code] == s.byDevice[code])
  }

  predicate Settles(s: Devices, after: Devices, code: string, settled: Request) {
    && code in s.byDevice && s.byDevice[code].Pending()
    && code in after.byDevice && after.byDevice[code] == settled
  }

  lemma ApprovalSettles(s: Devices, c: Call, code: string)
    requires c.Approve? && Inverse(s)
    ensures var (after, answer) := Respond(s, c);
            && (answer.Bound? || answer.Failed?)
            && (answer != Bound(code) ==> Leaves(s, after, code))
            && (answer == Bound(code) ==>
                  && code in s.byDevice
                  && Settles(s, after, code, s.byDevice[code].(approved := true, account := c.account)))
  {
  }

  lemma RefusalSettles(s: Devices, c: Call, code: string)
    requires c.Deny? && Inverse(s)
    ensures var (after, answer) := Respond(s, c);
            && (answer.Refused? || answer.Failed?)
            && (answer != Refused(code) ==> Leaves(s, after, code))
            && (answer == Refused(code) ==>
                  && code in s.byDevice
                  && Settles(s, after, code, s.byDevice[code].(denied := true)))
  {
  }

  lemma LeftIsTold(s: Devices, after: Devices, h: seq<Step>, st: Step, code: string)
    requires (st.call.Approve? && st.answer != Bound(code)) || (st.call.Deny? && st.answer != Refused(code))
    requires Told(s, h, code) && Leaves(s, after, code) && !st.answer.Started?
    ensures Told(after, h + [st], code)
  {
    TaleSnoc(h, st, code);
  }

  lemma ApprovedIsTold(s: Devices, after: Devices, h: seq<Step>, st: Step, code: string)
    requires Told(s, h, code) && code in s.byDevice && st.call.Approve? && st.answer == Bound(code)
    requires Settles(s, after, code, s.byDevice[code].(approved := true, account := st.call.account))
    ensures Told(after, h + [st], code)
  {
    TaleSnoc(h, st, code);
  }

  lemma RefusedIsTold(s: Devices, after: Devices, h: seq<Step>, st: Step, code: string)
    requires Told(s, h, code) && code in s.byDevice && st.call.Deny? && st.answer == Refused(code)
    requires Settles(s, after, code, s.byDevice[code].(denied := true))
    ensures Told(after, h + [st], code)
  {
    TaleSnoc(h, st, code);
  }

  lemma DecisionIsTold(s: Devices, h: seq<Step>, c: Call, code: string)
    requires (c.Approve? || c.Deny?) && Told(s, h, code) && Inverse(s)
    ensures Told(Respond(s, c).0, h + [Step(c, Respond(s, c).1)], code)
  {
    var (after, answer) := Respond(s, c);
    if c.Approve? {
      ApprovalSettles(s, c, code);
      if answer == Bound(code) {
        ApprovedIsTold(s, after, h, Step(c, answer), code);
      } else {
        LeftIsTold(s, after, h, Step(c, answer), code);
      }
    } else {
      RefusalSettles(s, c, code);
      if answer == Refused(code) {
        RefusedIsTold(s, after, h, Step(c, answer), code);
      } else {
        LeftIsTold(s, after, h, Step(c, answer), code);
      }
    }
  }

  lemma PollVerdict(s: Devices, h: seq<Step>, c: Call)
    requires c.Poll? && Told(s, h, c.deviceCode)
    ensures Respond(s, c).1 == Verdict(TaleOf(h, c.deviceCode), c.now, c.issued)
  {
  }

  /** What a poll leaves of the request polled for. */
  predicate Polled(s: Devices, after: Devices, code: string, now: Instant, answer: Answer) {
    match answer
    case Token(_, _, _) => code in s.byDevice && code !in after.byDevice
    case Failed(AccessDenied) => code in s.byDevice && code !in after.byDevice
    case Failed(IssuerFailed) =>
      && code in s.byDevice && code in after.byDevice
      && after.byDevice[code] == s.byDevice[code].(lastPolled := now, redeemed := true)
    case Failed(SlowDown) => StillPolls(s, after, code, now)
    case Failed(AuthorizationPending) => StillPolls(s, after, code, now)
    case Failed(BadDeviceCode) => Leaves(s, after, code)
    case Failed(ExpiredToken) => Leaves(s, after, code)
    case _ => false
  }

  predicate StillPolls(s: Devices, after: Devices, code: string, now: Instant) {
    && code in s.byDevice && code in after.byDevice && !s.byDevice[code].redeemed
    && after.byDevice[code] == s.byDevice[code].(lastPolled := now)
  }

  lemma PollLeaves(s: Devices, c: Call)
    requires c.Poll? && (c.deviceCode in s.byDevice ==> s.byDevice[c.deviceCode].deviceCode == c.deviceCode)
    ensures Polled(s, Respond(s, c).0, c.deviceCode, c.now, Respond(s, c).1)
  {
  }

  lemma PolledIsTold(s: Devices, after: Devices, h: seq<Step>, st: Step)
    requires st.call.Poll? && Told(s, h, st.call.deviceCode) && st.call.now != ZERO_TIME
    requires Polled(s, after, st.call.deviceCode, st.call.now, st.answer)
    ensures Told(after, h + [st], st.call.deviceCode)
  {
    TaleSnoc(h, st, st.call.deviceCode);
  }

  lemma OwnPollIsTold(s: Devices, h: seq<Step>, c: Call)
    requires c.Poll? && Told(s, h, c.deviceCode) && Fresh(h, c)
    ensures Told(Respond(s, c).0, h + [Step(c, Respond(s, c).1)], c.deviceCode)
  {
    PollLeaves(s, c);
    PolledIsTold(s, Respond(s, c).0, h, Step(c, Respond(s, c).1));
  }

  lemma OtherPollIsTold(s: Devices, h: seq<Step>, c: Call, code: string)
    requires c.Poll? && Told(s, h, code) && c.deviceCode != code && Inverse(s)
    ensures Told(Respond(s, c).0, h + [Step(c, Respond(s, c).1)], code)
  {
    TaleSnoc(h, Step(c, Respond(s, c).1), code);
  }

  lemma PollIsTold(s: Devices, h: seq<Step>, c: Call, code: string)
    requires c.Poll? && Told(s, h, code) && Fresh(h, c) && Inverse(s)
    ensures Told(Respond(s, c).0, h + [Step(c, Respond(s, c).1)], code)
  {
    if c.deviceCode == code {
      OwnPollIsTold(s, h, c);
    } else {
      OtherPollIsTold(s, h, c, code);
    }
  }

  lemma {:induction false} TalesAreTrue(calls: seq<Call>)
    requires AllFresh(calls)
    ensures Inverse(After(calls)) && forall code :: Told(After(calls), History(calls), code)
  {
    RunKeeps(calls);
    if calls != [] {
      var init, last := calls[..|calls| - 1], calls[|calls| - 1];
      TalesAreTrue(init);
      var s, h := After(init), History(init);
      forall code ensures Told(After(calls), History(calls), code) {
        assert Told(s, h, code);
        match last {
          case Start(_, _, _, _) => StartIsTold(s, h, last, code);
          case Approve(_, _, _) => DecisionIsTold(s, h, last, code);
          case Deny(_, _) => DecisionIsTold(s, h, last, code);
          case Poll(_, _, _) => PollIsTold(s, h, last, code);
        }
      }
    }
  }

  // ---------------------------------------------------------------------------------------------
  // So every answer is the right one
  // ---------------------------------------------------------------------------------------------

  /** The answer to a poll is decided by what came before: unknown or used up, expired ten minutes after it was asked
      for, too soon within five seconds of the last poll, and otherwise what was decided, the token of an approval
      included. */
  lemma PollAnswers(calls: seq<Call>, c: Call)
    requires AllFresh(calls) && c.Poll?
    ensures Respond(After(calls), c).1 == Verdict(TaleOf(History(calls), c.deviceCode), c.now, c.issued)
  {
    TalesAreTrue(calls);
    assert Told(After(calls), History(calls), c.deviceCode);
    PollVerdict(After(calls), History(calls), c);
  }

  lemma NamedRequest(calls: seq<Call>, code: string)
    requires AllFresh(calls) && TaleOf(History(calls), code).asked.Some? && !TaleOf(History(calls), code).ending.Gone?
    ensures var s, u := After(calls), TaleOf(History(calls), code).asked.value.userCode;
            u in s.byUser && s.byUser[u] == code && code in s.byDevice
  {
    TalesAreTrue(calls);
    assert Told(After(calls), History(calls), code);
  }

  /** A request that is undecided and in time can be approved or refused under its user code. */
  lemma DecisionsAreTaken(calls: seq<Call>, code: string, account: Account, now: Instant)
    requires AllFresh(calls) && TaleOf(History(calls), code).asked.Some?
    requires !TaleOf(History(calls), code).ending.Gone?
    ensures var t := TaleOf(History(calls), code);
            && Respond(After(calls), Approve(t.asked.value.userCode, account, now)).1 == Taken(t, now, Bound(code))
            && Respond(After(calls), Deny(t.asked.value.userCode, now)).1 == Taken(t, now, Refused(code))
  {
    NamedRequest(calls, code);
    TalesAreTrue(calls);
    assert Told(After(calls), History(calls), code);
  }

  lemma InUseIff(calls: seq<Call>, userCode: string)
    requires AllFresh(calls)
    ensures userCode in After(calls).byUser <==> InUse(History(calls), userCode)
  {
    TalesAreTrue(calls);
    var s, h := After(calls), History(calls);
    if userCode in s.byUser {
      assert Told(s, h, s.byUser[userCode]);
      assert UsedBy(TaleOf(h, s.byUser[userCode]), userCode);
    }
    if code :| UsedBy(TaleOf(h, code), userCode) {
      NamedRequest(calls, code);
    }
  }

  /** Under any other user code they are refused. */
  lemma UnknownCodesAreBad(calls: seq<Call>, userCode: string, account: Account, now: Instant)
    requires AllFresh(calls) && !InUse(History(calls), userCode)
    ensures Respond(After(calls), Approve(userCode, account, now)).1 == Failed(BadDeviceCode)
    ensures Respond(After(calls), Deny(userCode, now)).1 == Failed(BadDeviceCode)
  {
    InUseIff(calls, userCode);
  }

  /** What a new request holds. */
  predicate Asks(r: Request, drawn: Codes, machineID: string, machineLabel: string, now: Instant) {
    && r.userCode == drawn.user && r.deviceCode == drawn.device
    && r.machineID == machineID && r.machineLabel == machineLabel
    && r.expiresAt == now + 10 * 60 * 1000 && r.interval == 5 * 1000 && !r.approved && !r.denied && !r.redeemed
  }

  ghost predicate FirstUnused(h: seq<Step>, draws: seq<Codes>, i: int) {
    0 <= i < |draws| && !InUse(h, draws[i].user) && forall j :: 0 <= j < i ==> InUse(h, draws[j].user)
  }

  ghost predicate NoneUnused(h: seq<Step>, draws: seq<Codes>) {
    forall i :: 0 <= i < |draws| ==> InUse(h, draws[i].user)
  }

  lemma {:induction false} FirstFreeIsFirst(byUser: map<string, string>, draws: seq<Codes>, i: nat)
    requires i <= |draws|
    ensures var j := FirstFree(byUser, draws, i);
            (j < |draws| ==> draws[j].user !in byUser) && forall k :: i <= k < j ==> draws[k].user in byUser
    decreases |draws| - i
  {
    if i < |draws| && draws[i].user in byUser {
      FirstFreeIsFirst(byUser, draws, i + 1);
    }
  }

  lemma FirstFreeIsUnused(calls: seq<Call>, draws: seq<Codes>, i: int)
    requires AllFresh(calls)
    ensures FirstUnused(History(calls), draws, i) <==> i == FirstFree(After(calls).byUser, draws, 0) < |draws|
  {
    var j := FirstFree(After(calls).byUser, draws, 0);
    FirstFreeIsFirst(After(calls).byUser, draws, 0);
    forall k | 0 <= k <= j && k < |draws| ensures InUse(History(calls), draws[k].user) <==> k < j {
      InUseIff(calls, draws[k].user);
    }
  }

  lemma NoneIsUnused(calls: seq<Call>, draws: seq<Codes>)
    requires AllFresh(calls) && NoneUnused(History(calls), draws)
    ensures FirstFree(After(calls).byUser, draws, 0) == |draws|
  {
    var j := FirstFree(After(calls).byUser, draws, 0);
    if j < |draws| {
      InUseIff(calls, draws[j].user);
    }
  }

  /** A start takes the first draw whose user code is not in use; it needs a machine, and a draw that is free. */
  lemma StartAnswers(calls: seq<Call>, machineID: string, machineLabel: string, draws: seq<Codes>, now: Instant)
    requires AllFresh(calls)
    ensures var h, a := History(calls), Respond(After(calls), Start(machineID, machineLabel, draws, now)).1;
            && (machineID == "" ==> a == Failed(NeedsMachine))
            && (machineID != "" && NoneUnused(h, draws) ==> a == Failed(NoCode))
            && forall i :: machineID != "" && FirstUnused(h, draws, i) ==>
                 a.Started? && Asks(a.request, draws[i], machineID, machineLabel, now)
  {
    if NoneUnused(History(calls), draws) {
      NoneIsUnused(calls, draws);
    }
    forall i | FirstUnused(History(calls), draws, i) ensures i == FirstFree(After(calls).byUser, draws, 0) {
      FirstFreeIsUnused(calls, draws, i);
    }
  }
}
