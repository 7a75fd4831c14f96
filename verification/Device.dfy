/** Signing a collector in by device code (internal/auth/device.go; sections 3.1 to 3.5 of RFC 8628).
    Each call of the flow is one atomic step, at a time the caller's clock gives. */
module Device {
  import opened Events

  datatype Account = Account(tenantID: string, userID: string)

  const NO_ACCOUNT := Account("", "")

  datatype Request = Request(
    deviceCode: string,
    userCode: string,
    machineID: string,
    machineLabel: string,
    expiresAt: Instant,
    interval: int,
    approved: bool,
    denied: bool,
    account: Account,
    lastPolled: Instant,
    redeemed: bool)
  {
    predicate Pending() { !approved && !denied }
  }

  const LIFETIME := 600_000
  const INTERVAL := 5_000
  const ATTEMPTS := 5

  /** The store: requests by device code, and the device code each user code stands for. */
  datatype Devices = Devices(byDevice: map<string, Request>, byUser: map<string, string>)

  /** A freshly drawn pair of codes. */
  datatype Codes = Codes(user: string, device: string)

  datatype Call =
    | Start(machineID: string, machineLabel: string, draws: seq<Codes>, now: Instant)
    | Approve(userCode: string, account: Account, now: Instant)
    | Deny(userCode: string, now: Instant)
    | Poll(deviceCode: string, now: Instant, issued: bool)

  datatype Failure = NeedsMachine | NoCode | BadDeviceCode | ExpiredToken | SlowDown | AuthorizationPending
    | AccessDenied | IssuerFailed

  /** What a call answers; the answer to an approval or a refusal names the request it was recorded on. */
  datatype Answer =
    | Started(request: Request)
    | Bound(deviceCode: string)
    | Refused(deviceCode: string)
    | Token(account: Account, machineID: string, machineLabel: string)
    | Failed(failure: Failure)

  function NewRequest(c: Codes, machineID: string, machineLabel: string, now: Instant): Request {
    Request.Request(c.device, c.user, machineID, machineLabel, now + LIFETIME, INTERVAL, false, false, NO_ACCOUNT,
                    ZERO_TIME, false)
  }

  /** The first draw whose user code no live request has, or |draws|. */
  function FirstFree(byUser: map<string, string>, draws: seq<Codes>, i: nat): (j: nat)
    requires i <= |draws|
    ensures i <= j <= |draws|
    ensures j < |draws| ==> draws[j].user !in byUser
    decreases |draws| - i
  {
    if i == |draws| || draws[i].user !in byUser then i else FirstFree(byUser, draws, i + 1)
  }

  function PendingByUserCode(s: Devices, userCode: string, now: Instant): Result<Request> {
    if userCode !in s.byUser || s.byUser[userCode] !in s.byDevice then Err(BadDeviceCode)
    else
      var r := s.byDevice[s.byUser[userCode]];
      if now > r.expiresAt then Err(ExpiredToken)
      else if !r.Pending() then Err(BadDeviceCode)
      else Ok(r)
  }

  datatype Result<T> = Ok(value: T) | Err(failure: Failure)

  function Updated(s: Devices, r: Request): Devices {
    if r.deviceCode in s.byDevice then s.(byDevice := s.byDevice[r.deviceCode := r]) else s
  }

  function Deleted(s: Devices, deviceCode: string): Devices {
    if deviceCode in s.byDevice
    then Devices(s.byDevice - {deviceCode}, s.byUser - {s.byDevice[deviceCode].userCode})
    else s
  }

  function LabelOf(r: Request): string {
    if r.machineLabel == "" then r.machineID else r.machineLabel
  }

  function PollOf(s: Devices, code: string, now: Instant, issued: bool): (Devices, Answer) {
    if code !in s.byDevice || s.byDevice[code].redeemed then (s, Failed(BadDeviceCode))
    else
      var r := s.byDevice[code];
      var polled := r.(lastPolled := now);
      if now > r.expiresAt then (s, Failed(ExpiredToken))
      else if r.lastPolled != ZERO_TIME && now - r.lastPolled < r.interval then (Updated(s, polled), Failed(SlowDown))
      else if r.denied then (Deleted(s, code), Failed(AccessDenied))
      else if !r.approved then (Updated(s, polled), Failed(AuthorizationPending))
      else
        var redeemed := Updated(s, polled.(redeemed := true));
        if issued then (Deleted(redeemed, code), Token(r.account, r.machineID, LabelOf(r)))
        else (redeemed, Failed(IssuerFailed))
  }

  function Respond(s: Devices, c: Call): (Devices, Answer) {
    match c
    case Start(machineID, machineLabel, draws, now) =>
      if machineID == "" then (s, Failed(NeedsMachine))
      else
        var i := FirstFree(s.byUser, draws, 0);
        if i == |draws| then (s, Failed(NoCode))
        else
          var r := NewRequest(draws[i], machineID, machineLabel, now);
          (Devices(s.byDevice[r.deviceCode := r], s.byUser[r.userCode := r.deviceCode]), Started(r))
    case Approve(userCode, account, now) =>
      (match PendingByUserCode(s, userCode, now)
       case Err(e) => (s, Failed(e))
       case Ok(r) => (Updated(s, r.(approved := true, account := account)), Bound(r.deviceCode)))
    case Deny(userCode, now) =>
      (match PendingByUserCode(s, userCode, now)
       case Err(e) => (s, Failed(e))
       case Ok(r) => (Updated(s, r.(denied := true)), Refused(r.deviceCode)))
    case Poll(code, now, issued) => PollOf(s, code, now, issued)
  }

  // ---------------------------------------------------------------------------------------------
  // The source's store and flow
  // ---------------------------------------------------------------------------------------------

  class MemoryDevices {
    var byDevice: map<string, Request>
    var byUser: map<string, string>

    constructor ()
      ensures State() == Devices(map[], map[])
    {
      byDevice, byUser := map[], map[];
    }

    function State(): Devices
      reads this
    {
      Devices(byDevice, byUser)
    }

    method Create(r: Request) returns (ok: bool)
      modifies this
      ensures ok <==> r.userCode !in old(byUser)
      ensures State() == if ok then Devices(old(byDevice)[r.deviceCode := r], old(byUser)[r.userCode := r.deviceCode])
                         else old(State())
    {
      if r.userCode in byUser {
        return false;
      }
      byDevice := byDevice[r.deviceCode := r];
      byUser := byUser[r.userCode := r.deviceCode];
      ok := true;
    }

    method ByUserCode(code: string) returns (r: Option<Request>)
      ensures r == if code in byUser && byUser[code] in byDevice then Some(byDevice[byUser[code]]) else None
    {
      if code !in byUser {
        return None;
      }
      var device := byUser[code];
      r := if device in byDevice then Some(byDevice[device]) else None;
    }

    method Update(r: Request) returns (ok: bool)
      modifies this
      ensures ok <==> r.deviceCode in old(byDevice)
      ensures State() == Updated(old(State()), r)
    {
      ok := r.deviceCode in byDevice;
      if ok {
        byDevice := byDevice[r.deviceCode := r];
      }
    }

    method Delete(deviceCode: string)
      modifies this
      ensures State() == Deleted(old(State()), deviceCode)
    {
      if deviceCode in byDevice {
        byUser := byUser - {byDevice[deviceCode].userCode};
        byDevice := byDevice - {deviceCode};
      }
    }
  }

  class DeviceFlow {
    const store: MemoryDevices

    constructor (store: MemoryDevices)
      ensures this.store == store
    {
      this.store := store;
    }

    /** Codes are drawn anew until one is free, a few times at most. */
    method Start(machineID: string, machineLabel: string, draws: seq<Codes>, now: Instant) returns (a: Answer)
      requires |draws| == ATTEMPTS
      modifies store
      ensures (store.State(), a) == Respond(old(store.State()), Call.Start(machineID, machineLabel, draws, now))
      ensures a == Failed(NoCode) ==> |draws| == 5 && forall d :: d in draws ==> d.user in old(store.byUser)
    {
      if machineID == "" {
        return Failed(NeedsMachine);
      }
      for attempt := 0 to |draws|
        invariant store.State() == old(store.State())
        invariant FirstFree(store.byUser, draws, 0) == FirstFree(store.byUser, draws, attempt)
        invariant forall i :: 0 <= i < attempt ==> draws[i].user in old(store.byUser)
      {
        var r := NewRequest(draws[attempt], machineID, machineLabel, now);
        var ok := store.Create(r);
        if ok {
          return Started(r);
        }
      }
      a := Failed(NoCode);
    }

    method Pending(userCode: string, now: Instant) returns (r: Result<Request>)
      ensures r == PendingByUserCode(store.State(), userCode, now)
    {
      var found := store.ByUserCode(userCode);
      if found.None? {
        return Err(BadDeviceCode);
      }
      if now > found.value.expiresAt {
        return Err(ExpiredToken);
      }
      if !found.value.Pending() {
        return Err(BadDeviceCode);
      }
      r := Ok(found.value);
    }

    method Approve(userCode: string, account: Account, now: Instant) returns (a: Answer)
      modifies store
      ensures (store.State(), a) == Respond(old(store.State()), Call.Approve(userCode, account, now))
    {
      var found := Pending(userCode, now);
      if found.Err? {
        return Failed(found.failure);
      }
      var r := found.value.(approved := true, account := account);
      var _ := store.Update(r);
      a := Bound(r.deviceCode);
    }

    method Deny(userCode: string, now: Instant) returns (a: Answer)
      modifies store
      ensures (store.State(), a) == Respond(old(store.State()), Call.Deny(userCode, now))
    {
      var found := Pending(userCode, now);
      if found.Err? {
        return Failed(found.failure);
      }
      var r := found.value.(denied := true);
      var _ := store.Update(r);
      a := Refused(r.deviceCode);
    }

    method Poll(deviceCode: string, now: Instant, issued: bool) returns (a: Answer)
      modifies store
      requires deviceCode in store.byDevice ==> store.byDevice[deviceCode].deviceCode == deviceCode
      ensures (store.State(), a) == Respond(old(store.State()), Call.Poll(deviceCode, now, issued))
    {
      if deviceCode !in store.byDevice || store.byDevice[deviceCode].redeemed {
        return Failed(BadDeviceCode);
      }
      var r := store.byDevice[deviceCode];
      if now > r.expiresAt {
        return Failed(ExpiredToken);
      }
      var tooSoon := r.lastPolled != ZERO_TIME && now - r.lastPolled < r.interval;
      r := r.(lastPolled := now);
      if tooSoon {
        var _ := store.Update(r);
        return Failed(SlowDown);
      }
      if r.denied {
        store.Delete(deviceCode);
        return Failed(AccessDenied);
      }
      if !r.approved {
        var _ := store.Update(r);
        return Failed(AuthorizationPending);
      }
      // redeemed before anything is minted
      r := r.(redeemed := true);
      var ok := store.Update(r);
      if !ok {
        return Failed(BadDeviceCode);
      }
      if !issued {
        return Failed(IssuerFailed);
      }
      store.Delete(deviceCode);
      a := Token(r.account, r.machineID, LabelOf(r));
    }
  }

  // ---------------------------------------------------------------------------------------------
  // Runs, and what an observer of the calls and answers knows
  // ---------------------------------------------------------------------------------------------

  datatype Step = Step(call: Call, answer: Answer)

  const NO_DEVICES := Devices(map[], map[])

  function After(calls: seq<Call>): Devices {
    if calls == [] then NO_DEVICES else Respond(After(calls[..|calls| - 1]), calls[|calls| - 1]).0
  }

  function History(calls: seq<Call>): (h: seq<Step>)
    ensures |h| == |calls|
  {
    if calls == [] then []
    else
      var init, last := calls[..|calls| - 1], calls[|calls| - 1];
      History(init) + [Step(last, Respond(After(init), last).1)]
  }

  /** What calls and answers so far say about one device code. */
  datatype Track = Track(
    request: Option<Request>,
    approval: Option<Account>,
    denied: bool,
    tokens: nat,
    polled: Option<Instant>)

  const UNKNOWN := Track(None, None, false, 0, None)

  function Note(t: Track, code: string, s: Step): Track {
    match s.call
    case Start(_, _, _, _) =>
      if s.answer.Started? && s.answer.request.deviceCode == code then t.(request := Some(s.answer.request)) else t
    case Approve(_, account, _) => if s.answer == Bound(code) then t.(approval := Some(account)) else t
    case Deny(_, _) => if s.answer == Refused(code) then t.(denied := true) else t
    case Poll(polledCode, now, _) =>
      if polledCode != code then t
      else if s.answer.Token? then t.(tokens := t.tokens + 1, polled := Some(now))
      else if s.answer in {Failed(SlowDown), Failed(AuthorizationPending), Failed(AccessDenied), Failed(IssuerFailed)}
      then t.(polled := Some(now))
      else t
  }

  function TrackOf(h: seq<Step>, code: string): Track {
    if h == [] then UNKNOWN else Note(TrackOf(h[..|h| - 1], code), code, h[|h| - 1])
  }

  /** Device codes are drawn from a space in which none comes up twice, and no poll happens at the zero
      instant. */
  predicate Fresh(h: seq<Step>, c: Call) {
    match c
    case Start(_, _, draws, _) => forall d :: d in draws ==> TrackOf(h, d.device).request == None
    case Poll(_, now, _) => now != ZERO_TIME
    case _ => true
  }

  predicate AllFresh(calls: seq<Call>) {
    calls == [] || (AllFresh(calls[..|calls| - 1]) && Fresh(History(calls[..|calls| - 1]), calls[|calls| - 1]))
  }

  /** What section 3.5 asks of an answer to a poll, given what came before. */
  predicate Lawful(t: Track, s: Step) {
    s.call.Poll? ==>
      && (s.answer.Token? ==>
            && t.tokens == 0 && !t.denied && t.approval == Some(s.answer.account)
            && t.request.Some? && s.answer.machineID == t.request.value.machineID
            && s.call.now <= t.request.value.expiresAt)
      && (s.answer == Failed(AccessDenied) ==> t.denied)
      && (s.answer == Failed(AuthorizationPending) ==> t.approval == None && !t.denied)
      && (s.answer.Token? || s.answer in {Failed(AuthorizationPending), Failed(AccessDenied)} ==>
            t.polled.Some? ==> s.call.now - t.polled.value >= INTERVAL)
  }

  /** A stored request is what the calls and answers about its code made it. */
  predicate Reflects(code: string, r: Request, t: Track) {
    && r.deviceCode == code && r.interval == INTERVAL
    && t.request.Some? && t.request.value.userCode == r.userCode
    && r.machineID == t.request.value.machineID && r.machineLabel == t.request.value.machineLabel
    && r.expiresAt == t.request.value.expiresAt
    && (r.approved <==> t.approval.Some?) && (r.approved ==> t.approval == Some(r.account))
    && r.denied == t.denied && !(r.approved && r.denied)
    && (if t.polled.Some? then r.lastPolled == t.polled.value != ZERO_TIME else r.lastPolled == ZERO_TIME)
    && t.tokens <= 1 && (!r.redeemed ==> t.tokens == 0)
  }

  predicate Reflected(s: Devices, h: seq<Step>, code: string) {
    var t := TrackOf(h, code);
    && t.tokens <= 1
    && (code in s.byDevice ==> Reflects(code, s.byDevice[code], t))
    && (t.request == None ==> t == UNKNOWN)
  }

  /** The two maps are inverse to each other. */
  predicate Inverse(s: Devices) {
    && (forall u :: u in s.byUser ==> s.byUser[u] in s.byDevice && s.byDevice[s.byUser[u]].userCode == u)
    && (forall d :: d in s.byDevice ==> s.byDevice[d].deviceCode == d && s.byDevice[d].userCode in s.byUser
                                        && s.byUser[s.byDevice[d].userCode] == d)
  }

  lemma TrackSnoc(h: seq<Step>, s: Step, code: string)
    ensures TrackOf(h + [s], code) == Note(TrackOf(h, code), code, s)
  {
    assert (h + [s])[..|h|] == h;
  }

  lemma StartReflects(s: Devices, h: seq<Step>, c: Call, code: string)
    requires c.Start? && Reflected(s, h, code) && Fresh(h, c) && Inverse(s)
    ensures Reflected(Respond(s, c).0, h + [Step(c, Respond(s, c).1)], code)
  {
    TrackSnoc(h, Step(c, Respond(s, c).1), code);
    var i := FirstFree(s.byUser, c.draws, 0);
    if c.machineID != "" && i < |c.draws| {
      assert c.draws[i] in c.draws;
    }
  }

  lemma AnswerReflects(s: Devices, h: seq<Step>, c: Call, code: string)
    requires (c.Approve? || c.Deny?) && Reflected(s, h, code) && Inverse(s)
    ensures Reflected(Respond(s, c).0, h + [Step(c, Respond(s, c).1)], code)
  {
    TrackSnoc(h, Step(c, Respond(s, c).1), code);
  }

  lemma PollReflects(s: Devices, h: seq<Step>, c: Call, code: string)
    requires c.Poll? && Reflected(s, h, code) && Fresh(h, c) && Inverse(s)
    ensures Reflected(Respond(s, c).0, h + [Step(c, Respond(s, c).1)], code)
    ensures c.deviceCode == code ==> Lawful(TrackOf(h, code), Step(c, Respond(s, c).1))
  {
    TrackSnoc(h, Step(c, Respond(s, c).1), code);
  }

  lemma StepReflects(s: Devices, h: seq<Step>, c: Call, code: string)
    requires Reflected(s, h, code) && Fresh(h, c) && Inverse(s)
    ensures Reflected(Respond(s, c).0, h + [Step(c, Respond(s, c).1)], code)
  {
    match c {
      case Start(_, _, _, _) => StartReflects(s, h, c, code);
      case Approve(_, _, _) => AnswerReflects(s, h, c, code);
      case Deny(_, _) => AnswerReflects(s, h, c, code);
      case Poll(_, _, _) => PollReflects(s, h, c, code);
    }
  }

  lemma StepKeepsInverse(s: Devices, h: seq<Step>, c: Call)
    requires Inverse(s) && (forall code :: Reflected(s, h, code)) && Fresh(h, c)
    ensures Inverse(Respond(s, c).0)
  {
    if c.Start? && c.machineID != "" {
      var i := FirstFree(s.byUser, c.draws, 0);
      if i < |c.draws| {
        assert c.draws[i] in c.draws;
        assert Reflected(s, h, c.draws[i].device);
      }
    }
  }

  lemma {:induction false} RunKeeps(calls: seq<Call>)
    requires AllFresh(calls)
    ensures Inverse(After(calls)) && forall code :: Reflected(After(calls), History(calls), code)
  {
    if calls != [] {
      var init, last := calls[..|calls| - 1], calls[|calls| - 1];
      RunKeeps(init);
      var s, h := After(init), History(init);
      StepKeepsInverse(s, h, last);
      forall code ensures Reflected(After(calls), History(calls), code) {
        assert Reflected(s, h, code);
        StepReflects(s, h, last, code);
      }
    }
  }

  /** Over every run, every answer to a poll is lawful: a token at most once, only after approval, never
      after refusal or expiry, for the approver's account and the requester's machine, and never sooner
      than the interval after the last poll. */
  lemma EveryAnswerIsLawful(calls: seq<Call>, i: nat)
    requires AllFresh(calls) && i < |calls| && calls[i].Poll?
    ensures Lawful(TrackOf(History(calls)[..i], calls[i].deviceCode), History(calls)[i])
    decreases |calls|
  {
    var init, last := calls[..|calls| - 1], calls[|calls| - 1];
    if i < |init| {
      EveryAnswerIsLawful(init, i);
      assert History(calls)[..i] == History(init)[..i] && History(calls)[i] == History(init)[i];
    } else {
      RunKeeps(init);
      assert Reflected(After(init), History(init), last.deviceCode);
      PollReflects(After(init), History(init), last, last.deviceCode);
      assert History(calls)[..i] == History(init);
    }
  }

  /** A device code never yields two tokens, and the two maps always invert each other. */
  lemma OneTokenPerCode(calls: seq<Call>, code: string)
    requires AllFresh(calls)
    ensures TrackOf(History(calls), code).tokens <= 1 && Inverse(After(calls))
  {
    RunKeeps(calls);
    assert Reflected(After(calls), History(calls), code);
  }
}
