/** First sign-ins that race (MemoryDirectory.Resolve in internal/auth/directory.go): the lock is given up
    while the tenant policy is asked, and what was checked is checked again before an account is made. */
module Directory {
  import opened Events

  datatype Claims = Claims(issuer: string, subject: string, email: string, name: string)

  datatype Account = Account(tenantID: string, userID: string, email: string, name: string)

  /** The key identities are filed under. */
  function Federated(c: Claims): string {
    c.issuer + "|" + c.subject
  }

  function FirstBar(s: string): nat {
    if s == "" || s[0] == '|' then 0 else 1 + FirstBar(s[1..])
  }

  lemma {:induction false} BarEndsIssuer(issuer: string, subject: string)
    requires '|' !in issuer
    ensures FirstBar(issuer + "|" + subject) == |issuer|
  {
    var all := issuer + "|" + subject;
    if issuer != "" {
      assert issuer[0] in issuer && all[0] == issuer[0];
      assert all[1..] == issuer[1..] + "|" + subject;
      BarEndsIssuer(issuer[1..], subject);
    }
  }

  /** As long as no issuer holds the separator, only the same identity has the same key. */
  lemma KeysAreIdentities(a: Claims, b: Claims)
    requires '|' !in a.issuer && '|' !in b.issuer
    ensures Federated(a) == Federated(b) <==> a.issuer == b.issuer && a.subject == b.subject
  {
    BarEndsIssuer(a.issuer, a.subject);
    BarEndsIssuer(b.issuer, b.subject);
    assert a.issuer == Federated(a)[..|a.issuer|] && a.subject == Federated(a)[|a.issuer| + 1..];
    assert b.issuer == Federated(b)[..|b.issuer|] && b.subject == Federated(b)[|b.issuer| + 1..];
  }

  predicate SameIdentity(a: Claims, b: Claims) {
    a.issuer == b.issuer && a.subject == b.subject
  }

  lemma Regroup(a: string, b: string, c: string)
    ensures (a + "|" + b) + "|" + c == a + "|" + (b + "|" + c)
  {
  }

  /** The string up to a separator, and what comes after it. */
  lemma CutAtBar(s: string)
    requires '|' in s
    ensures exists a, b :: s == a + "|" + b
  {
    var i :| 0 <= i < |s| && s[i] == '|';
    assert s == s[..i] + "|" + s[i + 1..];
  }

  lemma {:induction false} BarComesFirst(issuer: string, subject: string)
    ensures FirstBar(issuer + "|" + subject) <= |issuer|
    ensures '|' in issuer ==> FirstBar(issuer + "|" + subject) < |issuer|
  {
    var all := issuer + "|" + subject;
    if issuer != "" && all[0] != '|' {
      assert all[1..] == issuer[1..] + "|" + subject && issuer == [issuer[0]] + issuer[1..];
      BarComesFirst(issuer[1..], subject);
    }
  }

  /** An identity's key is its own if and only if neither its issuer nor its subject holds the separator. */
  lemma KeyIsItsOwnIff(a: Claims)
    ensures (forall b :: Federated(b) == Federated(a) ==> SameIdentity(a, b)) <==> '|' !in a.issuer && '|' !in a.subject
  {
    if '|' in a.issuer {
      CutAtBar(a.issuer);
      var x, y :| a.issuer == x + "|" + y;
      var b := a.(issuer := x, subject := y + "|" + a.subject);
      Regroup(x, y, a.subject);
      assert Federated(b) == Federated(a) && |x| < |a.issuer|;
    } else if '|' in a.subject {
      CutAtBar(a.subject);
      var x, y :| a.subject == x + "|" + y;
      var b := a.(issuer := a.issuer + "|" + x, subject := y);
      Regroup(a.issuer, x, y);
      assert Federated(b) == Federated(a) && |b.issuer| > |a.issuer|;
    } else {
      forall b | Federated(b) == Federated(a) ensures SameIdentity(a, b) {
        OneBar(a, b);
      }
    }
  }

  lemma BarAfterIssuer(c: Claims)
    ensures |c.issuer| < |Federated(c)| && Federated(c)[|c.issuer|] == '|'
  {
  }

  lemma BarsAreInIssuer(c: Claims, k: nat)
    requires '|' !in c.subject && k < |Federated(c)| && Federated(c)[k] == '|'
    ensures k <= |c.issuer|
  {
    assert forall i :: |c.issuer| < i < |Federated(c)| ==> Federated(c)[i] == c.subject[i - |c.issuer| - 1];
  }

  lemma OneBar(a: Claims, b: Claims)
    requires '|' !in a.issuer && '|' !in a.subject && Federated(a) == Federated(b)
    ensures SameIdentity(a, b)
  {
    BarEndsIssuer(a.issuer, a.subject);
    BarComesFirst(b.issuer, b.subject);
    BarAfterIssuer(b);
    BarsAreInIssuer(a, |b.issuer|);
    assert a.issuer == Federated(a)[..|a.issuer|] && a.subject == Federated(a)[|a.issuer| + 1..];
    assert b.issuer == Federated(b)[..|b.issuer|] && b.subject == Federated(b)[|b.issuer| + 1..];
  }

  /** The directory's tables. */
  datatype Tables = Tables(
    byFederated: map<string, string>,
    byUser: map<string, Account>,
    tenantOf: map<string, string>)

  const EMPTY := Tables(map[], map[], map[])

  function Refreshed(a: Account, c: Claims): Account {
    a.(email := c.email, name := c.name)
  }

  function NewAccount(tenantID: string, userID: string, c: Claims): Account {
    Account(tenantID, userID, c.email, c.name)
  }

  function Filed(t: Tables, key: string, a: Account): Tables {
    Tables(t.byFederated[key := a.userID], t.byUser[a.userID := a], t.tenantOf[a.userID := a.tenantID])
  }

  /** Every filed user has an account of that id, in the tenant it was assigned; no two keys share one. */
  predicate Sound(t: Tables) {
    && (forall k :: k in t.byFederated ==> t.byFederated[k] in t.byUser)
    && (forall u :: u in t.byUser ==>
          t.byUser[u].userID == u && u in t.tenantOf && t.byUser[u].tenantID == t.tenantOf[u])
    && (forall j, k :: j in t.byFederated && k in t.byFederated && j != k ==> t.byFederated[j] != t.byFederated[k])
    && t.tenantOf.Keys == t.byUser.Keys
  }

  class MemoryDirectory {
    var byFederated: map<string, string>
    var byUser: map<string, Account>
    var tenantOf: map<string, string>

    constructor ()
      ensures State() == EMPTY
    {
      byFederated, byUser, tenantOf := map[], map[], map[];
    }

    function State(): Tables
      reads this
    {
      Tables(byFederated, byUser, tenantOf)
    }

    /** The first section under the lock. */
    method Check(key: string) returns (userID: Option<string>)
      ensures userID == if key in byFederated then Some(byFederated[key]) else None
    {
      userID := if key in byFederated then Some(byFederated[key]) else None;
    }

    /** The second, for an identity that is known: its display fields are brought up to date. */
    method Refresh(userID: string, c: Claims) returns (a: Account)
      requires userID in byUser && Sound(State())
      modifies this
      ensures (State(), Done(a)) == Section(old(State()), Call(c, Known(userID)), None, "")
      ensures a == Refreshed(old(byUser)[userID], c)
      ensures a.email == c.email && a.name == c.name
      ensures a.userID == old(byUser)[userID].userID && a.tenantID == old(byUser)[userID].tenantID
      ensures State() == old(State()).(byUser := old(byUser)[userID := a])
    {
      a := byUser[userID].(email := c.email, name := c.name);
      byUser := byUser[userID := a];
    }

    /** The second, for one that was not: checked again, since another sign-in may have been faster. */
    method Insert(key: string, tenantID: string, minted: string, c: Claims) returns (a: Account)
      requires Sound(State()) && key == Federated(c)
      modifies this
      ensures (State(), Done(a)) == Section(old(State()), Call(c, Decided(tenantID)), None, minted)
      ensures if key in old(byFederated)
              then a == old(byUser)[old(byFederated)[key]] && State() == old(State())
              else a == NewAccount(tenantID, minted, c) && State() == Filed(old(State()), key, a)
      ensures key !in old(byFederated) ==>
                a.tenantID == tenantID && a.userID == minted && a.email == c.email && a.name == c.name
    {
      if key in byFederated {
        return byUser[byFederated[key]];
      }
      a := Account(tenantID, minted, c.email, c.name);
      byFederated := byFederated[key := a.userID];
      byUser := byUser[a.userID := a];
      tenantOf := tenantOf[a.userID := tenantID];
    }

    /** With nobody else signing in, the sections run through. */
    method Resolve(c: Claims, tenant: Option<string>, minted: string) returns (a: Option<Account>)
      requires Sound(State()) && minted !in byUser
      modifies this
      ensures Sound(State())
      ensures c.issuer == "" || c.subject == "" ==> a == None && State() == old(State())
      ensures c.issuer != "" && c.subject != "" && Federated(c) in old(byFederated) ==>
                a == Some(Refreshed(old(byUser)[old(byFederated)[Federated(c)]], c))
      ensures c.issuer != "" && c.subject != "" && Federated(c) !in old(byFederated) ==>
                a == if tenant.Some? then Some(NewAccount(tenant.value, minted, c)) else None
      ensures a.Some? ==> Federated(c) in byFederated && byFederated[Federated(c)] == a.value.userID
      ensures a.Some? ==> a.value.email == c.email && a.value.name == c.name
      ensures a.Some? ==> a.value.userID in byUser && byUser[a.value.userID] == a.value
      ensures a.Some? && a.value.userID in old(byUser) ==> a.value.tenantID == old(byUser)[a.value.userID].tenantID
      ensures a.Some? && a.value.userID !in old(byUser) ==> a.value.userID == minted && tenant == Some(a.value.tenantID)
      ensures (State(), if a.Some? then Done(a.value) else Failed) == Alone(old(State()), c, tenant, minted)
    {
      if c.issuer == "" || c.subject == "" {
        return None;
      }
      var known := Check(Federated(c));
      if known.Some? {
        var found := Refresh(known.value, c);
        return Some(found);
      }
      if tenant.None? {
        return None;
      }
      var made := Insert(Federated(c), tenant.value, minted, c);
      a := Some(made);
    }
  }

  // ---------------------------------------------------------------------------------------------
  // Any number of calls, their sections interleaved in any way
  // ---------------------------------------------------------------------------------------------

  /** Where one call stands. */
  datatype Phase =
    | Checking
    | Known(userID: string)
    | Asking
    | Decided(tenantID: string)
    | Done(account: Account)
    | Failed

  datatype Call = Call(claims: Claims, phase: Phase)

  datatype World = World(tables: Tables, calls: seq<Call>)

  /** A call arrives; a call goes on by one section, given what the policy says or the id that is minted. */
  datatype Move = Arrive(claims: Claims) | GoOn(call: nat, tenant: Option<string>, minted: string)

  const NOBODY := World(EMPTY, [])

  function Section(t: Tables, c: Call, tenant: Option<string>, minted: string): (Tables, Phase)
    requires c.phase.Known? ==> c.phase.userID in t.byUser
    requires forall k :: k in t.byFederated ==> t.byFederated[k] in t.byUser
  {
    var key := Federated(c.claims);
    match c.phase
    case Checking =>
      if c.claims.issuer == "" || c.claims.subject == "" then (t, Failed)
      else if key in t.byFederated then (t, Known(t.byFederated[key]))
      else (t, Asking)
    case Known(u) => (t.(byUser := t.byUser[u := Refreshed(t.byUser[u], c.claims)]),
        Done(Refreshed(t.byUser[u], c.claims)))
    case Asking => (t, if tenant.Some? then Decided(tenant.value) else Failed)
    case Decided(tenantID) =>
      if key in t.byFederated then (t, Done(t.byUser[t.byFederated[key]]))
      else (Filed(t, key, NewAccount(tenantID, minted, c.claims)), Done(NewAccount(tenantID, minted, c.claims)))
    case Done(_) => (t, c.phase)
    case Failed => (t, c.phase)
  }

  /** A call that nobody interrupts: its sections one after another. */
  function Alone(t: Tables, c: Claims, tenant: Option<string>, minted: string): (Tables, Phase)
    requires Sound(t)
  {
    var (checked, found) := Section(t, Call(c, Checking), tenant, minted);
    var (asked, decided) := Section(checked, Call(c, found), tenant, minted);
    Section(asked, Call(c, decided), tenant, minted)
  }

  /** A call in progress knows no more than the tables do. */
  predicate Fits(t: Tables, c: Call) {
    match c.phase
    case Known(u) => Federated(c.claims) in t.byFederated && t.byFederated[Federated(c.claims)] == u
    case Done(a) =>
      && Federated(c.claims) in t.byFederated && t.byFederated[Federated(c.claims)] == a.userID
      && a.userID in t.tenantOf && a.tenantID == t.tenantOf[a.userID]
    case _ => true
  }

  predicate Inv(w: World) {
    Sound(w.tables) && forall i :: 0 <= i < |w.calls| ==> Fits(w.tables, w.calls[i])
  }

  /** Minted ids are new. */
  predicate Can(w: World, m: Move) {
    m.GoOn? ==> m.call < |w.calls| && m.minted !in w.tables.byUser
  }

  function Next(w: World, m: Move): World
    requires Inv(w) && Can(w, m)
  {
    match m
    case Arrive(claims) => w.(calls := w.calls + [Call(claims, Checking)])
    case GoOn(i, tenant, minted) =>
      var (tables, phase) := Section(w.tables, w.calls[i], tenant, minted);
      World(tables, w.calls[i := w.calls[i].(phase := phase)])
  }

  /** What was filed stays filed: a key keeps its user, and a user its tenant. */
  predicate Extends(t: Tables, u: Tables) {
    && (forall k :: k in t.byFederated ==> k in u.byFederated && u.byFederated[k] == t.byFederated[k])
    && (forall id :: id in t.tenantOf ==> id in u.tenantOf && u.tenantOf[id] == t.tenantOf[id])
  }

  lemma SectionKeeps(t: Tables, c: Call, tenant: Option<string>, minted: string)
    requires Sound(t) && Fits(t, c) && minted !in t.byUser
    ensures var (u, phase) := Section(t, c, tenant, minted);
            Sound(u) && Extends(t, u) && Fits(u, c.(phase := phase))
  {
  }

  lemma FitsStill(t: Tables, u: Tables, c: Call)
    requires Fits(t, c) && Extends(t, u)
    ensures Fits(u, c)
  {
  }

  lemma NextKeepsInv(w: World, m: Move)
    requires Inv(w) && Can(w, m)
    ensures Inv(Next(w, m)) && Extends(w.tables, Next(w, m).tables)
  {
    if m.GoOn? {
      var i := m.call;
      SectionKeeps(w.tables, w.calls[i], m.tenant, m.minted);
      var now := Next(w, m);
      forall j | 0 <= j < |now.calls| ensures Fits(now.tables, now.calls[j]) {
        if j != i {
          FitsStill(w.tables, now.tables, w.calls[j]);
        }
      }
    }
  }

  ghost predicate Runs(w: World, moves: seq<Move>)
    decreases |moves|
  {
    Inv(w) && (moves == [] || (Can(w, moves[0]) && Runs(Next(w, moves[0]), moves[1..])))
  }

  ghost function After(w: World, moves: seq<Move>): (v: World)
    requires Runs(w, moves)
    ensures Inv(v)
    decreases |moves|
  {
    if moves == [] then w else After(Next(w, moves[0]), moves[1..])
  }

  lemma {:induction false} RunExtends(w: World, moves: seq<Move>)
    requires Runs(w, moves)
    ensures Extends(w.tables, After(w, moves).tables)
    decreases |moves|
  {
    if moves != [] {
      NextKeepsInv(w, moves[0]);
      RunExtends(Next(w, moves[0]), moves[1..]);
    }
  }

  /** For every interleaving: sign-ins under one key end with one user id in one tenant, those under
      different keys never share one, and a tenant once assigned is the tenant for good. Two identities have
      one key when an issuer or a subject holds the separator. */
  lemma OneAccountPerKey(moves: seq<Move>, i: nat, j: nat)
    requires Runs(NOBODY, moves)
    requires var w := After(NOBODY, moves);
             i < |w.calls| && j < |w.calls| && w.calls[i].phase.Done? && w.calls[j].phase.Done?
    ensures var w := After(NOBODY, moves);
            var a, b := w.calls[i].phase.account, w.calls[j].phase.account;
            && (a.userID == b.userID <==> Federated(w.calls[i].claims) == Federated(w.calls[j].claims))
            && (a.userID == b.userID ==> a.tenantID == b.tenantID)
            && a.userID in w.tables.byUser && w.tables.byUser[a.userID].tenantID == a.tenantID
  {
    var w := After(NOBODY, moves);
    assert Fits(w.tables, w.calls[i]) && Fits(w.tables, w.calls[j]);
  }

  /** Where no issuer holds the separator, keys are identities: an account is one identity's, and its only one. */
  lemma OneAccountPerIdentity(moves: seq<Move>, i: nat, j: nat)
    requires Runs(NOBODY, moves)
    requires var w := After(NOBODY, moves);
             i < |w.calls| && j < |w.calls| && w.calls[i].phase.Done? && w.calls[j].phase.Done?
    requires var w := After(NOBODY, moves); '|' !in w.calls[i].claims.issuer && '|' !in w.calls[j].claims.issuer
    ensures var w := After(NOBODY, moves);
            w.calls[i].phase.account.userID == w.calls[j].phase.account.userID
            <==> SameIdentity(w.calls[i].claims, w.calls[j].claims)
  {
    var w := After(NOBODY, moves);
    OneAccountPerKey(moves, i, j);
    KeysAreIdentities(w.calls[i].claims, w.calls[j].claims);
  }

  /** From any reachable directory on, what is filed is never refiled. */
  lemma FiledForGood(before: seq<Move>, after: seq<Move>)
    requires Runs(NOBODY, before) && Runs(After(NOBODY, before), after)
    ensures Extends(After(NOBODY, before).tables, After(After(NOBODY, before), after).tables)
  {
    RunExtends(After(NOBODY, before), after);
  }

  /** No call is ever stuck on an invariant: whatever has run so far, any call may go on. */
  lemma {:induction false} EveryRunGoesOn(w: World, moves: seq<Move>, m: Move)
    requires Runs(w, moves) && Can(After(w, moves), m)
    ensures Runs(w, moves + [m]) && After(w, moves + [m]) == Next(After(w, moves), m)
    decreases |moves|
  {
    if moves == [] {
      NextKeepsInv(w, m);
      assert [m][1..] == [];
    } else {
      EveryRunGoesOn(Next(w, moves[0]), moves[1..], m);
      assert (moves + [m])[1..] == moves[1..] + [m];
    }
  }
}
