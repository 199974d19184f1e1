// Whatever the six session-creating paths hand on, from a user row through
// challenge, code, session, cache entry and token, stays the owner of that row.

module Ownership {
  import opened Clock
  import opened Types
  import opened Sessions
  import opened Directory
  import opened OAuth
  import Scopes
  import opened Requests

  ghost predicate RowsOwned(t: Tables, rows: Rows) {
    forall id :: id in rows ==> Owned(t, rows[id].owner)
  }

  ghost predicate CacheOwned(t: Tables, cache: map<Id, Expiring<Owner>>) {
    forall id :: id in cache ==> Owned(t, cache[id].value)
  }

  ghost predicate ChallengesOwned(t: Tables, challenges: map<Id, Expiring<Challenge>>) {
    forall c :: c in challenges ==> Owned(t, challenges[c].value.owner)
  }

  ghost predicate CodesOwned(t: Tables, codes: map<Id, Expiring<Code>>) {
    forall c :: c in codes ==> Owned(t, codes[c].value.owner)
  }

  ghost predicate TokensOwned(t: Tables, tokens: set<Token>) {
    forall k :: k in tokens ==> Owned(t, k.owner)
  }

  ghost predicate OwnersOk(w: World) {
    && RowsOwned(w.tables, w.rows) && CacheOwned(w.tables, w.cache)
    && ChallengesOwned(w.tables, w.challenges) && CodesOwned(w.tables, w.codes) && TokensOwned(w.tables, w.tokens)
  }

  lemma UserRowOwned(t: Tables, user: Id)
    requires user in t.users
    ensures Owned(t, OwnerOf(t, user))
  {
  }

  lemma OpenOwned(w: World, d: Draw, row: Session, origin: Origin, scope: string, readsAfter: bool, down: set<Access>)
    requires OwnersOk(w) && Owned(w.tables, row.owner)
    ensures OwnersOk(OpenSession(w, d, row, origin, scope, readsAfter, down).world)
  {
  }

  lemma RotateOwned(w: World, refresh: Id, d: Draw, forgets: bool, denial: Failure, down: set<Access>)
    requires OwnersOk(w)
    ensures OwnersOk(Rotate(w, refresh, d, forgets, denial, down).world)
  {
    var found := ByHash(w.rows, Sha256(refresh));
    if found.Some? {
      var id, row := found.value, w.rows[found.value];
      var retired := Forget(Revoke(w, id), id, forgets);
      OpenOwned(retired, d, NewRow(row.owner, Sha256(d.refresh), Some(id), row.device, w.now), Rotated(id), "", true, down);
    }
  }

  lemma AuthenticateOwned(w: World, cred: Presented, cacheUp: bool, down: set<Access>)
    requires OwnersOk(w)
    ensures var reply := Authenticate(w, cred, cacheUp, down);
      && OwnersOk(reply.world) && reply.world.tables == w.tables
      && (reply.response.Known? ==> Owned(w.tables, reply.response.owner))
  {
  }

  lemma PasswordOwned(w: World, email: string, matches: bool, device: Device, d: Draw, down: set<Access>)
    requires OwnersOk(w)
    ensures OwnersOk(PasswordLogin(w, email, matches, device, d, down).world)
  {
    var identity := IdentityByEmail(w.tables, email);
    if identity.Some? && UserOf(w.tables, identity.value).Some? {
      var user := UserOf(w.tables, identity.value).value;
      UserRowOwned(w.tables, user);
      OpenOwned(w, d, NewRow(OwnerOf(w.tables, user), Sha256(d.refresh), None, device, w.now), Password, "", false, LoginDown(down));
    }
  }

  lemma MfaOwned(w: World, challenge: Id, valid: set<Id>, d: Draw, down: set<Access>)
    requires OwnersOk(w)
    ensures OwnersOk(MfaCompletion(w, challenge, valid, d, down).world)
  {
    if challenge in w.challenges {
      var c := w.challenges[challenge].value;
      OpenOwned(w.(challenges := Without(w.challenges, challenge)), d,
                NewRow(c.owner, Sha256(d.refresh), None, c.device, w.now), Mfa(challenge), "", false, down);
    }
  }

  lemma WebauthnOwned(w: World, verified: Option<Id>, agent: string, d: Draw, down: set<Access>)
    requires OwnersOk(w)
    ensures OwnersOk(WebauthnCompletion(w, verified, agent, d, down).world)
  {
    if verified.Some? && UserOf(w.tables, verified.value).Some? {
      var user := UserOf(w.tables, verified.value).value;
      UserRowOwned(w.tables, user);
      OpenOwned(w, d, NewRow(OwnerOf(w.tables, user), Sha256(d.refresh), None, Device(None, agent), w.now), Webauthn, "", false, down);
    }
  }

  lemma ExchangeOwned(env: Env, w: World, input: TokenInput, d: Draw, down: set<Access>)
    requires OwnersOk(w)
    ensures OwnersOk(CodeGrant(env, w, input, d, down).world)
  {
    if input.code in w.codes {
      var c := w.codes[input.code].value;
      OpenOwned(w.(codes := Without(w.codes, input.code)), d,
                NewRow(c.owner, Sha256(d.refresh), None, Device(None, ""), w.now), Exchanged(input.code),
                Scopes.Join(c.scopes), false, down);
    }
  }

  lemma GrowthOwned(w: World, after: Tables)
    requires OwnersOk(w) && Consistent(after) && Grows(w.tables, after)
    ensures OwnersOk(w.(tables := after))
  {
    forall o | Owned(w.tables, o) ensures Owned(after, o) {
      OwnedStays(w.tables, after, o);
    }
  }

  lemma AuthenticatedOwned(env: Env, w: World, r: Request)
    requires OwnersOk(w) && (r.Authorize? || r.LogoutSession? || r.Call?)
    ensures OwnersOk(Handle(env, w, r).world)
  {
    AuthenticateOwned(w, r.cred, r.cacheUp, r.down);
    var known := Authenticate(w, r.cred, r.cacheUp, r.down);
    if known.response.Known? {
      match r
      case Authorize(_, input, d, _, down) => AuthorizeOwned(env, known.world, known.response.owner, input, d, down);
      case LogoutSession(_, cacheUp, down) => LogoutOwned(known.world, known.response.id, cacheUp, down);
      case _ =>
    }
  }

  lemma AuthorizeOwned(env: Env, w: World, o: Owner, input: AuthorizeInput, d: Draw, down: set<Access>)
    requires OwnersOk(w) && Owned(w.tables, o)
    ensures OwnersOk(AuthorizeAs(env, w, o, input, d, down).world)
  {
  }

  lemma LogoutOwned(w: World, id: Id, cacheUp: bool, down: set<Access>)
    requires OwnersOk(w)
    ensures OwnersOk(Logout(w, id, cacheUp, down).world)
  {
  }

  lemma HousekeepingOwned(env: Env, w: World, r: Request)
    requires OwnersOk(w)
    requires r.Tick? || r.Administer? || r.PutPolicy? || r.Enroll? || r.VerifyEnrollment? || r.Unenroll? || r.Cleanup?
    ensures OwnersOk(Handle(env, w, r).world)
  {
    if r.Administer? && Consistent(r.after) && Grows(w.tables, r.after) {
      GrowthOwned(w, r.after);
    }
  }

  lemma HandleOwned(env: Env, w: World, r: Request)
    requires OwnersOk(w)
    ensures OwnersOk(Handle(env, w, r).world)
  {
    if Happens(w, r) {
      match r
      case Login(email, matches, ip, agent, d, down) =>
        PasswordOwned(w, email, matches, Device(Some(ip), agent), d, down);
      case CompleteMfa(challenge, valid, d, down) => MfaOwned(w, challenge, valid, d, down);
      case WebauthnLogin(verified, agent, d, down) => WebauthnOwned(w, verified, agent, d, down);
      case ExchangeCode(input, d, down) => ExchangeOwned(env, w, input, d, down);
      case RefreshSession(refresh, d, cacheUp, down) => RotateOwned(w, refresh, d, cacheUp, Unauthorized, down);
      case RefreshGrant(refresh, d, down) => RotateOwned(w, refresh, d, false, InvalidGrant, down);
      case Authorize(_, _, _, _, _) => AuthenticatedOwned(env, w, r);
      case LogoutSession(_, _, _) => AuthenticatedOwned(env, w, r);
      case Call(_, _, _) => AuthenticatedOwned(env, w, r);
      case _ => HousekeepingOwned(env, w, r);
    }
  }

  lemma HandleTables(env: Env, w: World, r: Request)
    ensures var after := Handle(env, w, r).world.tables;
      after == w.tables || (Consistent(after) && Grows(w.tables, after))
  {
  }

  lemma {:induction false} ServeOwned(env: Env, w: World, rs: seq<Request>)
    requires OwnersOk(w) && Consistent(w.tables)
    ensures OwnersOk(Serve(env, w, rs)) && Consistent(Serve(env, w, rs).tables)
    decreases |rs|
  {
    if rs != [] {
      HandleOwned(env, w, rs[0]);
      HandleTables(env, w, rs[0]);
      ServeOwned(env, Handle(env, w, rs[0]).world, rs[1..]);
    }
  }

  /** In every state the server can reach: each session, cache entry, challenge, code and token
      names exactly the tenant and identity of its user row, and that is the only user row of
      that identity. So which user a request acts for never depends on how it got its session. */
  lemma EverythingOwned(env: Env, w: World)
    requires Reachable(env, w)
    ensures forall id :: id in w.rows ==> Owned(w.tables, w.rows[id].owner)
    ensures forall id :: id in w.cache ==> Owned(w.tables, w.cache[id].value)
    ensures forall c :: c in w.challenges ==> Owned(w.tables, w.challenges[c].value.owner)
    ensures forall c :: c in w.codes ==> Owned(w.tables, w.codes[c].value.owner)
    ensures forall t :: t in w.tokens ==> Owned(w.tables, t.owner)
    ensures forall o, p :: Owned(w.tables, o) && Owned(w.tables, p) && o.identity == p.identity ==> o == p
  {
    var rs :| w == Serve(env, START, rs);
    ServeOwned(env, START, rs);
  }
}
