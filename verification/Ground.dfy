// What holds of every reachable state and lets each request have one answer:
// lookups find at most one row, every name in use was drawn, and the stores
// hold nothing that has expired.

module Ground {
  import opened Clock
  import opened Types
  import opened Sessions
  import opened Directory
  import opened OAuth
  import Scopes
  import opened Requests
  import SerialRotation
  import Ownership
  import Coverage

  /** Redis drops a challenge or a code at the moment it expires. */
  ghost predicate OnTime(w: World) {
    && (forall c :: c in w.challenges ==> Timed(w.challenges[c], w.challenges[c].value.expiresAt, w.now))
    && (forall c :: c in w.codes ==> Timed(w.codes[c], w.codes[c].value.expiresAt, w.now))
  }

  /** Challenges and codes are the old ones, or live exactly until they expire; only an authorize
      request issues a code. */
  ghost predicate KeepsTime(w: World, v: World, issues: bool) {
    && v.now == w.now
    && (forall c :: c in v.challenges ==> Stays(w.challenges, c, v.challenges[c]) || Timed(v.challenges[c], v.challenges[c].value.expiresAt, w.now))
    && (forall c :: c in v.codes ==> Stays(w.codes, c, v.codes[c]) || (issues && Timed(v.codes[c], v.codes[c].value.expiresAt, w.now)))
  }

  predicate Stays<V(==)>(m: map<Id, Expiring<V>>, c: Id, e: Expiring<V>) {
    c in m && m[c] == e
  }

  predicate Timed<V>(e: Expiring<V>, expiresAt: Time, now: Time) {
    now < e.deadline == expiresAt
  }

  lemma OpenKeepsTime(w: World, d: Draw, row: Session, origin: Origin, scope: string, readsAfter: bool, down: set<Access>)
    ensures var v := OpenSession(w, d, row, origin, scope, readsAfter, down).world;
      v.codes == w.codes && v.challenges == w.challenges && v.now == w.now
  {
  }

  lemma LoginKeepsTime(w: World, email: string, matches: bool, device: Device, d: Draw, down: set<Access>)
    ensures KeepsTime(w, PasswordLogin(w, email, matches, device, d, down).world, false)
  {
    hide OpenSession, HasVerifiedFactor;
    var identity := IdentityByEmail(w.tables, email);
    if identity.Some? && UserOf(w.tables, identity.value).Some? {
      var owner := OwnerOf(w.tables, UserOf(w.tables, identity.value).value);
      OpenKeepsTime(w, d, NewRow(owner, Sha256(d.refresh), None, device, w.now), Password, "", false, LoginDown(down));
    }
  }

  lemma MfaKeepsTime(w: World, c: Id, valid: set<Id>, d: Draw, down: set<Access>)
    ensures KeepsTime(w, MfaCompletion(w, c, valid, d, down).world, false)
  {
    hide OpenSession, TotpAccepts;
    if c in w.challenges {
      var h := w.challenges[c].value;
      OpenKeepsTime(w.(challenges := Without(w.challenges, c)), d, NewRow(h.owner, Sha256(d.refresh), None, h.device, w.now),
                    Mfa(c), "", false, down);
    }
  }

  lemma WebauthnKeepsTime(w: World, identity: Option<Id>, agent: string, d: Draw, down: set<Access>)
    ensures KeepsTime(w, WebauthnCompletion(w, identity, agent, d, down).world, false)
  {
    hide OpenSession;
    if identity.Some? && UserOf(w.tables, identity.value).Some? {
      var owner := OwnerOf(w.tables, UserOf(w.tables, identity.value).value);
      OpenKeepsTime(w, d, NewRow(owner, Sha256(d.refresh), None, Device(None, agent), w.now), Webauthn, "", false, down);
    }
  }

  lemma ExchangeKeepsTime(env: Env, w: World, input: TokenInput, d: Draw, down: set<Access>)
    ensures KeepsTime(w, CodeGrant(env, w, input, d, down).world, false)
  {
    hide OpenSession, CodeAccepted, ClientAuthenticated;
    if input.code in w.codes {
      var c := w.codes[input.code].value;
      OpenKeepsTime(w.(codes := Without(w.codes, input.code)), d,
                    NewRow(c.owner, Sha256(d.refresh), None, Device(None, ""), w.now), Exchanged(input.code),
                    Scopes.Join(c.scopes), false, down);
    }
  }

  lemma RotateKeepsTime(w: World, refresh: Id, d: Draw, forgets: bool, denial: Failure, down: set<Access>)
    ensures KeepsTime(w, Rotate(w, refresh, d, forgets, denial, down).world, false)
  {
    hide OpenSession;
    var found := ByHash(w.rows, Sha256(refresh));
    if found.Some? {
      var id, row := found.value, w.rows[found.value];
      OpenKeepsTime(Forget(Revoke(w, id), id, forgets), d,
                    NewRow(row.owner, Sha256(d.refresh), Some(id), row.device, w.now), Rotated(id), "", true, down);
    }
  }

  lemma AuthenticateKeepsTime(w: World, cred: Presented, cacheUp: bool, down: set<Access>)
    ensures var v := Authenticate(w, cred, cacheUp, down).world;
      v.challenges == w.challenges && v.codes == w.codes && v.now == w.now
  {
  }

  lemma LogoutKeepsTime(w: World, id: Id, cacheUp: bool, down: set<Access>)
    ensures KeepsTime(w, Logout(w, id, cacheUp, down).world, false)
  {
  }

  lemma AuthorizeKeepsTime(env: Env, w: World, o: Owner, input: AuthorizeInput, d: Draw, down: set<Access>)
    ensures KeepsTime(w, AuthorizeAs(env, w, o, input, d, down).world, true)
  {
    hide AuthorizeFails;
  }

  lemma AuthenticatedKeepsTime(env: Env, w: World, r: Request)
    requires Happens(w, r) && (r.Authorize? || r.LogoutSession? || r.Call?)
    ensures KeepsTime(w, Handle(env, w, r).world, r.Authorize?)
  {
    hide Handle, Authenticate, AuthorizeAs, Logout;
    AuthenticateKeepsTime(w, r.cred, r.cacheUp, r.down);
    var known := Authenticate(w, r.cred, r.cacheUp, r.down);
    match r
    case Authorize(cred, input, d, cacheUp, down) =>
      Authorizes(env, w, cred, input, d, cacheUp, down);
      if known.response.Known? {
        AuthorizeKeepsTime(env, known.world, known.response.owner, input, d, down);
      }
    case LogoutSession(cred, cacheUp, down) =>
      LogsOut(env, w, cred, cacheUp, down);
      if known.response.Known? {
        LogoutKeepsTime(known.world, known.response.id, cacheUp, down);
      }
    case Call(cred, cacheUp, down) => ServesCall(env, w, cred, cacheUp, down);
  }

  lemma OpeningKeepsTime(env: Env, w: World, r: Request)
    requires Happens(w, r)
    requires r.Login? || r.CompleteMfa? || r.WebauthnLogin? || r.ExchangeCode? || r.RefreshSession? || r.RefreshGrant?
    ensures KeepsTime(w, Handle(env, w, r).world, r.Authorize?)
  {
    hide PasswordLogin, MfaCompletion, WebauthnCompletion, CodeGrant, Rotate, KeepsTime;
    match r
    case Login(email, matches, ip, agent, d, down) => LoginKeepsTime(w, email, matches, Device(Some(ip), agent), d, down);
    case CompleteMfa(challenge, valid, d, down) => MfaKeepsTime(w, challenge, valid, d, down);
    case WebauthnLogin(identity, agent, d, down) => WebauthnKeepsTime(w, identity, agent, d, down);
    case ExchangeCode(input, d, down) => ExchangeKeepsTime(env, w, input, d, down);
    case RefreshSession(refresh, d, cacheUp, down) => RotateKeepsTime(w, refresh, d, cacheUp, Unauthorized, down);
    case RefreshGrant(refresh, d, down) => RotateKeepsTime(w, refresh, d, false, InvalidGrant, down);
  }

  lemma OtherKeepsTime(env: Env, w: World, r: Request)
    requires !Happens(w, r) || r.Administer? || r.PutPolicy? || r.Enroll? || r.VerifyEnrollment? || r.Unenroll? || r.Cleanup?
    ensures KeepsTime(w, Handle(env, w, r).world, r.Authorize?)
  {
    hide Consistent, Grows, Sweep;
  }

  lemma HandleKeepsTime(env: Env, w: World, r: Request)
    requires !r.Tick?
    ensures KeepsTime(w, Handle(env, w, r).world, r.Authorize?)
  {
    hide Handle, KeepsTime;
    if !Happens(w, r) || r.Administer? || r.PutPolicy? || r.Enroll? || r.VerifyEnrollment? || r.Unenroll? || r.Cleanup? {
      OtherKeepsTime(env, w, r);
    } else if r.Authorize? || r.LogoutSession? || r.Call? {
      AuthenticatedKeepsTime(env, w, r);
    } else {
      OpeningKeepsTime(env, w, r);
    }
  }

  lemma TickOnTime(env: Env, w: World, r: Request)
    requires OnTime(w) && r.Tick?
    ensures OnTime(Handle(env, w, r).world)
  {
  }

  lemma {:induction false} ServeOnTime(env: Env, w: World, rs: seq<Request>)
    requires OnTime(w)
    ensures OnTime(Serve(env, w, rs))
    decreases |rs|
  {
    hide Handle;
    if rs != [] {
      if rs[0].Tick? {
        TickOnTime(env, w, rs[0]);
      } else {
        HandleKeepsTime(env, w, rs[0]);
      }
      ServeOnTime(env, Handle(env, w, rs[0]).world, rs[1..]);
    }
  }

  /** What the answers below rest on. */
  lemma ReachableFacts(env: Env, w: World)
    requires Reachable(env, w)
    ensures OnTime(w) && Consistent(w.tables) && UniqueHashes(w.rows)
    ensures forall id :: id in w.rows ==> id in w.history.drawn && w.rows[id].refreshHash.preimage in w.history.drawn
    ensures forall id :: id in w.cache ==> id in w.rows && w.rows[id].owner == w.cache[id].value
  {
    hide Handle, Consistent;
    var rs :| w == Serve(env, START, rs);
    ServeOnTime(env, START, rs);
    assert Consistent(START.tables) by { EmptyConsistent(); }
    Ownership.ServeOwned(env, START, rs);
    SerialRotation.ReachableInv(env, w);
    Coverage.CacheAndTokensAgreeWithTable(env, w);
    forall id | id in w.cache ensures id in w.rows && w.rows[id].owner == w.cache[id].value {
      assert Coverage.Covers(w.rows, w.now, id, w.cache[id]);
    }
    forall id | id in w.rows ensures id in w.history.drawn && w.rows[id].refreshHash.preimage in w.history.drawn {
      assert id in w.history.roots && SerialRotation.RowOk(w.rows[id], w.history.drawn, w.now);
    }
  }

  lemma EmptyConsistent()
    ensures Consistent(START.tables)
  {
  }
}
