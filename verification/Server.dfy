// The use cases as the server runs them, statement by statement over its
// repositories and stores, each proved to do to the whole state exactly what its
// atomic request does, and the passing of time to what a tick does. A server
// begins in a reachable state and each of them leads from a reachable state to a
// reachable one, so every guarantee about runs of requests holds of the server.

module Server {
  import opened Clock
  import opened Types
  import opened Sessions
  import opened Directory
  import Registration
  import opened OAuth
  import Scopes
  import opened Requests
  import opened Stores
  import opened Totp
  import opened Tokens
  import Keys

  /** Every session id and refresh token in the table was drawn, and no token twice. */
  ghost predicate DrawnOnce(rows: Rows, drawn: set<Id>) {
    && UniqueHashes(rows)
    && (forall id :: id in rows ==> id in drawn && rows[id].refreshHash.preimage in drawn)
  }

  lemma OneRowPerHash(rows: Rows, drawn: set<Id>)
    requires DrawnOnce(rows, drawn)
    ensures UniqueHashes(rows)
  {
  }

  lemma InsertDraws(rows: Rows, drawn: set<Id>, d: Draw, row: Session)
    requires DrawnOnce(rows, drawn) && d.session !in drawn && d.refresh !in drawn && row.refreshHash == Sha256(d.refresh)
    ensures DrawnOnce(rows[d.session := row], drawn + {d.session, d.refresh})
  {
  }

  lemma MoreDrawn(rows: Rows, drawn: set<Id>, more: set<Id>)
    requires DrawnOnce(rows, drawn)
    ensures DrawnOnce(rows, drawn + more)
  {
  }

  lemma RevokeDraws(rows: Rows, drawn: set<Id>, id: Id, now: Time)
    requires DrawnOnce(rows, drawn)
    ensures DrawnOnce(RevokeRow(rows, id, now), drawn)
  {
  }

  /** What `Registration` does to the tables, and `Totp` to the factors, leads to reachable states as well. */
  lemma AdministrationStaysReachable(env: Env, w: World, after: Tables)
    requires Reachable(env, w) && Consistent(after) && Grows(w.tables, after)
    ensures Reachable(env, w.(tables := after))
  {
    hide Consistent, Grows;
    ReachableStep(env, w, Administer(after));
  }

  lemma EnrollmentStaysReachable(env: Env, w: World, f: Id, identity: Id, secret: Id)
    requires Reachable(env, w)
    ensures f !in w.factors ==> Reachable(env, w.(factors := w.factors[f := Factor(identity, "totp", secret, false)]))
    ensures f in w.factors ==> Reachable(env, w.(factors := w.factors[f := w.factors[f].(verified := true)]))
    ensures Reachable(env, w.(factors := Without(w.factors, f)))
  {
    ReachableStep(env, w, Enroll(f, identity, secret));
    ReachableStep(env, w, Unenroll(f));
    if f in w.factors {
      assert w.factors[f].secret in {w.factors[f].secret};
      ReachableStep(env, w, VerifyEnrollment(f, {w.factors[f].secret}));
    }
  }

  lemma StartIsReachable(env: Env)
    ensures Reachable(env, START)
  {
    assert Serve(env, START, []) == START;
  }

  /** The session that had the token is revoked, and the one it is answered with is its child, under the
      new token. */
  predicate Replaces(rows: Rows, after: Rows, refresh: Id, d: Draw, now: Time, response: Response) {
    exists id ::
      && id in rows && rows[id].refreshHash == Sha256(refresh) && rows[id].revokedAt.None? && now <= rows[id].expiresAt
      && response == Opened(d.session, rows[id].owner, d.refresh, "")
      && after == rows[id := rows[id].(revokedAt := Some(now))][d.session :=
           Session(rows[id].owner, Sha256(d.refresh), Some(id), rows[id].device, now + 7 * DAY, None, now)]
  }

  lemma ReplacedBy(rows: Rows, after: Rows, id: Id, refresh: Id, d: Draw, now: Time, response: Response)
    requires id in rows && rows[id].refreshHash == Sha256(refresh) && rows[id].revokedAt.None? && now <= rows[id].expiresAt
    requires response.Opened? ==>
      && response == Opened(d.session, rows[id].owner, d.refresh, "")
      && after == RevokeRow(rows, id, now)[d.session := NewRow(rows[id].owner, Sha256(d.refresh), Some(id), rows[id].device, now)]
    ensures response.Opened? ==> Replaces(rows, after, refresh, d, now, response)
  {
  }

  class Janus {
    const env: Env
    const db: Registration.Database
    const sessions: SessionRepository
    const cache: PrincipalCache
    const challenges: ChallengeStore
    const codes: CodeStore
    const totp: TOTPService
    const jwt: JWTService
    var requireMfa: set<Id>
    ghost var history: History

    constructor (env: Env, db: Registration.Database, sessions: SessionRepository, cache: PrincipalCache,
                 challenges: ChallengeStore, codes: CodeStore, totp: TOTPService, jwt: JWTService)
      ensures this.db == db && this.sessions == sessions && this.cache == cache && this.challenges == challenges
      ensures this.codes == codes && this.totp == totp && this.jwt == jwt && this.env == env
      ensures requireMfa == {} && history == START.history
    {
      this.env, this.db, this.sessions, this.cache := env, db, sessions, cache;
      this.challenges, this.codes, this.totp, this.jwt := challenges, codes, totp, jwt;
      requireMfa := {};
      history := START.history;
    }

    /** A server wired up over an empty database and an empty Redis, with whatever signing keys there are. */
    static method Boot(env: Env, keys: Keys.KeyRepository) returns (janus: Janus)
      ensures fresh(janus) && janus.env == env && janus.jwt.keys == keys && janus.Valid()
      ensures janus.State(0) == START && Reachable(env, janus.State(0))
    {
      var db := new Registration.Database();
      var sessions := new SessionRepository();
      var principals := new Redis<Owner>();
      var cache := new PrincipalCache(principals);
      var pending := new Redis<Challenge>();
      var challenges := new ChallengeStore(pending);
      var minted := new Redis<Code>();
      var codes := new CodeStore(minted);
      var totp := new TOTPService();
      var jwt := new JWTService(keys);
      janus := new Janus(env, db, sessions, cache, challenges, codes, totp, jwt);
      StartIsReachable(env);
      assert janus.State(0) == START;
    }

    /** The server's state as the atomic requests see it. */
    ghost function State(now: Time): World
      reads this, db, sessions, cache.redis, challenges.redis, codes.redis, totp, jwt
    {
      World(now, db.tables, totp.factors, requireMfa, sessions.rows, cache.redis.Live(now), challenges.redis.Live(now),
            codes.redis.Live(now), jwt.Claims(), history)
    }

    /** Refresh tokens are drawn fresh, and keys are never removed. */
    ghost predicate Valid()
      reads this, sessions, jwt, jwt.keys
    {
      && DrawnOnce(sessions.rows, history.drawn)
      && (forall j :: j in jwt.issued ==> j.kid in jwt.keys.keys)
    }

    /** What fails for a request that signs: with no active key, signing does. */
    ghost function Failing(down: set<Access>): set<Access>
      reads jwt.keys
    {
      if jwt.HasActive() then down else down + {SignToken}
    }

    /** Between requests the server's state changes as by one tick: Redis forgets what has expired. */
    lemma TimePasses(now: Time, dt: nat)
      ensures Reply(State(now + dt), Silent) == Handle(env, State(now), Tick(dt))
    {
      hide Handle;
      ExpiryIsLazy(cache.redis.entries, now, now + dt);
      ExpiryIsLazy(challenges.redis.entries, now, now + dt);
      ExpiryIsLazy(codes.redis.entries, now, now + dt);
      Ticks(env, State(now), dt);
    }

    lemma StaysReachable(now: Time, dt: nat)
      requires Reachable(env, State(now))
      ensures Reachable(env, State(now + dt))
    {
      hide Handle;
      TimePasses(now, dt);
      ReachableStep(env, State(now), Tick(dt));
    }

    // ----- Sessions -----

    method Insert(d: Draw, row: Session, ghost origin: Origin, up: bool) returns (ok: bool)
      requires Valid() && d.session !in history.drawn && d.refresh !in history.drawn && row.refreshHash == Sha256(d.refresh)
      modifies this`history, sessions
      ensures Valid()
      ensures ok == (up && Insertable(old(sessions.rows), d.session, row))
      ensures sessions.rows == if ok then old(sessions.rows)[d.session := row] else old(sessions.rows)
      ensures history == if ok then Recorded(old(history), d, row, origin) else old(history)
    {
      hide DrawnOnce, RootOf;
      InsertDraws(sessions.rows, history.drawn, d, row);
      ok := sessions.Create(d.session, row, up);
      if ok {
        history := Recorded(history, d, row, origin);
      }
    }

    /** The insert and the signing that end every session-creating path. */
    method Open(d: Draw, row: Session, ghost origin: Origin, scope: string, readsAfter: bool, now: Time,
                down: set<Access>)
      returns (response: Response)
      requires Valid() && Fresh(State(now), d) && row.refreshHash == Sha256(d.refresh)
      modifies this`history, sessions, jwt
      ensures Valid()
      ensures old(OpenSession(State(now), d, row, origin, scope, readsAfter, Failing(down))) == Reply(State(now), response)
      ensures response in {Opened(d.session, row.owner, d.refresh, scope), Refused(Internal)}
      ensures response.Opened? ==> sessions.rows == old(sessions.rows)[d.session := row]
    {
      hide DrawnOnce, Recorded, Insertable, NumericDate;
      if !readsAfter && ReadFails(down) {
        return Refused(Internal);
      }
      var inserted := Insert(d, row, origin, CreateSession !in down);
      if !inserted {
        return Refused(Internal);
      }
      if readsAfter && ReadFails(down) {
        return Refused(Internal);
      }
      var token := jwt.Issue(d.session, row.owner, ACCESS_TOKEN_TTL, now, SignToken !in down);
      if token.None? {
        return Refused(Internal);
      }
      return Opened(d.session, row.owner, d.refresh, scope);
    }

    /** Rotation, which the refresh endpoint and the refresh grant share but for the cache. */
    method RefreshSession(refresh: Id, d: Draw, now: Time, cacheUp: bool, down: set<Access>) returns (response: Response)
      requires Valid() && Fresh(State(now), d)
      modifies this`history, sessions, cache.redis, jwt
      ensures Valid()
      ensures old(Rotate(State(now), refresh, d, cacheUp, Unauthorized, Failing(down))) == Reply(State(now), response)
      ensures response.Opened? ==> Replaces(old(sessions.rows), sessions.rows, refresh, d, now, response)
      ensures old(Reachable(env, State(now))) ==> Reachable(env, State(now))
    {
      hide OpenSession, DrawnOnce, Reachable, Handle, Replaces;
      ghost var before := sessions.rows;
      ServesRefresh(env, State(now), refresh, d, cacheUp, Failing(down));
      OneRowPerHash(sessions.rows, history.drawn);
      var found := sessions.GetByRefreshTokenHash(Sha256(refresh), FindSession !in down);
      if found.None? {
        return Refused(Unauthorized);
      }
      var id, session := found.value, sessions.rows[found.value];
      if session.revokedAt.Some? {
        return Refused(Unauthorized);
      }
      if now > session.expiresAt {
        return Refused(Unauthorized);
      }
      RevokeDraws(sessions.rows, history.drawn, id, now);
      var revoked := sessions.Revoke(id, now, RevokeSession !in down);
      if !revoked {
        return Refused(Internal);
      }
      cache.Delete(id, now, cacheUp);
      response := Open(d, NewRow(session.owner, Sha256(d.refresh), Some(id), session.device, now), Rotated(id), "", true, now, down);
      ReplacedBy(before, sessions.rows, id, refresh, d, now, response);
    }

    method RefreshTokenGrant(refresh: Id, d: Draw, now: Time, down: set<Access>) returns (response: Response)
      requires Valid() && Fresh(State(now), d)
      modifies this`history, sessions, jwt
      ensures Valid()
      ensures old(Rotate(State(now), refresh, d, false, InvalidGrant, Failing(down))) == Reply(State(now), response)
      ensures response.Opened? ==> Replaces(old(sessions.rows), sessions.rows, refresh, d, now, response)
      ensures old(Reachable(env, State(now))) ==> Reachable(env, State(now))
    {
      hide OpenSession, DrawnOnce, Reachable, Handle, Replaces;
      ghost var before := sessions.rows;
      ServesGrant(env, State(now), refresh, d, Failing(down));
      OneRowPerHash(sessions.rows, history.drawn);
      var found := sessions.GetByRefreshTokenHash(Sha256(refresh), FindSession !in down);
      if found.None? {
        return Refused(InvalidGrant);
      }
      var id, session := found.value, sessions.rows[found.value];
      if session.revokedAt.Some? || now > session.expiresAt {
        return Refused(InvalidGrant);
      }
      RevokeDraws(sessions.rows, history.drawn, id, now);
      var revoked := sessions.Revoke(id, now, RevokeSession !in down);
      if !revoked {
        return Refused(Internal);
      }
      response := Open(d, NewRow(session.owner, Sha256(d.refresh), Some(id), session.device, now), Rotated(id), "", true, now, down);
      ReplacedBy(before, sessions.rows, id, refresh, d, now, response);
    }

    method LogoutSession(id: Id, now: Time, cacheUp: bool, down: set<Access>) returns (response: Response)
      requires Valid()
      modifies sessions, cache.redis
      ensures Valid()
      ensures old(Logout(State(now), id, cacheUp, down)) == Reply(State(now), response)
    {
      hide DrawnOnce;
      var session := sessions.GetByID(id, FindSession !in down);
      if session.None? {
        return Refused(NotFound);
      }
      if session.value.revokedAt.Some? {
        cache.Delete(id, now, cacheUp);
        return LoggedOut;
      }
      RevokeDraws(sessions.rows, history.drawn, id, now);
      var revoked := sessions.Revoke(id, now, RevokeSession !in down);
      if !revoked {
        return Refused(Internal);
      }
      cache.Delete(id, now, cacheUp);
      return LoggedOut;
    }

    // ----- Authentication -----

    method FromBearer(bearer: Option<Jwt>, now: Time, down: set<Access>) returns (principal: Option<Token>)
      requires Valid()
      ensures principal == if bearer.Some? && bearer.value in jwt.issued && FindKey !in down
                              && bearer.value.claims.notBefore <= now < bearer.value.claims.expires
                           then Some(bearer.value.claims) else None
    {
      if bearer.None? {
        return None;
      }
      principal := jwt.Verify(bearer.value, now, FindKey !in down);
    }

    method FromSessionHeader(id: Id, now: Time, cacheUp: bool, down: set<Access>) returns (principal: Option<Owner>)
      modifies cache.redis
      ensures old(SessionHeader(State(now), id, cacheUp, down)) ==
              Reply(State(now), if principal.Some? then Known(id, principal.value) else Refused(Unauthorized))
    {
      principal := cache.Get(id, now, cacheUp);
      if principal.Some? {
        return;
      }
      var session := sessions.GetByID(id, FindSession !in down);
      if session.None? {
        return;
      }
      if session.value.revokedAt.Some? {
        return;
      }
      if now > session.value.expiresAt {
        return;
      }
      if ReadIdentity in down || ReadRoles in down || ReadPermissions in down {
        return;
      }
      principal := Some(session.value.owner);
      cache.Put(id, session.value.owner, now, cacheUp);
    }

    /** What the atomic request is shown: a bearer string that no key signed is no token. */
    ghost function Shown(bearer: Option<Jwt>, session: Option<Id>): Presented
      reads jwt
    {
      Presented(if bearer.Some? && bearer.value in jwt.issued then Some(bearer.value.claims) else None, session)
    }

    method Authenticate(bearer: Option<Jwt>, session: Option<Id>, now: Time, cacheUp: bool, down: set<Access>)
      returns (response: Response)
      requires Valid()
      modifies cache.redis
      ensures Valid()
      ensures old(Requests.Authenticate(State(now), Shown(bearer, session), cacheUp, down)) == Reply(State(now), response)
      ensures old(Reachable(env, State(now))) ==> Reachable(env, State(now))
    {
      hide SessionHeader, Reachable, Handle;
      ServesCall(env, State(now), Shown(bearer, session), cacheUp, down);
      var claims := FromBearer(bearer, now, down);
      if claims.Some? {
        return Known(claims.value.session, claims.value.owner);
      }
      if session.Some? {
        var principal := FromSessionHeader(session.value, now, cacheUp, down);
        if principal.Some? {
          return Known(session.value, principal.value);
        }
      }
      return Refused(Unauthorized);
    }

    /** The logout endpoint: the middleware, then the use case for whom it found. */
    method LogoutRequest(bearer: Option<Jwt>, session: Option<Id>, now: Time, cacheUp: bool, down: set<Access>)
      returns (response: Response)
      requires Valid()
      modifies sessions, cache.redis
      ensures Valid()
      ensures old(Handle(env, State(now), Request.LogoutSession(Shown(bearer, session), cacheUp, down)))
           == Reply(State(now), response)
      ensures old(Reachable(env, State(now))) ==> Reachable(env, State(now))
    {
      hide Handle, Logout, Requests.Authenticate, DrawnOnce, Reachable;
      Serves(env, State(now), Request.LogoutSession(Shown(bearer, session), cacheUp, down));
      LogsOut(env, State(now), Shown(bearer, session), cacheUp, down);
      response := Authenticate(bearer, session, now, cacheUp, down);
      if response.Known? {
        response := LogoutSession(response.id, now, cacheUp, down);
      }
    }

    // ----- Password and MFA -----

    method Login(email: string, matches: bool, ip: string, agent: string, d: Draw, now: Time, down: set<Access>)
      returns (response: Response)
      requires Valid() && Fresh(State(now), d) && Consistent(db.tables)
      modifies this`history, sessions, challenges.redis, jwt
      ensures Valid()
      ensures old(PasswordLogin(State(now), email, matches, Device(Some(ip), agent), d, Failing(down))) == Reply(State(now), response)
      ensures old(Reachable(env, State(now))) ==> Reachable(env, State(now))
    {
      hide AfterPassword, OpenSession, Consistent, DrawnOnce, Reachable, Handle;
      ServesLogin(env, State(now), email, matches, ip, agent, d, Failing(down));
      var identity := db.GetIdentityByEmail(email, FindIdentity !in down);
      if identity.None? {
        return Refused(InvalidCredentials);
      }
      if FindCredential in down || !matches {
        return Refused(InvalidCredentials);
      }
      var user := db.GetUserByIdentity(identity.value, FindUser !in down);
      if user.None? || ReadPolicy in down || ReadFactors in down {
        return Refused(Internal);
      }
      assert Failing(LoginDown(down)) == LoginDown(Failing(down));
      response := ChallengeOrOpen(OwnerOf(db.tables, user.value), Device(Some(ip), agent), d, now, LoginDown(down));
    }

    /** What a login does once the password was right. */
    method ChallengeOrOpen(owner: Owner, device: Device, d: Draw, now: Time, down: set<Access>) returns (response: Response)
      requires Valid() && Fresh(State(now), d)
      modifies this`history, sessions, challenges.redis, jwt
      ensures Valid()
      ensures old(AfterPassword(State(now), owner, device, d, Failing(down))) == Reply(State(now), response)
    {
      hide OpenSession, DrawnOnce;
      var factors := totp.GetVerifiedByIdentity(owner.identity);
      if owner.tenant in requireMfa && |factors| == 0 {
        return Refused(EnrollmentRequired);
      }
      if |factors| > 0 {
        var stored := challenges.Store(d.oneShot, Challenge(owner, device, now + CHALLENGE_TTL), now, StoreValue !in down);
        if !stored {
          return Refused(Internal);
        }
        MoreDrawn(sessions.rows, history.drawn, {d.oneShot});
        history := history.(drawn := history.drawn + {d.oneShot});
        return MfaRequired(d.oneShot);
      }
      response := Open(d, NewRow(owner, Sha256(d.refresh), None, device, now), Password, "", false, now, down);
    }

    method CompleteMfa(token: Id, valid: set<Id>, d: Draw, now: Time, down: set<Access>) returns (response: Response)
      requires Valid() && Fresh(State(now), d)
      modifies this`history, sessions, challenges.redis, jwt
      ensures Valid()
      ensures old(MfaCompletion(State(now), token, valid, d, Failing(down))) == Reply(State(now), response)
      ensures old(Reachable(env, State(now))) ==> Reachable(env, State(now))
    {
      hide OpenSession, DrawnOnce, Reachable, Handle;
      ServesMfa(env, State(now), token, valid, d, Failing(down));
      var challenge := challenges.Consume(token, now, TakeValue !in down);
      if challenge.None? {
        return Refused(InvalidCode);
      }
      var c := challenge.value;
      if now > c.expiresAt {
        return Refused(InvalidCode);
      }
      var accepted := totp.Verify(c.owner.identity, valid, ReadFactors !in down);
      if !accepted {
        return Refused(InvalidCode);
      }
      response := Open(d, NewRow(c.owner, Sha256(d.refresh), None, c.device, now), Mfa(token), "", false, now, down);
    }

    // ----- OAuth -----

    method AuthorizeCode(principal: Owner, input: AuthorizeInput, d: Draw, now: Time, down: set<Access>)
      returns (response: Response)
      requires Valid()
      modifies this`history, codes.redis
      ensures Valid()
      ensures old(AuthorizeAs(env, State(now), principal, input, d, down)) == Reply(State(now), response)
    {
      hide DrawnOnce, Scopes.SplitScopes;
      if input.responseType != "code" {
        return Refused(NotAuthorized(UnsupportedResponse));
      }
      if input.challenge == "" {
        return Refused(NotAuthorized(MissingPKCE));
      }
      if input.challengeMethod != "S256" {
        return Refused(NotAuthorized(UnsupportedChallenge));
      }
      if input.clientId !in env.clients {
        return Refused(NotAuthorized(AuthorizeError.InvalidClient));
      }
      var client := env.clients[input.clientId];
      if input.redirectUri !in client.redirectUris {
        return Refused(NotAuthorized(InvalidRedirectURI));
      }
      if "authorization_code" !in client.grantTypes {
        return Refused(NotAuthorized(UnsupportedGrant));
      }
      var requested := Scopes.SplitScopes(input.scope);
      for i := 0 to |requested|
        invariant forall j :: 0 <= j < i ==> requested[j] in client.scopes
      {
        if requested[i] !in client.scopes {
          assert requested[i] in requested;
          return Refused(NotAuthorized(InvalidScope));
        }
      }
      if client.tenant != principal.tenant {
        return Refused(NotAuthorized(AuthorizeError.InvalidClient));
      }
      var stored := codes.Store(d.oneShot, Minted(input.(principal := principal), now), now, StoreValue !in down);
      if !stored {
        return Refused(Internal);
      }
      MoreDrawn(sessions.rows, history.drawn, {d.oneShot});
      history := history.(drawn := history.drawn + {d.oneShot});
      return CodeIssued(d.oneShot);
    }

    /** The authorize endpoint, likewise. */
    method AuthorizeRequest(bearer: Option<Jwt>, session: Option<Id>, input: AuthorizeInput, d: Draw, now: Time,
                            cacheUp: bool, down: set<Access>)
      returns (response: Response)
      requires Valid() && Fresh(State(now), d)
      modifies this`history, cache.redis, codes.redis
      ensures Valid()
      ensures old(Handle(env, State(now), Request.Authorize(Shown(bearer, session), input, d, cacheUp, down)))
           == Reply(State(now), response)
      ensures old(Reachable(env, State(now))) ==> Reachable(env, State(now))
    {
      hide Handle, AuthorizeAs, Requests.Authenticate, DrawnOnce, Reachable;
      Serves(env, State(now), Request.Authorize(Shown(bearer, session), input, d, cacheUp, down));
      Authorizes(env, State(now), Shown(bearer, session), input, d, cacheUp, down);
      response := Authenticate(bearer, session, now, cacheUp, down);
      if response.Known? {
        response := AuthorizeCode(response.owner, input, d, now, down);
      }
    }

    method AuthorizationCodeGrant(input: TokenInput, d: Draw, now: Time, down: set<Access>) returns (response: Response)
      requires Valid() && Fresh(State(now), d)
      modifies this`history, sessions, codes.redis, jwt
      ensures Valid()
      ensures old(CodeGrant(env, State(now), input, d, Failing(down))) == Reply(State(now), response)
      ensures old(Reachable(env, State(now))) ==> Reachable(env, State(now))
    {
      hide OpenSession, DrawnOnce, Reachable, Handle;
      ServesExchange(env, State(now), input, d, Failing(down));
      if input.clientId !in env.clients {
        return Refused(Failure.InvalidClient);
      }
      var client := env.clients[input.clientId];
      if client.confidential {
        if input.clientSecret == "" || env.crypto.hash(input.clientSecret) != client.secretHash {
          return Refused(Failure.InvalidClient);
        }
      }
      var code := codes.Consume(input.code, now, TakeValue !in down);
      if code.None? {
        return Refused(InvalidGrant);
      }
      var c := code.value;
      if now > c.expiresAt || c.clientId != input.clientId || c.redirectUri != input.redirectUri {
        return Refused(InvalidGrant);
      }
      if env.crypto.s256(input.verifier) != c.challenge {
        return Refused(InvalidGrant);
      }
      response := Open(d, NewRow(c.owner, Sha256(d.refresh), None, Device(None, ""), now), Exchanged(input.code),
                       Scopes.Join(c.scopes), false, now, down);
      if response.Opened? {
        var openid := Scopes.HasScope(c.scopes, "openid");
        if openid && SignIdToken in down {
          return Refused(Internal);
        }
      }
    }

    // ----- WebAuthn -----

    method CompleteWebauthn(verified: Option<Id>, agent: string, d: Draw, now: Time, down: set<Access>)
      returns (response: Response)
      requires Valid() && Fresh(State(now), d) && Consistent(db.tables)
      modifies this`history, sessions, jwt
      ensures Valid()
      ensures old(WebauthnCompletion(State(now), verified, agent, d, Failing(down))) == Reply(State(now), response)
      ensures old(Reachable(env, State(now))) ==> Reachable(env, State(now))
    {
      hide OpenSession, Consistent, DrawnOnce, Reachable, Handle;
      ServesWebauthn(env, State(now), verified, agent, d, Failing(down));
      if verified.None? || verified.value !in db.tables.identities {
        return Refused(Internal);
      }
      var user := db.GetUserByIdentity(verified.value, FindUser !in down);
      if user.None? {
        return Refused(Internal);
      }
      var owner := OwnerOf(db.tables, user.value);
      response := Open(d, NewRow(owner, Sha256(d.refresh), None, Device(None, agent), now), Webauthn, "", false, now, down);
    }

    // ----- The worker -----

    method CleanUpSessions(now: Time, down: set<Access>) returns (deleted: nat, ok: bool)
      requires Valid() && Resolved(sessions.rows)
      modifies sessions
      ensures Valid() && Resolved(sessions.rows)
      ensures State(now) == old(Handle(env, State(now), Cleanup(down)).world)
      ensures deleted == |old(sessions.rows)| - |sessions.rows|
      ensures old(Reachable(env, State(now))) ==> Reachable(env, State(now))
    {
      hide Handle, Sweep, Straddled, Resolved, Reachable;
      Serves(env, State(now), Cleanup(down));
      CleanupStep(env, State(now), Cleanup(down));
      deleted, ok := sessions.DeleteExpiredOrRevoked(now - SESSION_RETENTION, DeleteSessions !in down);
    }
  }
}
