// Every request of the server as one atomic step over all its state: the
// directory, factors and policies, the session table, the Redis maps, and the
// tokens handed out. `down` names the accesses that fail.

module Requests {
  import opened Clock
  import opened Types
  import opened Sessions
  import opened Directory
  import opened OAuth
  import Scopes

  datatype Factor = Factor(identity: Id, factorType: string, secret: Id, verified: bool)

  datatype Challenge = Challenge(owner: Owner, device: Device, expiresAt: Time)

  /** Which of the six paths inserted a session. */
  datatype Origin = Password | Mfa(challenge: Id) | Webauthn | Exchanged(code: Id) | Rotated(parent: Id)

  /** What no table keeps: every random draw, how each session began, and the root of its family. */
  datatype History = History(drawn: set<Id>, origins: map<Id, Origin>, roots: map<Id, Id>)

  datatype World = World(
    now: Time,
    tables: Tables,
    factors: map<Id, Factor>,
    requireMfa: set<Id>,
    rows: Rows,
    cache: map<Id, Expiring<Owner>>,
    challenges: map<Id, Expiring<Challenge>>,
    codes: map<Id, Expiring<Code>>,
    tokens: set<Token>,
    history: History)

  const START := World(0, EMPTY, map[], {}, map[], map[], map[], map[], {}, History({}, map[], map[]))

  datatype Env = Env(crypto: Crypto, clients: Clients)

  datatype Access =
    | FindIdentity | FindCredential | FindUser | ReadPolicy | ReadFactors | TakeValue | StoreValue
    | FindKey | FindSession | RevokeSession | CreateSession | ReadIdentity | ReadRoles | ReadPermissions | SignToken | SignIdToken
    | DeleteSessions

  /** The random session id, refresh token, and challenge or code one request draws. */
  datatype Draw = Draw(session: Id, refresh: Id, oneShot: Id)

  datatype Failure =
    | Unauthorized | InvalidCredentials | EnrollmentRequired | InvalidCode | InvalidGrant | InvalidClient
    | NotAuthorized(why: AuthorizeError) | NotFound | Internal

  datatype Response =
    | Silent
    | Refused(why: Failure)
    | Opened(id: Id, owner: Owner, refresh: Id, scope: string)
    | MfaRequired(challenge: Id)
    | Known(id: Id, owner: Owner)
    | CodeIssued(code: Id)
    | LoggedOut

  datatype Reply = Reply(world: World, response: Response)

  /** A bearer token, tried first, and a session header. */
  datatype Presented = Presented(bearer: Option<Token>, session: Option<Id>)

  datatype Request =
    | Tick(dt: nat)
    | Administer(after: Tables)
    | PutPolicy(tenant: Id, mfa: bool)
    | Enroll(factor: Id, identity: Id, secret: Id)
    | VerifyEnrollment(factor: Id, valid: set<Id>)
    | Unenroll(factor: Id)
    | Login(email: string, matches: bool, ip: string, agent: string, draw: Draw, down: set<Access>)
    | CompleteMfa(challenge: Id, valid: set<Id>, draw: Draw, down: set<Access>)
    | WebauthnLogin(verified: Option<Id>, agent: string, draw: Draw, down: set<Access>)
    | Authorize(cred: Presented, input: AuthorizeInput, draw: Draw, cacheUp: bool, down: set<Access>)
    | ExchangeCode(exchange: TokenInput, draw: Draw, down: set<Access>)
    | RefreshSession(refresh: Id, draw: Draw, cacheUp: bool, down: set<Access>)
    | RefreshGrant(refresh: Id, draw: Draw, down: set<Access>)
    | LogoutSession(cred: Presented, cacheUp: bool, down: set<Access>)
    | Call(cred: Presented, cacheUp: bool, down: set<Access>)
    | Cleanup(down: set<Access>)

  /** Only time, administration and enrollment change these. */
  predicate SameGround(w: World, v: World) {
    v.now == w.now && v.tables == w.tables && v.factors == w.factors && v.requireMfa == w.requireMfa
  }

  // ----- Sessions -----

  /** Every random draw is new. */
  predicate Fresh(w: World, d: Draw) {
    && d.session !in w.history.drawn && d.refresh !in w.history.drawn && d.oneShot !in w.history.drawn
    && d.session != d.refresh && d.session != d.oneShot && d.refresh != d.oneShot
  }

  /** The session's family is its parent's, or its own. */
  function RootOf(roots: map<Id, Id>, id: Id, row: Session): Id {
    if row.parent.Some? && row.parent.value in roots then roots[row.parent.value] else id
  }

  function Recorded(h: History, d: Draw, row: Session, origin: Origin): History {
    h.(drawn := h.drawn + {d.session, d.refresh},
       origins := h.origins[d.session := origin],
       roots := h.roots[d.session := RootOf(h.roots, d.session, row)])
  }

  predicate ReadFails(down: set<Access>) {
    ReadIdentity in down || ReadRoles in down || ReadPermissions in down
  }

  /** The end of every session-creating path: insert the row, then sign the token. A path that
      reads the principal after the insert can fail in between, and leaves the row behind. */
  function OpenSession(w: World, d: Draw, row: Session, origin: Origin, scope: string,
                       readsAfter: bool, down: set<Access>): (r: Reply)
    ensures SameGround(w, r.world) && r.world.cache == w.cache && r.world.challenges == w.challenges
  {
    if !readsAfter && ReadFails(down) then Reply(w, Refused(Internal))
    else if CreateSession in down || !Insertable(w.rows, d.session, row) then Reply(w, Refused(Internal))
    else
      var inserted := w.(rows := w.rows[d.session := row], history := Recorded(w.history, d, row, origin));
      if ReadFails(down) || SignToken in down then Reply(inserted, Refused(Internal))
      else
        Reply(inserted.(tokens := w.tokens + {AccessToken(d.session, row.owner, w.now)}),
              Opened(d.session, row.owner, d.refresh, scope))
  }

  function Forget(w: World, id: Id, cacheUp: bool): World {
    if cacheUp then w.(cache := Without(w.cache, id)) else w
  }

  function Revoke(w: World, id: Id): World {
    w.(rows := RevokeRow(w.rows, id, w.now))
  }

  /** Lookup, check, revoke, forget, create the child; the refresh grant does not forget. */
  ghost function Rotate(w: World, refresh: Id, d: Draw, forgets: bool, denial: Failure, down: set<Access>): (r: Reply)
    ensures SameGround(w, r.world)
  {
    var found := if FindSession in down then None else ByHash(w.rows, Sha256(refresh));
    if found.None? || !Usable(w.rows[found.value], w.now) then Reply(w, Refused(denial))
    else if RevokeSession in down then Reply(w, Refused(Internal))
    else
      var row := w.rows[found.value];
      OpenSession(Forget(Revoke(w, found.value), found.value, forgets), d,
                  NewRow(row.owner, Sha256(d.refresh), Some(found.value), row.device, w.now),
                  Rotated(found.value), "", true, down)
  }

  /** The logout use case, for the session the middleware put in the context. */
  function Logout(w: World, id: Id, cacheUp: bool, down: set<Access>): (r: Reply)
    ensures SameGround(w, r.world)
  {
    if FindSession in down || id !in w.rows then Reply(w, Refused(NotFound))
    else if w.rows[id].revokedAt.Some? then Reply(Forget(w, id, cacheUp), LoggedOut)
    else if RevokeSession in down then Reply(w, Refused(Internal))
    else Reply(Forget(Revoke(w, id), id, cacheUp), LoggedOut)
  }

  predicate BearerValid(tokens: set<Token>, now: Time, t: Token) {
    t in tokens && t.notBefore <= now < t.expires
  }

  function SessionHeader(w: World, id: Id, cacheUp: bool, down: set<Access>): (r: Reply)
    ensures SameGround(w, r.world)
  {
    if cacheUp && id in w.cache then Reply(w, Known(id, w.cache[id].value))
    else if FindSession in down || id !in w.rows || !Usable(w.rows[id], w.now) || ReadFails(down) then
      Reply(w, Refused(Unauthorized))
    else
      Reply(if cacheUp then w.(cache := w.cache[id := Expiring(w.rows[id].owner, w.now + PRINCIPAL_CACHE_TTL)]) else w,
            Known(id, w.rows[id].owner))
  }

  function Authenticate(w: World, cred: Presented, cacheUp: bool, down: set<Access>): (r: Reply)
    ensures SameGround(w, r.world)
  {
    if cred.bearer.Some? && FindKey !in down && BearerValid(w.tokens, w.now, cred.bearer.value) then
      Reply(w, Known(cred.bearer.value.session, cred.bearer.value.owner))
    else if cred.session.Some? then SessionHeader(w, cred.session.value, cacheUp, down)
    else Reply(w, Refused(Unauthorized))
  }

  // ----- Password and MFA -----

  predicate HasVerifiedFactor(factors: map<Id, Factor>, identity: Id) {
    exists f :: f in factors && factors[f].identity == identity && factors[f].verified
  }

  /** The search the TOTP service makes: verified, of type totp, and the code fits its secret. */
  predicate TotpAccepts(factors: map<Id, Factor>, identity: Id, valid: set<Id>) {
    exists f :: f in factors && factors[f].identity == identity && factors[f].verified
      && factors[f].factorType == "totp" && factors[f].secret in valid
  }

  function NewChallenge(owner: Owner, device: Device, now: Time): Expiring<Challenge> {
    Expiring(Challenge(owner, device, now + CHALLENGE_TTL), now + CHALLENGE_TTL)
  }

  function IssueChallenge(w: World, owner: Owner, device: Device, d: Draw, down: set<Access>): (r: Reply)
    ensures SameGround(w, r.world) && r.world.cache == w.cache
  {
    if StoreValue in down then Reply(w, Refused(Internal))
    else
      Reply(w.(challenges := w.challenges[d.oneShot := NewChallenge(owner, device, w.now)],
               history := w.history.(drawn := w.history.drawn + {d.oneShot})),
            MfaRequired(d.oneShot))
  }

  /** The password was right: policy and factors decide what happens next. */
  function AfterPassword(w: World, owner: Owner, device: Device, d: Draw, down: set<Access>): (r: Reply)
    ensures SameGround(w, r.world) && r.world.cache == w.cache
  {
    if owner.tenant in w.requireMfa && !HasVerifiedFactor(w.factors, owner.identity) then Reply(w, Refused(EnrollmentRequired))
    else if HasVerifiedFactor(w.factors, owner.identity) then IssueChallenge(w, owner, device, d, down)
    else OpenSession(w, d, NewRow(owner, Sha256(d.refresh), None, device, w.now), Password, "", false, down)
  }

  /** A login has the identity row from its first lookup, and does not read it again. */
  function LoginDown(down: set<Access>): set<Access> {
    down - {ReadIdentity}
  }

  ghost function PasswordLogin(w: World, email: string, matches: bool, device: Device, d: Draw,
                               down: set<Access>): (r: Reply)
    ensures SameGround(w, r.world) && r.world.cache == w.cache
  {
    var identity := if FindIdentity in down then None else IdentityByEmail(w.tables, email);
    if identity.None? || FindCredential in down || !matches then Reply(w, Refused(InvalidCredentials))
    else
      var user := if FindUser in down then None else UserOf(w.tables, identity.value);
      if user.None? || ReadPolicy in down || ReadFactors in down then Reply(w, Refused(Internal))
      else
        AfterPassword(w, OwnerOf(w.tables, user.value), device, d, LoginDown(down))
  }

  /** The challenge is taken out before anything is checked. */
  function MfaCompletion(w: World, challenge: Id, valid: set<Id>, d: Draw, down: set<Access>): (r: Reply)
    ensures SameGround(w, r.world) && r.world.cache == w.cache
  {
    if TakeValue in down || challenge !in w.challenges then Reply(w, Refused(InvalidCode))
    else
      var c := w.challenges[challenge].value;
      var taken := w.(challenges := Without(w.challenges, challenge));
      if w.now > c.expiresAt || ReadFactors in down || !TotpAccepts(w.factors, c.owner.identity, valid) then
        Reply(taken, Refused(InvalidCode))
      else
        OpenSession(taken, d, NewRow(c.owner, Sha256(d.refresh), None, c.device, w.now), Mfa(challenge), "", false, down)
  }

  /** `identity` is whose credential FinishLogin verified, if it verified one. */
  ghost function WebauthnCompletion(w: World, identity: Option<Id>, agent: string, d: Draw, down: set<Access>): (r: Reply)
    ensures SameGround(w, r.world) && r.world.cache == w.cache
  {
    if identity.None? || identity.value !in w.tables.identities then Reply(w, Refused(Internal))
    else
      var user := if FindUser in down then None else UserOf(w.tables, identity.value);
      if user.None? then Reply(w, Refused(Internal))
      else
        OpenSession(w, d, NewRow(OwnerOf(w.tables, user.value), Sha256(d.refresh), None, Device(None, agent), w.now), Webauthn,
                    "", false, down)
  }

  // ----- OAuth -----

  function AuthorizeAs(env: Env, w: World, principal: Owner, input: AuthorizeInput, d: Draw, down: set<Access>): (r: Reply)
    ensures SameGround(w, r.world) && r.world.cache == w.cache
  {
    var asked := input.(principal := principal);
    match AuthorizeFails(env.clients, asked)
    case Some(why) => Reply(w, Refused(NotAuthorized(why)))
    case None =>
      if StoreValue in down then Reply(w, Refused(Internal))
      else
        Reply(w.(codes := w.codes[d.oneShot := Expiring(Minted(asked, w.now), w.now + CODE_TTL)],
                 history := w.history.(drawn := w.history.drawn + {d.oneShot})),
              CodeIssued(d.oneShot))
  }

  function CodeGrant(env: Env, w: World, input: TokenInput, d: Draw, down: set<Access>): (r: Reply)
    ensures SameGround(w, r.world) && r.world.cache == w.cache
  {
    if !ClientAuthenticated(env.crypto, env.clients, input) then Reply(w, Refused(Failure.InvalidClient))
    else if TakeValue in down || input.code !in w.codes then Reply(w, Refused(InvalidGrant))
    else
      var c := w.codes[input.code].value;
      var taken := w.(codes := Without(w.codes, input.code));
      if !CodeAccepted(env.crypto, input, c, w.now) then Reply(taken, Refused(InvalidGrant))
      else
        var reply := OpenSession(taken, d, NewRow(c.owner, Sha256(d.refresh), None, Device(None, ""), w.now),
                                 Exchanged(input.code), Scopes.Join(c.scopes), false, down);
        if reply.response.Opened? && "openid" in c.scopes && SignIdToken in down then
          Reply(reply.world, Refused(Internal))
        else reply
  }

  // ----- The server -----

  /** Time passes, and Redis drops the keys whose deadline it passes. */
  function Advance(w: World, dt: nat): World {
    var now := w.now + dt;
    w.(now := now,
       cache := Unexpired(w.cache, now),
       challenges := Unexpired(w.challenges, now),
       codes := Unexpired(w.codes, now))
  }

  /** A request that would repeat a random draw does not happen. */
  predicate Happens(w: World, r: Request) {
    match r
    case Login(_, _, _, _, d, _) => Fresh(w, d)
    case CompleteMfa(_, _, d, _) => Fresh(w, d)
    case WebauthnLogin(_, _, d, _) => Fresh(w, d)
    case Authorize(_, _, d, _, _) => Fresh(w, d)
    case ExchangeCode(_, d, _) => Fresh(w, d)
    case RefreshSession(_, d, _, _) => Fresh(w, d)
    case RefreshGrant(_, d, _) => Fresh(w, d)
    case _ => true
  }

  ghost function Handle(env: Env, w: World, r: Request): Reply {
    if !Happens(w, r) then Reply(w, Silent) else
    match r
    case Tick(dt) => Reply(Advance(w, dt), Silent)
    case Administer(after) =>
      Reply(if Consistent(after) && Grows(w.tables, after) then w.(tables := after) else w, Silent)
    case PutPolicy(tenant, mfa) =>
      Reply(w.(requireMfa := if mfa then w.requireMfa + {tenant} else w.requireMfa - {tenant}), Silent)
    case Enroll(f, identity, secret) =>
      Reply(if f in w.factors then w else w.(factors := w.factors[f := Factor(identity, "totp", secret, false)]), Silent)
    case VerifyEnrollment(f, valid) =>
      Reply(if f in w.factors && w.factors[f].secret in valid
            then w.(factors := w.factors[f := w.factors[f].(verified := true)]) else w, Silent)
    case Unenroll(f) => Reply(w.(factors := Without(w.factors, f)), Silent)
    case Login(email, matches, ip, agent, d, down) => PasswordLogin(w, email, matches, Device(Some(ip), agent), d, down)
    case CompleteMfa(challenge, valid, d, down) => MfaCompletion(w, challenge, valid, d, down)
    case WebauthnLogin(identity, agent, d, down) => WebauthnCompletion(w, identity, agent, d, down)
    case Authorize(cred, input, d, cacheUp, down) =>
      var known := Authenticate(w, cred, cacheUp, down);
      if known.response.Known? then AuthorizeAs(env, known.world, known.response.owner, input, d, down) else known
    case ExchangeCode(input, d, down) => CodeGrant(env, w, input, d, down)
    case RefreshSession(refresh, d, cacheUp, down) => Rotate(w, refresh, d, cacheUp, Unauthorized, down)
    case RefreshGrant(refresh, d, down) => Rotate(w, refresh, d, false, InvalidGrant, down)
    case LogoutSession(cred, cacheUp, down) =>
      var known := Authenticate(w, cred, cacheUp, down);
      if known.response.Known? then Logout(known.world, known.response.id, cacheUp, down) else known
    case Call(cred, cacheUp, down) => Authenticate(w, cred, cacheUp, down)
    case Cleanup(down) =>
      Reply(if DeleteSessions in down then w else w.(rows := Sweep(w.rows, w.now - SESSION_RETENTION)), Silent)
  }

  lemma Repeated(env: Env, w: World, r: Request)
    requires !Happens(w, r)
    ensures Handle(env, w, r) == Reply(w, Silent)
  {
  }

  lemma CleanupStep(env: Env, w: World, r: Request)
    requires r.Cleanup?
    ensures Handle(env, w, r).world ==
      if DeleteSessions in r.down then w else w.(rows := Sweep(w.rows, w.now - SESSION_RETENTION))
  {
    hide Sweep;
  }

  ghost function Serve(env: Env, w: World, rs: seq<Request>): World
    decreases |rs|
  {
    if rs == [] then w else Serve(env, Handle(env, w, rs[0]).world, rs[1..])
  }

  ghost predicate Reachable(env: Env, w: World) {
    exists rs :: w == Serve(env, START, rs)
  }

  lemma {:induction false} ServeMore(env: Env, w: World, rs: seq<Request>, r: Request)
    ensures Serve(env, w, rs + [r]) == Handle(env, Serve(env, w, rs), r).world
    decreases |rs|
  {
    var all := rs + [r];
    if rs != [] {
      assert all[0] == rs[0] && all[1..] == rs[1..] + [r];
      ServeMore(env, Handle(env, w, rs[0]).world, rs[1..], r);
    } else {
      assert all[1..] == [];
    }
  }

  lemma ReachableStep(env: Env, w: World, r: Request)
    requires Reachable(env, w)
    ensures Reachable(env, Handle(env, w, r).world)
  {
    var rs :| w == Serve(env, START, rs);
    ServeMore(env, START, rs, r);
  }

  ghost function Responses(env: Env, w: World, rs: seq<Request>): seq<Response>
    decreases |rs|
  {
    if rs == [] then [] else [Handle(env, w, rs[0]).response] + Responses(env, Handle(env, w, rs[0]).world, rs[1..])
  }

  // ----- Each request is what its path does, and leads from reachable states to reachable ones -----

  lemma Ticks(env: Env, w: World, dt: nat)
    ensures Handle(env, w, Tick(dt)) == Reply(Advance(w, dt), Silent)
  {
    hide Advance;
  }

  lemma Serves(env: Env, w: World, r: Request)
    ensures Reachable(env, w) ==> Reachable(env, Handle(env, w, r).world)
  {
    hide Handle;
    if Reachable(env, w) {
      ReachableStep(env, w, r);
    }
  }

  lemma LogsOut(env: Env, w: World, cred: Presented, cacheUp: bool, down: set<Access>)
    ensures var known := Authenticate(w, cred, cacheUp, down);
      Handle(env, w, Request.LogoutSession(cred, cacheUp, down)) ==
        if known.response.Known? then Logout(known.world, known.response.id, cacheUp, down) else known
  {
    hide Authenticate, Logout;
  }

  lemma Authorizes(env: Env, w: World, cred: Presented, input: AuthorizeInput, d: Draw, cacheUp: bool, down: set<Access>)
    requires Fresh(w, d)
    ensures var known := Authenticate(w, cred, cacheUp, down);
      Handle(env, w, Request.Authorize(cred, input, d, cacheUp, down)) ==
        if known.response.Known? then AuthorizeAs(env, known.world, known.response.owner, input, d, down) else known
  {
    hide Authenticate, AuthorizeAs;
  }

  lemma ServesRefresh(env: Env, w: World, refresh: Id, d: Draw, cacheUp: bool, down: set<Access>)
    requires Fresh(w, d)
    ensures var reply := Rotate(w, refresh, d, cacheUp, Unauthorized, down);
      Handle(env, w, Request.RefreshSession(refresh, d, cacheUp, down)) == reply && (Reachable(env, w) ==> Reachable(env, reply.world))
  {
    hide Rotate;
    Serves(env, w, Request.RefreshSession(refresh, d, cacheUp, down));
  }

  lemma ServesGrant(env: Env, w: World, refresh: Id, d: Draw, down: set<Access>)
    requires Fresh(w, d)
    ensures var reply := Rotate(w, refresh, d, false, InvalidGrant, down);
      Handle(env, w, RefreshGrant(refresh, d, down)) == reply && (Reachable(env, w) ==> Reachable(env, reply.world))
  {
    hide Rotate;
    Serves(env, w, RefreshGrant(refresh, d, down));
  }

  lemma ServesCall(env: Env, w: World, cred: Presented, cacheUp: bool, down: set<Access>)
    ensures var reply := Authenticate(w, cred, cacheUp, down);
      Handle(env, w, Call(cred, cacheUp, down)) == reply && (Reachable(env, w) ==> Reachable(env, reply.world))
  {
    hide Authenticate;
    Serves(env, w, Call(cred, cacheUp, down));
  }

  lemma ServesLogin(env: Env, w: World, email: string, matches: bool, ip: string, agent: string, d: Draw, down: set<Access>)
    requires Fresh(w, d)
    ensures var reply := PasswordLogin(w, email, matches, Device(Some(ip), agent), d, down);
      Handle(env, w, Request.Login(email, matches, ip, agent, d, down)) == reply && (Reachable(env, w) ==> Reachable(env, reply.world))
  {
    hide PasswordLogin;
    Serves(env, w, Request.Login(email, matches, ip, agent, d, down));
  }

  lemma ServesMfa(env: Env, w: World, challenge: Id, valid: set<Id>, d: Draw, down: set<Access>)
    requires Fresh(w, d)
    ensures var reply := MfaCompletion(w, challenge, valid, d, down);
      Handle(env, w, Request.CompleteMfa(challenge, valid, d, down)) == reply && (Reachable(env, w) ==> Reachable(env, reply.world))
  {
    hide MfaCompletion;
    Serves(env, w, Request.CompleteMfa(challenge, valid, d, down));
  }

  lemma ServesWebauthn(env: Env, w: World, verified: Option<Id>, agent: string, d: Draw, down: set<Access>)
    requires Fresh(w, d)
    ensures var reply := WebauthnCompletion(w, verified, agent, d, down);
      Handle(env, w, WebauthnLogin(verified, agent, d, down)) == reply && (Reachable(env, w) ==> Reachable(env, reply.world))
  {
    hide WebauthnCompletion;
    Serves(env, w, WebauthnLogin(verified, agent, d, down));
  }

  lemma ServesExchange(env: Env, w: World, input: TokenInput, d: Draw, down: set<Access>)
    requires Fresh(w, d)
    ensures var reply := CodeGrant(env, w, input, d, down);
      Handle(env, w, ExchangeCode(input, d, down)) == reply && (Reachable(env, w) ==> Reachable(env, reply.world))
  {
    hide CodeGrant;
    Serves(env, w, ExchangeCode(input, d, down));
  }
}
