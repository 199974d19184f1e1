// What a request can do to the session table: nothing, retire a session, open
// a root, rotate a session into a child, or clean up. Every guarantee about
// whole runs is proved of these effects, once for each.

module Effects {
  import opened Clock
  import opened Types
  import opened Sessions
  import opened Directory
  import opened OAuth
  import Scopes
  import opened Requests

  datatype Effect =
    | Keep
    | Retire(id: Id)
    | Root(draw: Draw, row: Session)
    | Child(parent: Id, draw: Draw, row: Session)
    | Clean

  function RowsAfter(w: World, e: Effect): Rows {
    match e
    case Keep => w.rows
    case Retire(id) => RevokeRow(w.rows, id, w.now)
    case Root(d, row) => w.rows[d.session := row]
    case Child(parent, d, row) => RevokeRow(w.rows, parent, w.now)[d.session := row]
    case Clean => Sweep(w.rows, w.now - SESSION_RETENTION)
  }

  function RootsAfter(w: World, e: Effect): map<Id, Id> {
    match e
    case Root(d, row) => w.history.roots[d.session := d.session]
    case Child(parent, d, row) => w.history.roots[d.session := RootOf(w.history.roots, d.session, row)]
    case _ => w.history.roots
  }

  /** What the request checked before it did this. */
  predicate Legitimate(w: World, e: Effect) {
    match e
    case Keep => true
    case Retire(id) => id in w.rows && w.rows[id].revokedAt.None?
    case Root(d, row) => Fresh(w, d) && row == NewRow(row.owner, Sha256(d.refresh), None, row.device, w.now)
    case Child(parent, d, row) =>
      && Fresh(w, d) && parent in w.rows && Usable(w.rows[parent], w.now)
      && row == NewRow(w.rows[parent].owner, Sha256(d.refresh), Some(parent), w.rows[parent].device, w.now)
    case Clean => true
  }

  function DrawnAfter(w: World, e: Effect): set<Id> {
    match e
    case Root(d, _) => w.history.drawn + {d.session, d.refresh}
    case Child(_, d, _) => w.history.drawn + {d.session, d.refresh}
    case _ => w.history.drawn
  }

  /** Tokens are handed out only for the session just inserted. */
  predicate NewToken(w: World, e: Effect, t: Token) {
    match e
    case Root(d, row) => t == AccessToken(d.session, row.owner, w.now)
    case Child(_, d, row) => t == AccessToken(d.session, row.owner, w.now)
    case _ => false
  }

  ghost predicate Does(w: World, v: World, e: Effect) {
    && Legitimate(w, e)
    && v.rows == RowsAfter(w, e) && v.history.roots == RootsAfter(w, e) && DrawnAfter(w, e) <= v.history.drawn
    && (forall t :: t in v.tokens ==> t in w.tokens || NewToken(w, e, t))
    && w.now <= v.now && (e.Keep? || v.now == w.now)
  }

  lemma OpenOutcome(w: World, d: Draw, row: Session, origin: Origin, scope: string, readsAfter: bool,
                    down: set<Access>)
    ensures var v := OpenSession(w, d, row, origin, scope, readsAfter, down).world;
      v == w || (v.rows == w.rows[d.session := row] && v.history == Recorded(w.history, d, row, origin)
                 && v.tokens <= w.tokens + {AccessToken(d.session, row.owner, w.now)})
  {
  }

  lemma OpenEffect(w: World, d: Draw, row: Session, origin: Origin, scope: string, down: set<Access>)
    returns (e: Effect)
    requires Fresh(w, d) && row == NewRow(row.owner, Sha256(d.refresh), None, row.device, w.now)
    ensures Does(w, OpenSession(w, d, row, origin, scope, false, down).world, e)
    ensures e.Keep? || e == Root(d, row)
  {
    OpenOutcome(w, d, row, origin, scope, false, down);
    e := if OpenSession(w, d, row, origin, scope, false, down).world == w then Keep else Root(d, row);
  }

  lemma RotateEffect(w: World, refresh: Id, d: Draw, forgets: bool, denial: Failure, down: set<Access>)
    returns (e: Effect)
    requires Fresh(w, d)
    ensures Does(w, Rotate(w, refresh, d, forgets, denial, down).world, e)
    ensures e.Keep? || e.Retire? || e.Child?
  {
    var found := ByHash(w.rows, Sha256(refresh));
    if FindSession in down || found.None? || !Usable(w.rows[found.value], w.now) || RevokeSession in down {
      return Keep;
    }
    e := ChildEffect(w, found.value, d, forgets, down);
  }

  lemma ChildEffect(w: World, id: Id, d: Draw, forgets: bool, down: set<Access>) returns (e: Effect)
    requires Fresh(w, d) && id in w.rows && Usable(w.rows[id], w.now)
    ensures
      var child := NewRow(w.rows[id].owner, Sha256(d.refresh), Some(id), w.rows[id].device, w.now);
      var v := OpenSession(Forget(Revoke(w, id), id, forgets), d, child, Rotated(id), "", true, down).world;
      Does(w, v, e) && (e == Retire(id) || e == Child(id, d, child))
  {
    var child := NewRow(w.rows[id].owner, Sha256(d.refresh), Some(id), w.rows[id].device, w.now);
    var retired := Forget(Revoke(w, id), id, forgets);
    OpenOutcome(retired, d, child, Rotated(id), "", true, down);
    e := if OpenSession(retired, d, child, Rotated(id), "", true, down).world == retired
         then Retire(id) else Child(id, d, child);
  }

  lemma LogoutEffect(w: World, id: Id, cacheUp: bool, down: set<Access>) returns (e: Effect)
    ensures Does(w, Logout(w, id, cacheUp, down).world, e)
    ensures e.Keep? || e.Retire?
  {
    e := if Logout(w, id, cacheUp, down).world.rows == w.rows then Keep else Retire(id);
  }

  lemma AuthenticateEffect(w: World, cred: Presented, cacheUp: bool, down: set<Access>)
    ensures var v := Authenticate(w, cred, cacheUp, down).world;
      v.rows == w.rows && v.history == w.history && v.tokens == w.tokens && v.now == w.now
  {
  }

  lemma AfterPasswordEffect(w: World, owner: Owner, device: Device, d: Draw, down: set<Access>) returns (e: Effect)
    requires Fresh(w, d)
    ensures Does(w, AfterPassword(w, owner, device, d, down).world, e) && (e.Keep? || e.Root?)
  {
    e := Keep;
    if !HasVerifiedFactor(w.factors, owner.identity) && owner.tenant !in w.requireMfa {
      e := OpenEffect(w, d, NewRow(owner, Sha256(d.refresh), None, device, w.now), Password, "", down);
    }
  }

  lemma PasswordEffect(w: World, email: string, matches: bool, device: Device, d: Draw, down: set<Access>)
    returns (e: Effect)
    requires Fresh(w, d)
    ensures Does(w, PasswordLogin(w, email, matches, device, d, down).world, e) && (e.Keep? || e.Root?)
  {
    e := Keep;
    var reply := PasswordLogin(w, email, matches, device, d, down);
    var identity := IdentityByEmail(w.tables, email);
    if reply.world != w && identity.Some? && UserOf(w.tables, identity.value).Some? {
      e := AfterPasswordEffect(w, OwnerOf(w.tables, UserOf(w.tables, identity.value).value), device, d, LoginDown(down));
    }
  }

  lemma MfaEffect(w: World, challenge: Id, valid: set<Id>, d: Draw, down: set<Access>) returns (e: Effect)
    requires Fresh(w, d)
    ensures Does(w, MfaCompletion(w, challenge, valid, d, down).world, e) && (e.Keep? || e.Root?)
  {
    e := Keep;
    if TakeValue !in down && challenge in w.challenges {
      var c := w.challenges[challenge].value;
      var taken := w.(challenges := Without(w.challenges, challenge));
      if MfaCompletion(w, challenge, valid, d, down).world != taken {
        e := OpenEffect(taken, d, NewRow(c.owner, Sha256(d.refresh), None, c.device, w.now), Mfa(challenge), "", down);
      }
    }
  }

  lemma WebauthnEffect(w: World, verified: Option<Id>, agent: string, d: Draw, down: set<Access>) returns (e: Effect)
    requires Fresh(w, d)
    ensures Does(w, WebauthnCompletion(w, verified, agent, d, down).world, e) && (e.Keep? || e.Root?)
  {
    e := Keep;
    if WebauthnCompletion(w, verified, agent, d, down).world.rows != w.rows {
      var user := UserOf(w.tables, verified.value).value;
      e := OpenEffect(w, d, NewRow(OwnerOf(w.tables, user), Sha256(d.refresh), None, Device(None, agent), w.now), Webauthn, "", down);
    }
  }

  lemma ExchangeEffect(env: Env, w: World, input: TokenInput, d: Draw, down: set<Access>) returns (e: Effect)
    requires Fresh(w, d)
    ensures Does(w, CodeGrant(env, w, input, d, down).world, e) && (e.Keep? || e.Root?)
  {
    e := Keep;
    if ClientAuthenticated(env.crypto, env.clients, input) && TakeValue !in down && input.code in w.codes {
      var c := w.codes[input.code].value;
      var taken := w.(codes := Without(w.codes, input.code));
      if CodeGrant(env, w, input, d, down).world != taken {
        e := OpenEffect(taken, d, NewRow(c.owner, Sha256(d.refresh), None, Device(None, ""), w.now), Exchanged(input.code),
                        Scopes.Join(c.scopes), down);
      }
    }
  }

  lemma OpeningEffect(env: Env, w: World, r: Request) returns (e: Effect)
    requires Happens(w, r) && (r.Login? || r.CompleteMfa? || r.WebauthnLogin? || r.ExchangeCode?)
    ensures Does(w, Handle(env, w, r).world, e) && (e.Keep? || e.Root?)
  {
    match r
    case Login(email, matches, ip, agent, d, down) =>
        e := PasswordEffect(w, email, matches, Device(Some(ip), agent), d, down);
    case CompleteMfa(challenge, valid, d, down) => e := MfaEffect(w, challenge, valid, d, down);
    case WebauthnLogin(verified, agent, d, down) => e := WebauthnEffect(w, verified, agent, d, down);
    case ExchangeCode(input, d, down) => e := ExchangeEffect(env, w, input, d, down);
  }

  lemma RotatingEffect(env: Env, w: World, r: Request) returns (e: Effect)
    requires Happens(w, r) && (r.RefreshSession? || r.RefreshGrant?)
    ensures Does(w, Handle(env, w, r).world, e) && (e.Keep? || e.Retire? || e.Child?)
  {
    match r
    case RefreshSession(refresh, d, cacheUp, down) => e := RotateEffect(w, refresh, d, cacheUp, Unauthorized, down);
    case RefreshGrant(refresh, d, down) => e := RotateEffect(w, refresh, d, false, InvalidGrant, down);
  }

  lemma AuthenticatedEffect(env: Env, w: World, r: Request) returns (e: Effect)
    requires Happens(w, r) && (r.Authorize? || r.Call? || r.LogoutSession?)
    ensures Does(w, Handle(env, w, r).world, e) && (e.Keep? || (e.Retire? && r.LogoutSession?))
  {
    e := Keep;
    AuthenticateEffect(w, r.cred, r.cacheUp, r.down);
    var known := Authenticate(w, r.cred, r.cacheUp, r.down);
    if r.LogoutSession? && known.response.Known? {
      e := LogoutEffect(known.world, known.response.id, r.cacheUp, r.down);
    }
  }

  lemma HousekeepingEffect(env: Env, w: World, r: Request)
    requires r.Tick? || r.Administer? || r.PutPolicy? || r.Enroll? || r.VerifyEnrollment? || r.Unenroll?
    ensures Does(w, Handle(env, w, r).world, Keep)
  {
    hide Directory.Consistent, Directory.Grows;
  }

  lemma CleanupEffect(env: Env, w: World, r: Request) returns (e: Effect)
    requires r.Cleanup?
    ensures Does(w, Handle(env, w, r).world, e) && (e.Keep? || e.Clean?)
  {
    hide Sweep;
    e := if DeleteSessions in r.down then Keep else Clean;
  }

  lemma RepeatEffect(env: Env, w: World, r: Request)
    requires !Happens(w, r)
    ensures Does(w, Handle(env, w, r).world, Keep)
  {
  }

  /** Every request has one of the five effects. */
  lemma HandleEffect(env: Env, w: World, r: Request) returns (e: Effect)
    ensures Does(w, Handle(env, w, r).world, e)
    ensures e.Child? || e.Retire? ==> r.RefreshSession? || r.RefreshGrant? || r.LogoutSession?
    ensures e.Root? ==> r.Login? || r.CompleteMfa? || r.WebauthnLogin? || r.ExchangeCode?
    ensures e.Clean? ==> r.Cleanup?
  {
    hide Handle, Does;
    e := Keep;
    if !Happens(w, r) {
      RepeatEffect(env, w, r);
    } else if r.Login? || r.CompleteMfa? || r.WebauthnLogin? || r.ExchangeCode? {
      e := OpeningEffect(env, w, r);
    } else if r.RefreshSession? || r.RefreshGrant? {
      e := RotatingEffect(env, w, r);
    } else if r.Authorize? || r.Call? || r.LogoutSession? {
      e := AuthenticatedEffect(env, w, r);
    } else if r.Cleanup? {
      e := CleanupEffect(env, w, r);
    } else {
      HousekeepingEffect(env, w, r);
    }
  }
}
