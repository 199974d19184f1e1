// No client can tell whether the cleanup has run: every later request, the
// logout endpoint included, gets the same answer with the old rows or without.

module CleanupInvisible {
  import opened Clock
  import opened Types
  import opened Sessions
  import opened Directory
  import opened Requests
  import opened OAuth
  import Scopes
  import SerialRotation
  import Coverage

  /** `some` is `all` without some rows that are past the cutoff. */
  ghost predicate Thinned(all: Rows, some: Rows, cutoff: Time) {
    && (forall id :: id in some ==> id in all && some[id] == all[id])
    && (forall id :: id in all && id !in some ==> Qualifies(all[id], cutoff))
  }

  /** The same state but for the session table. */
  ghost predicate Twins(w: World, v: World) {
    v == w.(rows := v.rows)
  }

  ghost predicate Trimmed(w: World, v: World) {
    Twins(w, v) && Thinned(w.rows, v.rows, w.now - SESSION_RETENTION)
  }

  /** What is known of the two states from how they were reached. */
  ghost predicate Paired(w: World, v: World) {
    && Trimmed(w, v) && SerialRotation.Inv(w) && SerialRotation.Inv(v)
    && Coverage.CacheCovered(v) && Coverage.TokensDated(w)
  }

  ghost predicate Mirrors(r: Reply, s: Reply) {
    r.response == s.response && Twins(r.world, s.world)
  }

  ghost predicate Alike(r: Reply, s: Reply) {
    r.response == s.response && Trimmed(r.world, s.world)
  }

  // ----- The table -----

  /** Whether a session-creating path gets as far as its insert. */
  predicate Inserts(readsAfter: bool, down: set<Access>) {
    (readsAfter || !ReadFails(down)) && CreateSession !in down
  }

  lemma ThinRevoked(all: Rows, some: Rows, id: Id, now: Time, cutoff: Time)
    requires Thinned(all, some, cutoff) && (id in all ==> id in some)
    ensures Thinned(RevokeRow(all, id, now), RevokeRow(some, id, now), cutoff)
  {
  }

  lemma UsableStays(all: Rows, some: Rows, id: Id, now: Time)
    requires Thinned(all, some, now - SESSION_RETENTION) && id in all && Usable(all[id], now)
    ensures id in some && some[id] == all[id]
  {
  }

  lemma SameLookup(all: Rows, some: Rows, hash: Digest, cutoff: Time)
    requires Thinned(all, some, cutoff) && UniqueHashes(all)
    ensures var found := ByHash(all, hash);
      ByHash(some, hash) == if found.Some? && found.value in some then found else None
  {
    var thin := ByHash(some, hash);
    if thin.Some? {
      assert all[thin.value].refreshHash == hash;
    }
  }

  /** The cleanup itself: whatever blocks it in the thinned table also blocks it in the full one. */
  lemma SameCleanup(all: Rows, some: Rows, cutoff: Time)
    requires Thinned(all, some, cutoff)
    ensures Thinned(Sweep(all, cutoff), Sweep(some, cutoff), cutoff)
  {
    if Orphans(some, cutoff) {
      var id :| && id in some && !Qualifies(some[id], cutoff)
                && some[id].parent.Some? && some[id].parent.value in some
                && Qualifies(some[some[id].parent.value], cutoff);
      assert id in all && all[id].parent.value in all && Qualifies(all[all[id].parent.value], cutoff);
      assert Orphans(all, cutoff);
    }
  }

  // ----- Requests that create sessions -----

  /** The rows an opening leaves behind, and that all else it does is the same in both states. */
  lemma OpeningRows(w: World, d: Draw, row: Session, origin: Origin, scope: string, readsAfter: bool,
                    down: set<Access>)
    requires d.session !in w.rows && (row.parent.Some? ==> row.parent.value in w.rows)
    ensures OpenSession(w, d, row, origin, scope, readsAfter, down).world.rows
         == if Inserts(readsAfter, down) then w.rows[d.session := row] else w.rows
  {
  }

  lemma SameOpening(w: World, v: World, d: Draw, row: Session, origin: Origin, scope: string, readsAfter: bool,
                    down: set<Access>)
    requires Trimmed(w, v) && d.session !in w.rows && d.session !in v.rows
    requires row.parent.Some? ==> row.parent.value in w.rows && row.parent.value in v.rows
    ensures Alike(OpenSession(w, d, row, origin, scope, readsAfter, down),
                  OpenSession(v, d, row, origin, scope, readsAfter, down))
  {
    OpeningRows(w, d, row, origin, scope, readsAfter, down);
    OpeningRows(v, d, row, origin, scope, readsAfter, down);
  }

  lemma SameChild(w: World, v: World, id: Id, d: Draw, forgets: bool, down: set<Access>)
    requires Trimmed(w, v) && d.session !in w.rows && d.session !in v.rows
    requires id in w.rows && id in v.rows
    ensures
      var row := NewRow(w.rows[id].owner, Sha256(d.refresh), Some(id), w.rows[id].device, w.now);
      Alike(OpenSession(Forget(Revoke(w, id), id, forgets), d, row, Rotated(id), "", true, down),
            OpenSession(Forget(Revoke(v, id), id, forgets), d, row, Rotated(id), "", true, down))
  {
    var w', v' := Forget(Revoke(w, id), id, forgets), Forget(Revoke(v, id), id, forgets);
    var row := NewRow(w.rows[id].owner, Sha256(d.refresh), Some(id), w.rows[id].device, w.now);
    ThinRevoked(w.rows, v.rows, id, w.now, w.now - SESSION_RETENTION);
    SameOpening(w', v', d, row, Rotated(id), "", true, down);
  }

  lemma SameRotation(w: World, v: World, refresh: Id, d: Draw, forgets: bool, denial: Failure, down: set<Access>)
    requires Trimmed(w, v) && UniqueHashes(w.rows) && d.session !in w.rows && d.session !in v.rows
    ensures Alike(Rotate(w, refresh, d, forgets, denial, down), Rotate(v, refresh, d, forgets, denial, down))
  {
    hide OpenSession, Forget, Revoke, NewRow, ByHash, Usable, UniqueHashes;
    SameLookup(w.rows, v.rows, Sha256(refresh), w.now - SESSION_RETENTION);
    var found := ByHash(w.rows, Sha256(refresh));
    if found.Some? && Usable(w.rows[found.value], w.now) {
      UsableStays(w.rows, v.rows, found.value, w.now);
      SameChild(w, v, found.value, d, forgets, down);
    }
  }

  lemma SameChallenge(w: World, v: World, owner: Owner, device: Device, d: Draw, down: set<Access>)
    requires Twins(w, v)
    ensures
      var r, s := IssueChallenge(w, owner, device, d, down), IssueChallenge(v, owner, device, d, down);
      Mirrors(r, s) && r.world.rows == w.rows && s.world.rows == v.rows
  {
  }

  lemma SameAfterPassword(w: World, v: World, owner: Owner, device: Device, d: Draw, down: set<Access>)
    requires Trimmed(w, v) && d.session !in w.rows && d.session !in v.rows
    ensures Alike(AfterPassword(w, owner, device, d, down), AfterPassword(v, owner, device, d, down))
  {
    hide IssueChallenge, OpenSession, Thinned;
    SameChallenge(w, v, owner, device, d, down);
    SameOpening(w, v, d, NewRow(owner, Sha256(d.refresh), None, device, w.now), Password, "", false, down);
  }

  lemma SamePassword(w: World, v: World, email: string, matches: bool, device: Device, d: Draw, down: set<Access>)
    requires Trimmed(w, v) && d.session !in w.rows && d.session !in v.rows
    ensures Alike(PasswordLogin(w, email, matches, device, d, down), PasswordLogin(v, email, matches, device, d, down))
  {
    hide AfterPassword, Thinned;
    var identity := IdentityByEmail(w.tables, email);
    if identity.Some? && UserOf(w.tables, identity.value).Some? {
      SameAfterPassword(w, v, OwnerOf(w.tables, UserOf(w.tables, identity.value).value), device, d, LoginDown(down));
    }
  }

  lemma SameMfa(w: World, v: World, challenge: Id, valid: set<Id>, d: Draw, down: set<Access>)
    requires Trimmed(w, v) && d.session !in w.rows && d.session !in v.rows
    ensures Alike(MfaCompletion(w, challenge, valid, d, down), MfaCompletion(v, challenge, valid, d, down))
  {
    hide OpenSession, Thinned;
    if challenge in w.challenges {
      var c := w.challenges[challenge].value;
      SameOpening(w.(challenges := Without(w.challenges, challenge)), v.(challenges := Without(v.challenges, challenge)),
                  d, NewRow(c.owner, Sha256(d.refresh), None, c.device, w.now), Mfa(challenge), "", false, down);
    }
  }

  lemma SameWebauthn(w: World, v: World, verified: Option<Id>, agent: string, d: Draw, down: set<Access>)
    requires Trimmed(w, v) && d.session !in w.rows && d.session !in v.rows
    ensures Alike(WebauthnCompletion(w, verified, agent, d, down), WebauthnCompletion(v, verified, agent, d, down))
  {
    hide OpenSession, Thinned;
    if verified.Some? && UserOf(w.tables, verified.value).Some? {
      var owner := OwnerOf(w.tables, UserOf(w.tables, verified.value).value);
      SameOpening(w, v, d, NewRow(owner, Sha256(d.refresh), None, Device(None, agent), w.now), Webauthn, "", false, down);
    }
  }

  lemma SameExchange(env: Env, w: World, v: World, input: TokenInput, d: Draw, down: set<Access>)
    requires Trimmed(w, v) && d.session !in w.rows && d.session !in v.rows
    ensures Alike(CodeGrant(env, w, input, d, down), CodeGrant(env, v, input, d, down))
  {
    hide OpenSession, Thinned, CodeAccepted;
    if input.code in w.codes {
      var c := w.codes[input.code].value;
      SameOpening(w.(codes := Without(w.codes, input.code)), v.(codes := Without(v.codes, input.code)),
                  d, NewRow(c.owner, Sha256(d.refresh), None, Device(None, ""), w.now), Exchanged(input.code),
                  Scopes.Join(c.scopes), false, down);
    }
  }

  lemma SameCreation(env: Env, w: World, v: World, r: Request, d: Draw)
    requires Trimmed(w, v) && Happens(w, r) && d.session !in w.rows && d.session !in v.rows
    requires (r.Login? || r.CompleteMfa? || r.WebauthnLogin? || r.ExchangeCode?) && r.draw == d
    ensures Alike(Handle(env, w, r), Handle(env, v, r))
  {
    hide PasswordLogin, MfaCompletion, WebauthnCompletion, CodeGrant, Thinned;
    match r {
      case Login(email, matches, ip, agent, d, down) =>
        SamePassword(w, v, email, matches, Device(Some(ip), agent), d, down);
      case CompleteMfa(challenge, valid, d, down) => SameMfa(w, v, challenge, valid, d, down);
      case WebauthnLogin(verified, agent, d, down) => SameWebauthn(w, v, verified, agent, d, down);
      case ExchangeCode(input, d, down) => SameExchange(env, w, v, input, d, down);
    }
  }

  // ----- Requests that authenticate -----

  lemma MirrorAuthentication(w: World, v: World, cred: Presented, cacheUp: bool, down: set<Access>)
    requires Twins(w, v)
    requires cred.session.Some? ==>
      var id := cred.session.value;
      && (id in v.rows ==> id in w.rows && v.rows[id] == w.rows[id])
      && (id in w.rows && Usable(w.rows[id], w.now) ==> id in v.rows)
    ensures Mirrors(Authenticate(w, cred, cacheUp, down), Authenticate(v, cred, cacheUp, down))
  {
  }

  lemma WhoAuthenticates(w: World, cred: Presented, cacheUp: bool, down: set<Access>)
    ensures var r := Authenticate(w, cred, cacheUp, down);
      && r.world.rows == w.rows
      && (r.response.Known? ==>
            || (cred.bearer.Some? && BearerValid(w.tokens, w.now, cred.bearer.value) && r.response.id == cred.bearer.value.session)
            || (cred.session.Some? && r.response.id == cred.session.value
                && (r.response.id in w.cache || (r.response.id in w.rows && Usable(w.rows[r.response.id], w.now)))))
  {
  }

  /** A session that authenticates a request has not been deleted: its cache entry covers it, its
      row is usable, or its token is too young. */
  lemma SameAuthentication(w: World, v: World, cred: Presented, cacheUp: bool, down: set<Access>)
    requires Paired(w, v)
    ensures var r, s := Authenticate(w, cred, cacheUp, down), Authenticate(v, cred, cacheUp, down);
      && Mirrors(r, s) && r.world.rows == w.rows && s.world.rows == v.rows
      && (r.response.Known? && r.response.id in w.rows ==> r.response.id in v.rows)
  {
    MirrorAuthentication(w, v, cred, cacheUp, down);
    WhoAuthenticates(w, cred, cacheUp, down);
    WhoAuthenticates(v, cred, cacheUp, down);
  }

  lemma LogoutRows(w: World, id: Id, cacheUp: bool, down: set<Access>)
    ensures Logout(w, id, cacheUp, down).world.rows
         == if id in w.rows && w.rows[id].revokedAt.None? && FindSession !in down && RevokeSession !in down
            then RevokeRow(w.rows, id, w.now) else w.rows
  {
  }

  lemma SameLogout(w: World, v: World, id: Id, cacheUp: bool, down: set<Access>)
    requires Trimmed(w, v) && (id in w.rows ==> id in v.rows)
    ensures Alike(Logout(w, id, cacheUp, down), Logout(v, id, cacheUp, down))
  {
    ThinRevoked(w.rows, v.rows, id, w.now, w.now - SESSION_RETENTION);
    LogoutRows(w, id, cacheUp, down);
    LogoutRows(v, id, cacheUp, down);
  }

  lemma SameAuthorization(env: Env, w: World, v: World, o: Owner, input: AuthorizeInput, d: Draw, down: set<Access>)
    requires Twins(w, v)
    ensures
      var r, s := AuthorizeAs(env, w, o, input, d, down), AuthorizeAs(env, v, o, input, d, down);
      Mirrors(r, s) && r.world.rows == w.rows && s.world.rows == v.rows
  {
  }

  lemma SameAuthenticated(env: Env, w: World, v: World, r: Request)
    requires Paired(w, v) && Happens(w, r) && (r.Authorize? || r.LogoutSession? || r.Call?)
    ensures Alike(Handle(env, w, r), Handle(env, v, r))
  {
    hide Authenticate, Logout, AuthorizeAs, Thinned;
    SameAuthentication(w, v, r.cred, r.cacheUp, r.down);
    var known, known' := Authenticate(w, r.cred, r.cacheUp, r.down), Authenticate(v, r.cred, r.cacheUp, r.down);
    if known.response.Known? {
      match r
      case Authorize(_, input, d, _, down) =>
        SameAuthorization(env, known.world, known'.world, known.response.owner, input, d, down);
      case LogoutSession(_, cacheUp, down) => SameLogout(known.world, known'.world, known.response.id, cacheUp, down);
      case _ =>
    }
  }

  // ----- Everything else -----

  lemma SameAdvance(w: World, v: World, dt: nat)
    requires Trimmed(w, v)
    ensures Trimmed(Advance(w, dt), Advance(v, dt))
  {
  }

  lemma SameTickOrSweep(env: Env, w: World, v: World, r: Request)
    requires Trimmed(w, v) && (r.Tick? || r.Cleanup?)
    ensures Alike(Handle(env, w, r), Handle(env, v, r))
  {
    hide Advance, Sweep, Thinned;
    if r.Tick? {
      SameAdvance(w, v, r.dt);
    } else {
      SameCleanup(w.rows, v.rows, w.now - SESSION_RETENTION);
    }
  }

  lemma SameRepeat(env: Env, w: World, v: World, r: Request)
    requires Trimmed(w, v) && !Happens(w, r)
    ensures Alike(Handle(env, w, r), Handle(env, v, r))
  {
  }

  lemma SameHousekeeping(env: Env, w: World, v: World, r: Request)
    requires Trimmed(w, v)
    requires r.Administer? || r.PutPolicy? || r.Enroll? || r.VerifyEnrollment? || r.Unenroll?
    ensures Alike(Handle(env, w, r), Handle(env, v, r))
  {
    hide Consistent, Grows, Thinned;
  }

  lemma NewId(w: World, d: Draw)
    requires SerialRotation.Inv(w) && Fresh(w, d)
    ensures d.session !in w.rows
  {
    assert d.session !in w.history.roots;
  }

  lemma SameRotating(env: Env, w: World, v: World, r: Request)
    requires Paired(w, v) && Happens(w, r) && (r.RefreshSession? || r.RefreshGrant?)
    ensures Alike(Handle(env, w, r), Handle(env, v, r))
  {
    hide Rotate, Thinned;
    NewId(w, r.draw);
    NewId(v, r.draw);
    match r
    case RefreshSession(refresh, d, cacheUp, down) => SameRotation(w, v, refresh, d, cacheUp, Unauthorized, down);
    case RefreshGrant(refresh, d, down) => SameRotation(w, v, refresh, d, false, InvalidGrant, down);
  }

  lemma SameStep(env: Env, w: World, v: World, r: Request)
    requires Paired(w, v)
    ensures Alike(Handle(env, w, r), Handle(env, v, r))
  {
    hide Handle;
    if Happens(w, r) {
      if r.Login? || r.CompleteMfa? || r.WebauthnLogin? || r.ExchangeCode? {
        NewId(w, r.draw);
        NewId(v, r.draw);
        SameCreation(env, w, v, r, r.draw);
      } else if r.RefreshSession? || r.RefreshGrant? {
        SameRotating(env, w, v, r);
      } else if r.Authorize? || r.LogoutSession? || r.Call? {
        SameAuthenticated(env, w, v, r);
      } else if r.Cleanup? || r.Tick? {
        SameTickOrSweep(env, w, v, r);
      } else {
        SameHousekeeping(env, w, v, r);
      }
    } else {
      SameRepeat(env, w, v, r);
    }
  }

  lemma {:induction false} SameAnswers(env: Env, w: World, v: World, rs: seq<Request>)
    requires Reachable(env, w) && Reachable(env, v) && Trimmed(w, v)
    ensures Responses(env, w, rs) == Responses(env, v, rs)
    decreases |rs|
  {
    if rs != [] {
      SerialRotation.ReachableInv(env, w);
      Coverage.CacheAndTokensAgreeWithTable(env, w);
      SerialRotation.ReachableInv(env, v);
      Coverage.CacheAndTokensAgreeWithTable(env, v);
      SameStep(env, w, v, rs[0]);
      ReachableStep(env, w, rs[0]);
      ReachableStep(env, v, rs[0]);
      SameAnswers(env, Handle(env, w, rs[0]).world, Handle(env, v, rs[0]).world, rs[1..]);
    }
  }

  lemma SameSweep(w: World)
    ensures Trimmed(w, w.(rows := Sweep(w.rows, w.now - SESSION_RETENTION)))
  {
  }

  /** From any reachable state, the cleanup changes no answer to any later request. */
  lemma CleanupUnobservable(env: Env, w: World, rs: seq<Request>)
    requires Reachable(env, w)
    ensures Responses(env, w, rs) == Responses(env, w.(rows := Sweep(w.rows, w.now - SESSION_RETENTION)), rs)
  {
    hide Sweep, Handle, Thinned;
    ReachableStep(env, w, Cleanup({}));
    CleanupStep(env, w, Cleanup({}));
    SameSweep(w);
    SameAnswers(env, w, w.(rows := Sweep(w.rows, w.now - SESSION_RETENTION)), rs);
  }

  // ----- Whole runs -----

  function WithoutCleanup(rs: seq<Request>): seq<Request> {
    if rs == [] then [] else (if rs[0].Cleanup? then [] else [rs[0]]) + WithoutCleanup(rs[1..])
  }

  /** What the clients see of a run: the answers, with those of the cleanup left out. */
  ghost function Answers(env: Env, w: World, rs: seq<Request>): seq<Response>
    decreases |rs|
  {
    if rs == [] then []
    else
      var reply := Handle(env, w, rs[0]);
      (if rs[0].Cleanup? then [] else [reply.response]) + Answers(env, reply.world, rs[1..])
  }

  /** Any number of cleanups, anywhere in a run, might as well not have happened. */
  lemma {:induction false} RunsWithoutCleanup(env: Env, w: World, rs: seq<Request>)
    requires Reachable(env, w)
    ensures Answers(env, w, rs) == Responses(env, w, WithoutCleanup(rs))
    decreases |rs|
  {
    hide Handle, Sweep;
    if rs != [] {
      var rest := WithoutCleanup(rs[1..]);
      ReachableStep(env, w, rs[0]);
      RunsWithoutCleanup(env, Handle(env, w, rs[0]).world, rs[1..]);
      if rs[0].Cleanup? {
        CleanupStep(env, w, rs[0]);
        CleanupUnobservable(env, w, rest);
        assert [] + rest == rest;
      } else {
        assert ([rs[0]] + rest)[1..] == rest;
      }
    }
  }

  /** On its own, without the check that comes before it at the endpoint, the logout use case does
      tell a deleted session from a revoked or expired one. */
  lemma LogoutAloneTells(w: World, id: Id, cacheUp: bool, down: set<Access>)
    ensures
      var swept := w.(rows := Sweep(w.rows, w.now - SESSION_RETENTION));
      (Logout(w, id, cacheUp, down).response == Logout(swept, id, cacheUp, down).response)
      <==> (id !in w.rows || id in swept.rows || FindSession in down)
  {
  }
}
