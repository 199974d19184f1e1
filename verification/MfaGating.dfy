// When a password is enough, and what a second factor stands for, over whole
// runs of requests.

module MfaGating {
  import opened Clock
  import opened Types
  import opened Sessions
  import opened Directory
  import opened OAuth
  import Scopes
  import opened Requests
  import opened Effects
  import SerialRotation

  /** What holds when session `id` first appears, going from w to v by r. */
  ghost predicate Began(w: World, v: World, r: Request, id: Id) {
    && id !in w.history.drawn && id in v.history.drawn && id in v.rows && id in v.history.origins
    && v.rows[id].createdAt == w.now
    && match v.history.origins[id]
       case Password =>
         && r.Login? && r.matches && IdentityByEmail(w.tables, r.email) == Some(v.rows[id].owner.identity)
         && !HasVerifiedFactor(w.factors, v.rows[id].owner.identity) && v.rows[id].owner.tenant !in w.requireMfa
       case Mfa(c) =>
         && r.CompleteMfa? && r.challenge == c && id == r.draw.session && c in w.challenges && c !in v.challenges
         && w.now <= w.challenges[c].value.expiresAt && v.rows[id].owner == w.challenges[c].value.owner
         && TotpAccepts(w.factors, v.rows[id].owner.identity, r.valid)
       case _ => true
  }

  ghost predicate OldOrNew(w: World, v: World, r: Request, id: Id) {
    && id in v.history.origins
    && ((id in w.history.origins && v.history.origins[id] == w.history.origins[id]) || Began(w, v, r, id))
  }

  ghost predicate OriginsFrom(w: World, v: World, r: Request) {
    forall id :: id in v.history.origins ==> OldOrNew(w, v, r, id)
  }

  /** The challenge was handed out now, for a password that was right. */
  ghost predicate Handed(w: World, v: World, r: Request, response: Response, c: Id) {
    && r.Login? && r.matches && response == MfaRequired(c)
    && c in v.challenges && v.challenges[c].value.expiresAt == w.now + CHALLENGE_TTL && v.now == w.now
    && c == r.draw.oneShot && c !in w.history.drawn && c in v.history.drawn
    && HasVerifiedFactor(w.factors, v.challenges[c].value.owner.identity)
    && IdentityByEmail(w.tables, r.email) == Some(v.challenges[c].value.owner.identity)
  }

  ghost predicate KeptOrHanded(w: World, v: World, r: Request, response: Response, c: Id) {
    && c in v.challenges
    && ((c in w.challenges && v.challenges[c] == w.challenges[c] && w.now <= v.now) || Handed(w, v, r, response, c))
  }

  ghost predicate ChallengesFrom(w: World, v: World, r: Request, response: Response) {
    forall c :: c in v.challenges ==> KeptOrHanded(w, v, r, response, c)
  }

  // ----- One request -----

  lemma OpenOrigins(w: World, d: Draw, row: Session, origin: Origin, scope: string, readsAfter: bool, down: set<Access>)
    ensures var v := OpenSession(w, d, row, origin, scope, readsAfter, down).world;
      || v.history.origins == w.history.origins
      || (&& v.rows == w.rows[d.session := row] && v.history.origins == w.history.origins[d.session := origin]
          && d.session in v.history.drawn)
  {
    OpenOutcome(w, d, row, origin, scope, readsAfter, down);
    hide OpenSession;
  }

  lemma PasswordOrigins(w: World, r: Request)
    requires r.Login? && Fresh(w, r.draw)
    ensures
      var reply := PasswordLogin(w, r.email, r.matches, Device(Some(r.ip), r.agent), r.draw, r.down);
      OriginsFrom(w, reply.world, r) && ChallengesFrom(w, reply.world, r, reply.response)
  {
    var identity := IdentityByEmail(w.tables, r.email);
    if r.matches && identity.Some? && UserOf(w.tables, identity.value).Some? {
      var owner := OwnerOf(w.tables, UserOf(w.tables, identity.value).value);
      AfterPasswordOrigins(w, r, owner, LoginDown(r.down));
    }
  }

  lemma AfterPasswordOrigins(w: World, r: Request, owner: Owner, down: set<Access>)
    requires r.Login? && r.matches && Fresh(w, r.draw) && IdentityByEmail(w.tables, r.email) == Some(owner.identity)
    ensures
      var reply := AfterPassword(w, owner, Device(Some(r.ip), r.agent), r.draw, down);
      OriginsFrom(w, reply.world, r) && ChallengesFrom(w, reply.world, r, reply.response)
  {
    hide OpenSession;
    OpenOrigins(w, r.draw, NewRow(owner, Sha256(r.draw.refresh), None, Device(Some(r.ip), r.agent), w.now), Password, "", false, down);
  }

  lemma MfaOrigins(w: World, r: Request)
    requires r.CompleteMfa? && Fresh(w, r.draw)
    ensures
      var reply := MfaCompletion(w, r.challenge, r.valid, r.draw, r.down);
      OriginsFrom(w, reply.world, r) && ChallengesFrom(w, reply.world, r, reply.response)
  {
    hide OpenSession;
    if r.challenge in w.challenges {
      var c := w.challenges[r.challenge].value;
      OpenOrigins(w.(challenges := Without(w.challenges, r.challenge)), r.draw,
                  NewRow(c.owner, Sha256(r.draw.refresh), None, c.device, w.now), Mfa(r.challenge), "", false, r.down);
    }
  }

  lemma WebauthnOrigins(w: World, r: Request)
    requires r.WebauthnLogin? && Fresh(w, r.draw)
    ensures
      var reply := WebauthnCompletion(w, r.verified, r.agent, r.draw, r.down);
      OriginsFrom(w, reply.world, r) && ChallengesFrom(w, reply.world, r, reply.response)
  {
    hide OpenSession;
    if r.verified.Some? && UserOf(w.tables, r.verified.value).Some? {
      var owner := OwnerOf(w.tables, UserOf(w.tables, r.verified.value).value);
      OpenOrigins(w, r.draw, NewRow(owner, Sha256(r.draw.refresh), None, Device(None, r.agent), w.now), Webauthn, "", false, r.down);
    }
  }

  lemma ExchangeOrigins(env: Env, w: World, r: Request)
    requires r.ExchangeCode? && Fresh(w, r.draw)
    ensures
      var reply := CodeGrant(env, w, r.exchange, r.draw, r.down);
      OriginsFrom(w, reply.world, r) && ChallengesFrom(w, reply.world, r, reply.response)
  {
    hide OpenSession;
    if r.exchange.code in w.codes {
      var c := w.codes[r.exchange.code].value;
      OpenOrigins(w.(codes := Without(w.codes, r.exchange.code)), r.draw,
                  NewRow(c.owner, Sha256(r.draw.refresh), None, Device(None, ""), w.now), Exchanged(r.exchange.code),
                  Scopes.Join(c.scopes), false, r.down);
    }
  }

  lemma RotateOrigins(w: World, r: Request, refresh: Id, d: Draw, forgets: bool, denial: Failure, down: set<Access>)
    requires Fresh(w, d)
    ensures
      var reply := Rotate(w, refresh, d, forgets, denial, down);
      OriginsFrom(w, reply.world, r) && ChallengesFrom(w, reply.world, r, reply.response)
  {
    hide OpenSession, Forget, Revoke;
    var found := ByHash(w.rows, Sha256(refresh));
    if found.Some? {
      ChildOrigins(w, r, found.value, d, forgets, down);
    }
  }

  lemma ChildOrigins(w: World, r: Request, id: Id, d: Draw, forgets: bool, down: set<Access>)
    requires Fresh(w, d) && id in w.rows
    ensures
      var row := NewRow(w.rows[id].owner, Sha256(d.refresh), Some(id), w.rows[id].device, w.now);
      var reply := OpenSession(Forget(Revoke(w, id), id, forgets), d, row, Rotated(id), "", true, down);
      OriginsFrom(w, reply.world, r) && ChallengesFrom(w, reply.world, r, reply.response)
  {
    hide RootOf;
    hide OpenSession, Handed;
    var row := NewRow(w.rows[id].owner, Sha256(d.refresh), Some(id), w.rows[id].device, w.now);
    OpenOrigins(Forget(Revoke(w, id), id, forgets), d, row, Rotated(id), "", true, down);
  }

  /** Neither a session nor a challenge is new. */
  ghost predicate Quiet(w: World, v: World) {
    && v.history.origins == w.history.origins && w.now <= v.now
    && forall c :: c in v.challenges ==> c in w.challenges && v.challenges[c] == w.challenges[c]
  }

  lemma QuietOrigins(w: World, v: World, r: Request, response: Response)
    requires Quiet(w, v)
    ensures OriginsFrom(w, v, r) && ChallengesFrom(w, v, r, response)
  {
  }

  lemma QuietAuthorize(env: Env, w: World, o: Owner, input: AuthorizeInput, d: Draw, down: set<Access>)
    ensures Quiet(w, AuthorizeAs(env, w, o, input, d, down).world)
  {
    hide AuthorizeFails;
  }

  lemma QuietLogout(w: World, id: Id, cacheUp: bool, down: set<Access>)
    ensures Quiet(w, Logout(w, id, cacheUp, down).world)
  {
  }

  lemma QuietAuthenticate(w: World, cred: Presented, cacheUp: bool, down: set<Access>)
    ensures Quiet(w, Authenticate(w, cred, cacheUp, down).world)
  {
  }

  lemma QuietAuthenticated(env: Env, w: World, r: Request)
    requires Happens(w, r) && (r.Authorize? || r.LogoutSession? || r.Call?)
    ensures Quiet(w, Handle(env, w, r).world)
  {
    hide Authenticate, AuthorizeAs, Logout;
    QuietAuthenticate(w, r.cred, r.cacheUp, r.down);
    var known := Authenticate(w, r.cred, r.cacheUp, r.down);
    if known.response.Known? {
      match r
      case Authorize(_, input, d, _, down) => QuietAuthorize(env, known.world, known.response.owner, input, d, down);
      case LogoutSession(_, cacheUp, down) => QuietLogout(known.world, known.response.id, cacheUp, down);
      case _ =>
    }
  }

  lemma QuietHousekeeping(env: Env, w: World, r: Request)
    requires !Happens(w, r) || r.Cleanup? || r.Tick? || r.Administer? || r.PutPolicy? || r.Enroll?
      || r.VerifyEnrollment? || r.Unenroll?
    ensures Quiet(w, Handle(env, w, r).world)
  {
    hide Sweep, Consistent, Grows;
  }

  /** Where the sessions and the challenges after a request come from. */
  lemma HandleOrigins(env: Env, w: World, r: Request)
    ensures var reply := Handle(env, w, r);
      OriginsFrom(w, reply.world, r) && ChallengesFrom(w, reply.world, r, reply.response)
  {
    hide PasswordLogin, MfaCompletion, WebauthnCompletion, CodeGrant, Rotate, Sweep, Authenticate, AuthorizeAs, Logout,
      Advance, Consistent, Grows, OriginsFrom, ChallengesFrom, Quiet;
    if !Happens(w, r) {
      QuietHousekeeping(env, w, r);
      QuietOrigins(w, Handle(env, w, r).world, r, Handle(env, w, r).response);
    } else if r.Login? {
      PasswordOrigins(w, r);
    } else if r.CompleteMfa? {
      MfaOrigins(w, r);
    } else if r.WebauthnLogin? {
      WebauthnOrigins(w, r);
    } else if r.ExchangeCode? {
      ExchangeOrigins(env, w, r);
    } else if r.RefreshSession? {
      RotateOrigins(w, r, r.refresh, r.draw, r.cacheUp, Unauthorized, r.down);
    } else if r.RefreshGrant? {
      RotateOrigins(w, r, r.refresh, r.draw, false, InvalidGrant, r.down);
    } else {
      if r.Authorize? || r.LogoutSession? || r.Call? {
        QuietAuthenticated(env, w, r);
      } else {
        QuietHousekeeping(env, w, r);
      }
      QuietOrigins(w, Handle(env, w, r).world, r, Handle(env, w, r).response);
    }
  }

  // ----- Whole runs -----

  /** The state before request `i` of a run, and the reply to it. */
  ghost function Before(env: Env, rs: seq<Request>, i: nat): World
    requires i <= |rs|
  {
    Serve(env, START, rs[..i])
  }

  ghost function ReplyTo(env: Env, rs: seq<Request>, i: nat): Reply
    requires i < |rs|
  {
    Handle(env, Before(env, rs, i), rs[i])
  }

  lemma LastRequest(env: Env, rs: seq<Request>)
    requires rs != []
    ensures var n := |rs| - 1;
      Before(env, rs, n) == Serve(env, START, rs[..n]) && Serve(env, START, rs) == ReplyTo(env, rs, n).world
  {
    var n := |rs| - 1;
    assert rs == rs[..n] + [rs[n]];
    ServeMore(env, START, rs[..n], rs[n]);
  }

  lemma SamePrefix(env: Env, rs: seq<Request>, n: nat, i: nat)
    requires i < n <= |rs|
    ensures Before(env, rs[..n], i) == Before(env, rs, i) && ReplyTo(env, rs[..n], i) == ReplyTo(env, rs, i)
  {
    assert rs[..n][..i] == rs[..i];
  }

  ghost predicate BeganAt(env: Env, rs: seq<Request>, i: nat, id: Id) {
    && i < |rs| && Began(Before(env, rs, i), ReplyTo(env, rs, i).world, rs[i], id)
  }

  lemma {:induction false} EverySessionBegan(env: Env, rs: seq<Request>, id: Id) returns (i: nat)
    requires id in Serve(env, START, rs).history.origins
    ensures BeganAt(env, rs, i, id)
    ensures ReplyTo(env, rs, i).world.history.origins[id] == Serve(env, START, rs).history.origins[id]
    decreases |rs|
  {
    hide Handle;
    var n := |rs| - 1;
    LastRequest(env, rs);
    var w := Before(env, rs, n);
    HandleOrigins(env, w, rs[n]);
    assert OldOrNew(w, ReplyTo(env, rs, n).world, rs[n], id);
    if id in w.history.origins && ReplyTo(env, rs, n).world.history.origins[id] == w.history.origins[id] {
      i := EverySessionBegan(env, rs[..n], id);
      SamePrefix(env, rs, n, i);
    } else {
      i := n;
    }
  }

  ghost predicate HandedAt(env: Env, rs: seq<Request>, j: nat, c: Id) {
    && j < |rs| && Handed(Before(env, rs, j), ReplyTo(env, rs, j).world, rs[j], ReplyTo(env, rs, j).response, c)
  }

  lemma {:induction false} EveryChallengeHanded(env: Env, rs: seq<Request>, c: Id) returns (j: nat)
    requires c in Serve(env, START, rs).challenges
    ensures HandedAt(env, rs, j, c)
    ensures ReplyTo(env, rs, j).world.challenges[c] == Serve(env, START, rs).challenges[c]
    decreases |rs|
  {
    hide Handle;
    var n := |rs| - 1;
    LastRequest(env, rs);
    var w := Before(env, rs, n);
    HandleOrigins(env, w, rs[n]);
    assert KeptOrHanded(w, ReplyTo(env, rs, n).world, rs[n], ReplyTo(env, rs, n).response, c);
    if c in w.challenges && ReplyTo(env, rs, n).world.challenges[c] == w.challenges[c] {
      j := EveryChallengeHanded(env, rs[..n], c);
      SamePrefix(env, rs, n, j);
    } else {
      j := n;
    }
  }

  /** Request `i` is a login with the right password of the session's identity, and when it was
      checked that identity had no verified factor and its tenant did not require one. */
  ghost predicate UngatedLogin(env: Env, rs: seq<Request>, i: nat, id: Id) {
    && i < |rs| && rs[i].Login? && rs[i].matches
    && id !in Before(env, rs, i).history.drawn && id in ReplyTo(env, rs, i).world.rows
    && var w, owner := Before(env, rs, i), ReplyTo(env, rs, i).world.rows[id].owner;
       && owner.identity in w.tables.identities && w.tables.identities[owner.identity] == rs[i].email
       && (forall f :: f in w.factors && w.factors[f].identity == owner.identity ==> !w.factors[f].verified)
       && owner.tenant !in w.requireMfa
  }

  /** Every session that a password alone opened goes back to such a login. */
  lemma PasswordSessionsAreUngated(env: Env, rs: seq<Request>, id: Id)
    requires id in Serve(env, START, rs).history.origins
    requires Serve(env, START, rs).history.origins[id] == Password
    ensures exists i :: UngatedLogin(env, rs, i, id)
  {
    hide Handle;
    var i := EverySessionBegan(env, rs, id);
    assert UngatedLogin(env, rs, i, id);
  }

  /** Request `j` is a login with the right password that was answered with challenge `c`; request
      `i` presents `c` at most five minutes later with a code that fits a verified factor of the
      same identity, and opens session `id` for it. */
  ghost predicate TwoFactors(env: Env, rs: seq<Request>, j: nat, i: nat, c: Id, id: Id) {
    && j < i < |rs|
    && rs[j].Login? && rs[j].matches && ReplyTo(env, rs, j).response == MfaRequired(c)
    && rs[i].CompleteMfa? && rs[i].challenge == c
    && id !in Before(env, rs, i).history.drawn && id in ReplyTo(env, rs, i).world.rows
    && var identity := ReplyTo(env, rs, i).world.rows[id].owner.identity;
       var t, factors := Before(env, rs, j).tables, Before(env, rs, i).factors;
       && identity in t.identities && t.identities[identity] == rs[j].email
       && Before(env, rs, i).now <= Before(env, rs, j).now + 5 * MINUTE
       && exists f :: f in factors && factors[f].identity == identity && factors[f].verified
                        && factors[f].factorType == "totp" && factors[f].secret in rs[i].valid
  }

  lemma MfaSessionsHaveTwoFactors(env: Env, rs: seq<Request>, id: Id, c: Id)
    requires id in Serve(env, START, rs).history.origins
    requires Serve(env, START, rs).history.origins[id] == Mfa(c)
    ensures exists j, i :: TwoFactors(env, rs, j, i, c, id)
  {
    hide Handle;
    var i := EverySessionBegan(env, rs, id);
    var j := EveryChallengeHanded(env, rs[..i], c);
    SamePrefix(env, rs, i, j);
    assert TwoFactors(env, rs, j, i, c, id);
  }

  // ----- Invariants -----

  ghost predicate AllTotp(factors: map<Id, Factor>) {
    forall f :: f in factors ==> factors[f].factorType == "totp"
  }

  ghost predicate SpentOnce(w: World) {
    && (forall c :: c in w.challenges ==> c in w.history.drawn)
    && (forall id :: id in w.history.origins ==> id in w.history.drawn)
    && (forall id :: id in w.history.origins && w.history.origins[id].Mfa? ==>
          w.history.origins[id].challenge in w.history.drawn && w.history.origins[id].challenge !in w.challenges)
    && OneEach(w.history.origins)
  }

  ghost predicate OneEach(origins: map<Id, Origin>) {
    forall a, b :: a in origins && b in origins && origins[a].Mfa? && origins[a] == origins[b] ==> a == b
  }

  lemma StillOneEach(w: World, v: World, r: Request)
    requires SpentOnce(w) && OriginsFrom(w, v, r)
    ensures OneEach(v.history.origins)
  {
    hide IdentityByEmail, HasVerifiedFactor, TotpAccepts;
    var origins := v.history.origins;
    forall a, b | a in origins && b in origins && origins[a].Mfa? && origins[a] == origins[b] ensures a == b {
      assert OldOrNew(w, v, r, a) && OldOrNew(w, v, r, b);
    }
  }

  lemma SpentStep(w: World, v: World, r: Request, response: Response)
    requires SpentOnce(w) && OriginsFrom(w, v, r) && ChallengesFrom(w, v, r, response)
    requires w.history.drawn <= v.history.drawn
    ensures SpentOnce(v)
  {
    hide IdentityByEmail, HasVerifiedFactor, TotpAccepts, OneEach;
    forall c | c in v.challenges ensures c in v.history.drawn {
      assert KeptOrHanded(w, v, r, response, c);
    }
    forall id | id in v.history.origins
      ensures id in v.history.drawn
      ensures v.history.origins[id].Mfa? ==>
        v.history.origins[id].challenge in v.history.drawn && v.history.origins[id].challenge !in v.challenges
    {
      assert OldOrNew(w, v, r, id);
      if v.history.origins[id].Mfa? {
        assert v.history.origins[id].challenge in v.challenges ==>
          KeptOrHanded(w, v, r, response, v.history.origins[id].challenge);
      }
    }
    StillOneEach(w, v, r);
  }

  lemma FactorsStep(env: Env, w: World, r: Request)
    requires AllTotp(w.factors)
    ensures AllTotp(Handle(env, w, r).world.factors)
  {
    hide PasswordLogin, MfaCompletion, WebauthnCompletion, CodeGrant, Rotate, Sweep, Authenticate, AuthorizeAs, Logout,
      Consistent, Grows;
  }

  lemma {:induction false} ServeGates(env: Env, w: World, rs: seq<Request>)
    requires SpentOnce(w) && AllTotp(w.factors)
    ensures SpentOnce(Serve(env, w, rs)) && AllTotp(Serve(env, w, rs).factors)
    decreases |rs|
  {
    hide Handle, SpentOnce, AllTotp;
    if rs != [] {
      var v := Handle(env, w, rs[0]).world;
      var e := HandleEffect(env, w, rs[0]);
      HandleOrigins(env, w, rs[0]);
      SpentStep(w, v, rs[0], Handle(env, w, rs[0]).response);
      FactorsStep(env, w, rs[0]);
      ServeGates(env, v, rs[1..]);
    }
  }

  /** No challenge ever stands behind two sessions, even after both are gone from the table. */
  lemma ChallengesOpenOneSession(env: Env, w: World, a: Id, b: Id, c: Id)
    requires Reachable(env, w) && a in w.history.origins && b in w.history.origins
    requires w.history.origins[a] == Mfa(c) && w.history.origins[b] == Mfa(c)
    ensures a == b
  {
    hide Handle;
    var rs :| w == Serve(env, START, rs);
    ServeGates(env, START, rs);
  }

  lemma FactorsAreTotp(env: Env, w: World)
    requires Reachable(env, w)
    ensures forall f :: f in w.factors ==> w.factors[f].factorType == "totp"
  {
    hide Handle;
    var rs :| w == Serve(env, START, rs);
    ServeGates(env, START, rs);
  }

  /** Login asks for any verified factor, completion looks for one of type totp: an identity has the
      one exactly when it has the other. */
  lemma AnyFactorIsTotp(env: Env, w: World, identity: Id)
    requires Reachable(env, w)
    ensures (exists f :: f in w.factors && w.factors[f].identity == identity && w.factors[f].verified) <==>
      (exists f :: f in w.factors && w.factors[f].identity == identity && w.factors[f].verified && w.factors[f].factorType == "totp")
  {
    FactorsAreTotp(env, w);
  }

  // ----- Once a factor is verified -----

  /** No session a password alone opened since `known` was drawn belongs to the identity. */
  ghost predicate NoneSince(w: World, known: set<Id>, identity: Id) {
    forall id :: id in w.history.origins && id !in known && w.history.origins[id] == Password && id in w.rows ==>
      w.rows[id].owner.identity != identity
  }

  lemma OwnerStays(w: World, v: World, e: Effect, id: Id)
    requires Does(w, v, e) && id in w.history.drawn && id in v.rows
    ensures id in w.rows && v.rows[id].owner == w.rows[id].owner
  {
  }

  lemma NoneSinceStep(w: World, v: World, r: Request, e: Effect, known: set<Id>, identity: Id)
    requires SpentOnce(w) && Does(w, v, e) && OriginsFrom(w, v, r)
    requires NoneSince(w, known, identity) && HasVerifiedFactor(w.factors, identity)
    ensures NoneSince(v, known, identity)
  {
    hide Does, HasVerifiedFactor, TotpAccepts;
    forall id | id in v.history.origins && id !in known && v.history.origins[id] == Password && id in v.rows
      ensures v.rows[id].owner.identity != identity
    {
      assert OldOrNew(w, v, r, id);
      if !Began(w, v, r, id) {
        OwnerStays(w, v, e, id);
      }
    }
  }

  lemma FactorStays(env: Env, w: World, r: Request, identity: Id)
    requires HasVerifiedFactor(w.factors, identity) && !r.Unenroll?
    ensures HasVerifiedFactor(Handle(env, w, r).world.factors, identity)
  {
    hide PasswordLogin, MfaCompletion, WebauthnCompletion, CodeGrant, Rotate, Sweep, Authenticate, AuthorizeAs, Logout,
      Consistent, Grows;
    var f :| f in w.factors && w.factors[f].identity == identity && w.factors[f].verified;
    var factors := Handle(env, w, r).world.factors;
    assert f in factors && factors[f].identity == identity && factors[f].verified;
  }

  lemma {:induction false} ServeNoneSince(env: Env, w: World, rs: seq<Request>, known: set<Id>, identity: Id)
    requires SpentOnce(w) && AllTotp(w.factors) && HasVerifiedFactor(w.factors, identity) && NoneSince(w, known, identity)
    requires forall r :: r in rs ==> !r.Unenroll?
    ensures NoneSince(Serve(env, w, rs), known, identity)
    decreases |rs|
  {
    hide Handle, SpentOnce, AllTotp, HasVerifiedFactor, NoneSince;
    if rs != [] {
      var v := Handle(env, w, rs[0]).world;
      var e := HandleEffect(env, w, rs[0]);
      HandleOrigins(env, w, rs[0]);
      NoneSinceStep(w, v, rs[0], e, known, identity);
      FactorStays(env, w, rs[0], identity);
      assert rs[..1] == [rs[0]];
      ServeGates(env, w, rs[..1]);
      assert rs[..1][1..] == [];
      ServeNoneSince(env, v, rs[1..], known, identity);
    }
  }

  /** From the moment an identity has a verified factor, and until one is removed, no session of
      that identity is opened by a password alone. */
  lemma VerifiedFactorEndsPasswordSessions(env: Env, w: World, rs: seq<Request>, id: Id, identity: Id)
    requires Reachable(env, w) && exists f :: f in w.factors && w.factors[f].identity == identity && w.factors[f].verified
    requires forall r :: r in rs ==> !r.Unenroll?
    requires id !in w.history.origins && id in Serve(env, w, rs).history.origins && id in Serve(env, w, rs).rows
    requires Serve(env, w, rs).rows[id].owner.identity == identity
    ensures Serve(env, w, rs).history.origins[id] != Password
  {
    hide Handle;
    var before :| w == Serve(env, START, before);
    ServeGates(env, START, before);
    ServeNoneSince(env, w, rs, w.history.origins.Keys, identity);
  }
}
