// What the server answers to each request, exactly when, and what it leaves
// behind: in every reachable state, whichever accesses fail, with every
// condition written out.

module Answers {
  import opened Clock
  import opened Types
  import opened Sessions
  import opened Directory
  import opened OAuth
  import Scopes
  import opened Requests
  import opened Ground
  import MfaGating

  // ----- Opening a session -----

  /** From w to v the session was added to `rows`, with the row it begins as and the access token that
      comes with it. */
  ghost predicate OpensAs(w: World, v: World, rows: Rows, id: Id, refresh: Id, owner: Owner, parent: Option<Id>, device: Device) {
    && id !in w.rows
    && v.rows == rows[id := Session(owner, Sha256(refresh), parent, device, w.now + 7 * DAY, None, w.now)]
    && v.tokens == w.tokens + {Token(id, owner, NumericDate(w.now), NumericDate(w.now + 15 * MINUTE))}
    && v.now == w.now && v.tables == w.tables && v.factors == w.factors && v.requireMfa == w.requireMfa
  }

  lemma OpenAnswer(w: World, d: Draw, row: Session, origin: Origin, scope: string, readsAfter: bool, down: set<Access>)
    requires d.session !in w.rows && (row.parent.Some? ==> row.parent.value in w.rows)
    ensures
      var reply := OpenSession(w, d, row, origin, scope, readsAfter, down);
      var v := reply.world;
      && reply.response == (if down !! {CreateSession, ReadIdentity, ReadRoles, ReadPermissions, SignToken}
                            then Opened(d.session, row.owner, d.refresh, scope) else Refused(Internal))
      && v == w.(rows := v.rows, tokens := v.tokens, history := v.history)
      && (reply.response.Opened? ==>
            && v.rows == w.rows[d.session := row]
            && v.tokens == w.tokens + {Token(d.session, row.owner, NumericDate(w.now), NumericDate(w.now + 15 * MINUTE))})
      && (!reply.response.Opened? ==> v.tokens == w.tokens && (v.rows == w.rows || v.rows == w.rows[d.session := row]))
  {
  }

  // ----- Login -----

  lemma IdentityFound(t: Tables, user: Id, email: string)
    requires Consistent(t) && user in t.users && t.users[user].identity in t.identities
    requires t.identities[t.users[user].identity] == email
    ensures IdentityByEmail(t, email) == Some(t.users[user].identity)
    ensures UserOf(t, t.users[user].identity) == Some(user)
  {
  }

  /** A login is turned away as such exactly when nobody has the e-mail or the password is wrong;
      whoever has the e-mail has a user row. */
  lemma LoginTurnedAwayIff(env: Env, w: World, r: Request)
    requires Reachable(env, w) && r.Login? && Fresh(w, r.draw)
    ensures Handle(env, w, r).response == Refused(InvalidCredentials) <==>
      || FindIdentity in r.down || FindCredential in r.down || !r.matches
      || (forall i :: i in w.tables.identities ==> w.tables.identities[i] != r.email)
    ensures Handle(env, w, r).response == Refused(InvalidCredentials) ==> Handle(env, w, r).world == w
    ensures forall i :: i in w.tables.identities ==> exists u :: u in w.tables.users && w.tables.users[u].identity == i
  {
    hide Handle, AfterPassword;
    ReachableFacts(env, w);
    ServesLogin(env, w, r.email, r.matches, r.ip, r.agent, r.draw, r.down);
    var found := IdentityByEmail(w.tables, r.email);
    if found.Some? && UserOf(w.tables, found.value).Some? {
      NeverTurnedAway(w, OwnerOf(w.tables, UserOf(w.tables, found.value).value), Device(Some(r.ip), r.agent), r.draw, LoginDown(r.down));
    }
  }

  lemma NeverTurnedAway(w: World, owner: Owner, device: Device, d: Draw, down: set<Access>)
    ensures AfterPassword(w, owner, device, d, down).response != Refused(InvalidCredentials)
  {
  }

  lemma LoginReached(env: Env, w: World, r: Request, user: Id)
    requires Reachable(env, w) && r.Login? && Fresh(w, r.draw) && r.matches && r.down !! {FindIdentity, FindCredential}
    requires user in w.tables.users && w.tables.users[user].identity in w.tables.identities
    requires w.tables.identities[w.tables.users[user].identity] == r.email
    ensures var owner := Owner(w.tables.users[user].tenant, w.tables.users[user].identity, user);
      Handle(env, w, r) == if r.down !! {FindUser, ReadPolicy, ReadFactors}
        then AfterPassword(w, owner, Device(Some(r.ip), r.agent), r.draw, LoginDown(r.down)) else Reply(w, Refused(Internal))
    ensures r.draw.session !in w.rows
  {
    hide Handle, AfterPassword, Consistent, IdentityByEmail, UserOf;
    ReachableFacts(env, w);
    IdentityFound(w.tables, user, r.email);
    ServesLogin(env, w, r.email, r.matches, r.ip, r.agent, r.draw, r.down);
  }

  lemma GateAnswer(w: World, owner: Owner, device: Device, d: Draw, down: set<Access>)
    requires d.session !in w.rows
    ensures
      var reply := AfterPassword(w, owner, device, d, down);
      var enrolled := exists f :: f in w.factors && w.factors[f].identity == owner.identity && w.factors[f].verified;
      if enrolled then
        if StoreValue in down then reply == Reply(w, Refused(Internal))
        else
          && reply.response == MfaRequired(d.oneShot)
          && reply.world == w.(history := reply.world.history, challenges := w.challenges[d.oneShot :=
               Expiring(Challenge(owner, device, w.now + 5 * MINUTE), w.now + 5 * MINUTE)])
      else if owner.tenant in w.requireMfa then reply == Reply(w, Refused(EnrollmentRequired))
      else reply == OpenSession(w, d, Session(owner, Sha256(d.refresh), None, device, w.now + 7 * DAY, None, w.now),
                                Password, "", false, down)
  {
    hide OpenSession;
  }

  /** And of whoever has the e-mail and the right password, by what is required and what is verified. */
  lemma LoginAnswer(env: Env, w: World, r: Request, user: Id)
    requires Reachable(env, w) && r.Login? && Fresh(w, r.draw) && r.matches && r.down !! {FindIdentity, FindCredential}
    requires user in w.tables.users && w.tables.users[user].identity in w.tables.identities
    requires w.tables.identities[w.tables.users[user].identity] == r.email
    ensures
      var reply, d := Handle(env, w, r), r.draw;
      var owner := Owner(w.tables.users[user].tenant, w.tables.users[user].identity, user);
      var enrolled := exists f :: f in w.factors && w.factors[f].identity == owner.identity && w.factors[f].verified;
      var read := r.down !! {FindUser, ReadPolicy, ReadFactors};
      && (reply.response == Refused(EnrollmentRequired) <==> read && !enrolled && owner.tenant in w.requireMfa)
      && (reply.response == MfaRequired(d.oneShot) <==> read && enrolled && StoreValue !in r.down)
      && (reply.response == Opened(d.session, owner, d.refresh, "") <==>
            read && !enrolled && owner.tenant !in w.requireMfa
            && r.down !! {ReadRoles, ReadPermissions, CreateSession, SignToken})
      && reply.response in {Refused(EnrollmentRequired), Refused(Internal), MfaRequired(d.oneShot),
                            Opened(d.session, owner, d.refresh, "")}
      && (reply.response.MfaRequired? ==>
            reply.world == w.(history := reply.world.history, challenges := w.challenges[d.oneShot :=
              Expiring(Challenge(owner, Device(Some(r.ip), r.agent), w.now + 5 * MINUTE), w.now + 5 * MINUTE)]))
      && (reply.response.Opened? ==> OpensAs(w, reply.world, w.rows, d.session, d.refresh, owner, None, Device(Some(r.ip), r.agent)))
  {
    hide Handle, OpenSession, AfterPassword;
    var owner := Owner(w.tables.users[user].tenant, w.tables.users[user].identity, user);
    var device := Device(Some(r.ip), r.agent);
    LoginReached(env, w, r, user);
    GateAnswer(w, owner, device, r.draw, LoginDown(r.down));
    OpenAnswer(w, r.draw, Session(owner, Sha256(r.draw.refresh), None, device, w.now + 7 * DAY, None, w.now), Password, "", false,
               LoginDown(r.down));
  }

  // ----- Completions -----

  lemma CompletionStep(w: World, r: Request)
    requires r.CompleteMfa? && OnTime(w)
    ensures
      var reply := MfaCompletion(w, r.challenge, r.valid, r.draw, r.down);
      if TakeValue in r.down || r.challenge !in w.challenges then reply == Reply(w, Refused(InvalidCode))
      else
        var c := w.challenges[r.challenge].value;
        var taken := w.(challenges := w.challenges - {r.challenge});
        var fits := exists f :: f in w.factors && w.factors[f].identity == c.owner.identity && w.factors[f].verified
                                && w.factors[f].factorType == "totp" && w.factors[f].secret in r.valid;
        if ReadFactors !in r.down && fits then
          reply == OpenSession(taken, r.draw, Session(c.owner, Sha256(r.draw.refresh), None, c.device, w.now + 7 * DAY, None, w.now),
                               Mfa(r.challenge), "", false, r.down)
        else reply == Reply(taken, Refused(InvalidCode))
  {
    hide OpenSession;
    if r.challenge in w.challenges {
      assert Timed(w.challenges[r.challenge], w.challenges[r.challenge].value.expiresAt, w.now);
    }
  }

  /** A completion opens a session exactly when the challenge is in the store and the code fits a
      verified TOTP factor of the identity that was challenged; the session is the challenge's. The
      challenge is gone either way. */
  lemma CompletionAnswer(env: Env, w: World, r: Request)
    requires Reachable(env, w) && r.CompleteMfa? && Fresh(w, r.draw)
    ensures
      var reply, d := Handle(env, w, r), r.draw;
      var taken := TakeValue !in r.down && r.challenge in w.challenges;
      var fits := taken && ReadFactors !in r.down && (exists f ::
        && f in w.factors && w.factors[f].identity == w.challenges[r.challenge].value.owner.identity
        && w.factors[f].verified && w.factors[f].factorType == "totp" && w.factors[f].secret in r.valid);
      && (reply.response == Refused(InvalidCode) <==> !fits)
      && (fits ==>
            if r.down !! {ReadIdentity, ReadRoles, ReadPermissions, CreateSession, SignToken}
            then reply.response == Opened(d.session, w.challenges[r.challenge].value.owner, d.refresh, "")
            else reply.response == Refused(Internal))
      && reply.world.challenges == (if taken then w.challenges - {r.challenge} else w.challenges)
      && (!fits ==> reply.world == w.(challenges := reply.world.challenges))
      && (reply.response.Opened? ==>
            OpensAs(w, reply.world, w.rows, d.session, d.refresh, w.challenges[r.challenge].value.owner, None,
                    w.challenges[r.challenge].value.device))
  {
    hide Handle, OpenSession, MfaCompletion;
    ReachableFacts(env, w);
    ServesMfa(env, w, r.challenge, r.valid, r.draw, r.down);
    CompletionStep(w, r);
    if r.challenge in w.challenges {
      var c := w.challenges[r.challenge].value;
      OpenAnswer(w.(challenges := w.challenges - {r.challenge}), r.draw,
                 Session(c.owner, Sha256(r.draw.refresh), None, c.device, w.now + 7 * DAY, None, w.now),
                 Mfa(r.challenge), "", false, r.down);
    }
  }

  /** So a code that fits none of the identity's own verified secrets is refused, whatever else it fits. */
  lemma OnlyOwnSecretsComplete(env: Env, w: World, r: Request)
    requires Reachable(env, w) && r.CompleteMfa? && Fresh(w, r.draw) && r.challenge in w.challenges
    ensures
      var identity := w.challenges[r.challenge].value.owner.identity;
      var own := set f | f in w.factors && w.factors[f].identity == identity && w.factors[f].verified :: w.factors[f].secret;
      Handle(env, w, Request.CompleteMfa(r.challenge, r.valid - own, r.draw, r.down)).response == Refused(InvalidCode)
  {
    hide Handle;
    var identity := w.challenges[r.challenge].value.owner.identity;
    var own := set f | f in w.factors && w.factors[f].identity == identity && w.factors[f].verified :: w.factors[f].secret;
    CompletionAnswer(env, w, Request.CompleteMfa(r.challenge, r.valid - own, r.draw, r.down));
  }

  lemma ChallengedUser(env: Env, w: World, r: Request) returns (user: Id)
    requires Reachable(env, w) && r.Login? && Fresh(w, r.draw) && Handle(env, w, r).response.MfaRequired?
    ensures r.matches && r.down !! {FindIdentity, FindCredential}
    ensures user in w.tables.users && w.tables.users[user].identity in w.tables.identities
    ensures w.tables.identities[w.tables.users[user].identity] == r.email
  {
    hide Handle;
    LoginTurnedAwayIff(env, w, r);
    NotChallenged(env, w, r);
    var i :| i in w.tables.identities && w.tables.identities[i] == r.email;
    user :| user in w.tables.users && w.tables.users[user].identity == i;
  }

  lemma NotChallenged(env: Env, w: World, r: Request)
    requires r.Login? && Fresh(w, r.draw) && Handle(env, w, r).response.MfaRequired?
    ensures r.matches && r.down !! {FindIdentity, FindCredential}
    ensures exists i :: i in w.tables.identities && w.tables.identities[i] == r.email
  {
    hide AfterPassword;
    assert IdentityByEmail(w.tables, r.email).Some?;
  }

  /** Whenever a login is answered with a challenge, some code completes it, there and then, into a
      session of the same owner: a second factor is demanded only of those who can give one. */
  lemma ChallengeCanBeCompleted(env: Env, w: World, r: Request, d: Draw) returns (valid: set<Id>, owner: Owner)
    requires Reachable(env, w) && r.Login? && Fresh(w, r.draw) && Handle(env, w, r).response.MfaRequired?
    requires Fresh(Handle(env, w, r).world, d)
    ensures
      var v := Handle(env, w, r).world;
      Handle(env, v, Request.CompleteMfa(r.draw.oneShot, valid, d, {})).response == Opened(d.session, owner, d.refresh, "")
    ensures owner.identity in w.tables.identities && w.tables.identities[owner.identity] == r.email
  {
    hide Handle, OpensAs;
    var user := ChallengedUser(env, w, r);
    LoginAnswer(env, w, r, user);
    owner := Owner(w.tables.users[user].tenant, w.tables.users[user].identity, user);
    var f :| f in w.factors && w.factors[f].identity == owner.identity && w.factors[f].verified;
    valid := {w.factors[f].secret};
    MfaGating.FactorsAreTotp(env, w);
    ReachableStep(env, w, r);
    CompletionAnswer(env, Handle(env, w, r).world, Request.CompleteMfa(r.draw.oneShot, valid, d, {}));
  }

  /** A WebAuthn login opens a session exactly when the assertion was verified. */
  lemma WebauthnAnswer(env: Env, w: World, r: Request)
    requires Reachable(env, w) && r.WebauthnLogin? && Fresh(w, r.draw)
    ensures
      var reply := Handle(env, w, r);
      && (reply.response.Opened? <==>
            && r.verified.Some? && r.verified.value in w.tables.identities
            && r.down !! {FindUser, ReadIdentity, ReadRoles, ReadPermissions, CreateSession, SignToken})
      && (!reply.response.Opened? ==> reply.response == Refused(Internal))
      && (reply.response.Opened? ==> exists user :: user in w.tables.users && w.tables.users[user].identity == r.verified.value)
  {
    hide Handle, OpenSession, Consistent;
    ReachableFacts(env, w);
    ServesWebauthn(env, w, r.verified, r.agent, r.draw, r.down);
    if r.verified.Some? && r.verified.value in w.tables.identities {
      OneUser(w.tables, r.verified.value);
      var user := UserOf(w.tables, r.verified.value).value;
      var row := NewRow(OwnerOf(w.tables, user), Sha256(r.draw.refresh), None, Device(None, r.agent), w.now);
      OpenAnswer(w, r.draw, row, Webauthn, "", false, r.down);
    }
  }

  /** And it opens it for the user row of the identity whose credential it was. */
  lemma WebauthnOwner(env: Env, w: World, r: Request, user: Id)
    requires Reachable(env, w) && r.WebauthnLogin? && Fresh(w, r.draw) && Handle(env, w, r).response.Opened?
    requires r.verified.Some? && user in w.tables.users && w.tables.users[user].identity == r.verified.value
    ensures
      var owner := Owner(w.tables.users[user].tenant, r.verified.value, user);
      && Handle(env, w, r).response == Opened(r.draw.session, owner, r.draw.refresh, "")
      && OpensAs(w, Handle(env, w, r).world, w.rows, r.draw.session, r.draw.refresh, owner, None, Device(None, r.agent))
  {
    hide Handle, OpenSession, Consistent;
    ReachableFacts(env, w);
    WebauthnAnswer(env, w, r);
    ServesWebauthn(env, w, r.verified, r.agent, r.draw, r.down);
    OneUser(w.tables, r.verified.value);
    var row := NewRow(OwnerOf(w.tables, user), Sha256(r.draw.refresh), None, Device(None, r.agent), w.now);
    OpenAnswer(w, r.draw, row, Webauthn, "", false, r.down);
  }

  lemma OneUser(t: Tables, identity: Id)
    requires Consistent(t) && identity in t.identities
    ensures UserOf(t, identity).Some?
    ensures forall u :: u in t.users && t.users[u].identity == identity ==> UserOf(t, identity) == Some(u)
  {
  }

  // ----- Rotation -----

  lemma HashFound(rows: Rows, refresh: Id, id: Id)
    requires UniqueHashes(rows) && id in rows && rows[id].refreshHash == Sha256(refresh)
    ensures ByHash(rows, Sha256(refresh)) == Some(id)
  {
  }

  /** A refresh, by endpoint or by grant, is turned away as such exactly when no unrevoked and
      unexpired session has the token, and then changes nothing. */
  lemma RefreshTurnedAwayIff(env: Env, w: World, r: Request)
    requires Reachable(env, w) && (r.RefreshSession? || r.RefreshGrant?) && Fresh(w, r.draw)
    ensures
      var denial := if r.RefreshSession? then Unauthorized else InvalidGrant;
      && (Handle(env, w, r).response == Refused(denial) <==>
            || FindSession in r.down
            || (forall id :: id in w.rows && w.rows[id].refreshHash == Sha256(r.refresh) ==>
                  w.rows[id].revokedAt.Some? || w.now > w.rows[id].expiresAt))
      && (Handle(env, w, r).response == Refused(denial) ==> Handle(env, w, r).world == w)
  {
    hide Handle, OpenSession;
    ReachableFacts(env, w);
    var denial := if r.RefreshSession? then Unauthorized else InvalidGrant;
    if r.RefreshSession? {
      ServesRefresh(env, w, r.refresh, r.draw, r.cacheUp, r.down);
    } else {
      ServesGrant(env, w, r.refresh, r.draw, r.down);
    }
    var found := ByHash(w.rows, Sha256(r.refresh));
    if found.Some? {
      RotationStep(w, found.value, r.refresh, r.draw, r.RefreshSession? && r.cacheUp, denial, r.down);
    }
  }

  /** What is left of a rotation that has found its session usable. */
  lemma RotationStep(w: World, id: Id, refresh: Id, d: Draw, forgets: bool, denial: Failure, down: set<Access>)
    requires UniqueHashes(w.rows) && id in w.rows && w.rows[id].refreshHash == Sha256(refresh) && d.session !in w.rows
    requires denial != Internal
    ensures
      var row := w.rows[id];
      var reply := Rotate(w, refresh, d, forgets, denial, down);
      if FindSession in down || row.revokedAt.Some? || w.now > row.expiresAt then reply == Reply(w, Refused(denial))
      else if RevokeSession in down then reply == Reply(w, Refused(Internal))
      else
        var retired := w.rows[id := row.(revokedAt := Some(w.now))];
        && reply.response == (if down !! {CreateSession, ReadIdentity, ReadRoles, ReadPermissions, SignToken}
                              then Opened(d.session, row.owner, d.refresh, "") else Refused(Internal))
        && reply.world.cache == (if forgets then w.cache - {id} else w.cache)
        && (reply.response.Opened? ==>
              OpensAs(w, reply.world, retired, d.session, d.refresh, row.owner, Some(id), row.device))
        && (!reply.response.Opened? ==>
              && reply.world.rows.Keys <= w.rows.Keys + {d.session} && reply.world.tokens == w.tokens
              && id in reply.world.rows && reply.world.rows[id] == retired[id])
  {
    hide OpenSession;
    HashFound(w.rows, refresh, id);
    var row := w.rows[id];
    var child := NewRow(row.owner, Sha256(d.refresh), Some(id), row.device, w.now);
    OpenAnswer(Forget(Revoke(w, id), id, forgets), d, child, Rotated(id), "", true, down);
  }

  /** And of the session that has the token: it is retired, at once and also when the child then fails,
      and the child that takes its place has its owner, its device and the new token. Only the refresh
      endpoint takes the cache entry away. */
  lemma RefreshAnswer(env: Env, w: World, r: Request, id: Id)
    requires Reachable(env, w) && (r.RefreshSession? || r.RefreshGrant?) && Fresh(w, r.draw)
    requires FindSession !in r.down && id in w.rows && w.rows[id].refreshHash == Sha256(r.refresh)
    requires w.rows[id].revokedAt.None? && w.now <= w.rows[id].expiresAt
    ensures
      var reply, d, row := Handle(env, w, r), r.draw, w.rows[id];
      var retired := w.rows[id := row.(revokedAt := Some(w.now))];
      && (reply.response == Opened(d.session, row.owner, d.refresh, "") <==>
            r.down !! {RevokeSession, CreateSession, ReadIdentity, ReadRoles, ReadPermissions, SignToken})
      && reply.response in {Opened(d.session, row.owner, d.refresh, ""), Refused(Internal)}
      && (RevokeSession in r.down ==> reply.world == w)
      && (RevokeSession !in r.down ==>
            && reply.world.cache == (if r.RefreshSession? && r.cacheUp then w.cache - {id} else w.cache)
            && id in reply.world.rows && reply.world.rows[id] == retired[id])
      && (reply.response.Opened? ==>
            OpensAs(w, reply.world, retired, d.session, d.refresh, row.owner, Some(id), row.device))
  {
    hide Handle, Rotate;
    ReachableFacts(env, w);
    if r.RefreshSession? {
      ServesRefresh(env, w, r.refresh, r.draw, r.cacheUp, r.down);
      RotationStep(w, id, r.refresh, r.draw, r.cacheUp, Unauthorized, r.down);
    } else {
      ServesGrant(env, w, r.refresh, r.draw, r.down);
      RotationStep(w, id, r.refresh, r.draw, false, InvalidGrant, r.down);
    }
  }
}
