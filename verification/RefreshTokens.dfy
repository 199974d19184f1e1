// The refresh token that every session-creating path hands out: it is the
// session's own, and it goes on working exactly as long as it should.

module RefreshTokens {
  import opened Clock
  import opened Types
  import opened Sessions
  import opened Requests
  import opened Effects
  import opened Ground
  import opened Answers
  import CodeGrants
  import SerialRotation

  predicate Opens(r: Request) {
    r.Login? || r.CompleteMfa? || r.WebauthnLogin? || r.ExchangeCode? || r.RefreshSession? || r.RefreshGrant?
  }

  lemma OnlyTheseOpen(env: Env, w: World, r: Request)
    requires Handle(env, w, r).response.Opened?
    ensures Opens(r) && Fresh(w, r.draw)
  {
    hide PasswordLogin, MfaCompletion, WebauthnCompletion, CodeGrant, Rotate, Authenticate, AuthorizeAs, Logout, Advance,
      Directory.Consistent, Directory.Grows, Sweep;
    if r.Authorize? || r.LogoutSession? || r.Call? {
      AuthenticatedOpenNothing(env, w, r);
    }
  }

  lemma AuthenticatedOpenNothing(env: Env, w: World, r: Request)
    requires r.Authorize? || r.LogoutSession? || r.Call?
    ensures !Handle(env, w, r).response.Opened?
  {
    hide OAuth.AuthorizeFails;
  }

  /** The session was opened with this row, whichever path it came by. */
  ghost predicate Began(w: World, v: World, id: Id, refresh: Id, owner: Owner) {
    && id !in w.rows && id in v.rows
    && v.rows[id].owner == owner && v.rows[id].refreshHash == Sha256(refresh) && v.rows[id].revokedAt.None?
    && v.rows[id].createdAt == w.now && v.rows[id].expiresAt == w.now + 7 * DAY
    && v.tokens == w.tokens + {Token(id, owner, NumericDate(w.now), NumericDate(w.now + 15 * MINUTE))}
    && v.now == w.now
  }

  lemma LoginBegan(env: Env, w: World, r: Request)
    requires Reachable(env, w) && r.Login? && Fresh(w, r.draw) && Handle(env, w, r).response.Opened?
    ensures var a := Handle(env, w, r).response;
      a.id == r.draw.session && a.refresh == r.draw.refresh && Began(w, Handle(env, w, r).world, a.id, a.refresh, a.owner)
  {
    hide Handle;
    LoginTurnedAwayIff(env, w, r);
    LoginFound(env, w, r);
    var i :| i in w.tables.identities && w.tables.identities[i] == r.email;
    var user :| user in w.tables.users && w.tables.users[user].identity == i;
    LoginAnswer(env, w, r, user);
  }

  lemma LoginFound(env: Env, w: World, r: Request)
    requires r.Login? && Fresh(w, r.draw) && Handle(env, w, r).response.Opened?
    ensures r.matches && r.down !! {FindIdentity, FindCredential}
    ensures exists i :: i in w.tables.identities && w.tables.identities[i] == r.email
  {
    hide AfterPassword;
    assert Directory.IdentityByEmail(w.tables, r.email).Some?;
  }

  lemma RefreshBegan(env: Env, w: World, r: Request)
    requires Reachable(env, w) && (r.RefreshSession? || r.RefreshGrant?) && Fresh(w, r.draw) && Handle(env, w, r).response.Opened?
    ensures var a := Handle(env, w, r).response;
      a.id == r.draw.session && a.refresh == r.draw.refresh && Began(w, Handle(env, w, r).world, a.id, a.refresh, a.owner)
  {
    hide Handle;
    RefreshTurnedAwayIff(env, w, r);
    var id :| id in w.rows && w.rows[id].refreshHash == Sha256(r.refresh)
      && !(w.rows[id].revokedAt.Some? || w.now > w.rows[id].expiresAt);
    RefreshAnswer(env, w, r, id);
  }

  lemma WebauthnBegan(env: Env, w: World, r: Request)
    requires Reachable(env, w) && r.WebauthnLogin? && Fresh(w, r.draw) && Handle(env, w, r).response.Opened?
    ensures var a := Handle(env, w, r).response;
      a.id == r.draw.session && a.refresh == r.draw.refresh && Began(w, Handle(env, w, r).world, a.id, a.refresh, a.owner)
  {
    hide Handle;
    WebauthnAnswer(env, w, r);
    var user :| user in w.tables.users && w.tables.users[user].identity == r.verified.value;
    WebauthnOwner(env, w, r, user);
  }

  /** Whatever path opens a session: the session is new, its row has the owner and the hash of the
      refresh token that are in the answer, no other row has that hash, it lives seven days from now,
      and an access token for it, fifteen minutes long, comes with it. */
  lemma AnswerNamesTheSession(env: Env, w: World, r: Request)
    requires Reachable(env, w) && Handle(env, w, r).response.Opened?
    ensures
      var a, v := Handle(env, w, r).response, Handle(env, w, r).world;
      && a.id !in w.rows && a.id in v.rows && v.rows[a.id].owner == a.owner
      && v.rows[a.id].refreshHash == Sha256(a.refresh) && v.rows[a.id].revokedAt.None?
      && v.rows[a.id].createdAt == w.now == v.now && v.rows[a.id].expiresAt == w.now + 7 * DAY
      && (forall k :: k in v.rows && v.rows[k].refreshHash == Sha256(a.refresh) ==> k == a.id)
      && v.tokens == w.tokens + {Token(a.id, a.owner, NumericDate(w.now), NumericDate(w.now + 15 * MINUTE))}
  {
    hide Handle, OpensAs;
    OpenedAs(env, w, r);
    ReachableStep(env, w, r);
    ReachableFacts(env, Handle(env, w, r).world);
  }

  lemma OpenedAs(env: Env, w: World, r: Request)
    requires Reachable(env, w) && Handle(env, w, r).response.Opened?
    ensures Opens(r) && Fresh(w, r.draw)
    ensures var a := Handle(env, w, r).response;
      a.id == r.draw.session && a.refresh == r.draw.refresh && Began(w, Handle(env, w, r).world, a.id, a.refresh, a.owner)
  {
    hide Handle;
    OnlyTheseOpen(env, w, r);
    if r.Login? {
      LoginBegan(env, w, r);
    } else if r.CompleteMfa? {
      CompletionAnswer(env, w, r);
    } else if r.WebauthnLogin? {
      WebauthnBegan(env, w, r);
    } else if r.ExchangeCode? {
      CodeGrants.ExchangeAnswer(env, w, r);
    } else {
      RefreshBegan(env, w, r);
    }
  }

  // ----- As time goes by -----

  /** No other session has this refresh token, and the session it belongs to is there for as long as it
      has not expired. */
  ghost predicate Belongs(w: World, id: Id, refresh: Id, owner: Owner, expiresAt: Time) {
    && id in w.history.drawn && refresh in w.history.drawn
    && (forall k :: k in w.rows && w.rows[k].refreshHash == Sha256(refresh) ==> k == id)
    && (id in w.rows ==> w.rows[id].refreshHash == Sha256(refresh) && w.rows[id].owner == owner && w.rows[id].expiresAt == expiresAt)
    && (id !in w.rows ==> expiresAt < w.now)
  }

  lemma StillBelongs(w: World, v: World, e: Effect, id: Id, refresh: Id, owner: Owner, expiresAt: Time)
    requires SerialRotation.Inv(w) && Does(w, v, e) && Belongs(w, id, refresh, owner, expiresAt)
    ensures Belongs(v, id, refresh, owner, expiresAt)
  {
    hide Straddled;
    if id in w.rows {
      assert SerialRotation.RowOk(w.rows[id], w.history.drawn, w.now);
    }
  }

  lemma {:induction false} BelongsOn(env: Env, w: World, rs: seq<Request>, id: Id, refresh: Id, owner: Owner, expiresAt: Time)
    requires Reachable(env, w) && Belongs(w, id, refresh, owner, expiresAt)
    ensures Reachable(env, Serve(env, w, rs)) && Belongs(Serve(env, w, rs), id, refresh, owner, expiresAt)
    decreases |rs|
  {
    hide Handle, Does, Belongs;
    if rs != [] {
      SerialRotation.ReachableInv(env, w);
      var e := HandleEffect(env, w, rs[0]);
      StillBelongs(w, Handle(env, w, rs[0]).world, e, id, refresh, owner, expiresAt);
      ReachableStep(env, w, rs[0]);
      BelongsOn(env, Handle(env, w, rs[0]).world, rs[1..], id, refresh, owner, expiresAt);
    }
  }

  /** From whichever path, a refresh token works, with nothing failing, for seven days or until its
      session is revoked, whatever is requested in between: a refresh with it is then answered with a
      child session of the same owner, and otherwise turned away. */
  lemma {:induction false} RefreshTokenWorksIff(env: Env, w: World, r: Request, rs: seq<Request>, later: Request)
    requires Reachable(env, w) && Handle(env, w, r).response.Opened?
    requires later.RefreshSession? || later.RefreshGrant?
    requires later.refresh == Handle(env, w, r).response.refresh && later.down == {}
    requires Fresh(Serve(env, Handle(env, w, r).world, rs), later.draw)
    ensures
      var a, u := Handle(env, w, r).response, Serve(env, Handle(env, w, r).world, rs);
      && (u.now <= w.now + 7 * DAY ==> a.id in u.rows)
      && Handle(env, u, later).response ==
        if u.now <= w.now + 7 * DAY && u.rows[a.id].revokedAt.None?
        then Opened(later.draw.session, a.owner, later.draw.refresh, "")
        else Refused(if later.RefreshSession? then Unauthorized else InvalidGrant)
  {
    hide Handle, OpensAs, SerialRotation.Inv;
    var a, v := Handle(env, w, r).response, Handle(env, w, r).world;
    OpenedAs(env, w, r);
    AnswerNamesTheSession(env, w, r);
    ReachableStep(env, w, r);
    ReachableFacts(env, v);
    BelongsOn(env, v, rs, a.id, a.refresh, a.owner, w.now + 7 * DAY);
    var u := Serve(env, v, rs);
    RefreshTurnedAwayIff(env, u, later);
    if u.now <= w.now + 7 * DAY && u.rows[a.id].revokedAt.None? {
      RefreshAnswer(env, u, later, a.id);
    }
  }
}
