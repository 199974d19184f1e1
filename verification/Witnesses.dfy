// States of the atomic model that show two weaknesses to be real: the header of
// a session that a refresh grant has replaced, and the logout use case by itself.

module Witnesses {
  import opened Clock
  import opened Types
  import opened Sessions
  import opened Directory
  import opened Requests
  import opened Invalidation

  const ONE_USER := AddMember(AddTenant(EMPTY, 1, "acme"), 2, "ada@acme.example", 4, "", 3, 1)

  lemma OneUser()
    ensures Consistent(ONE_USER) && Grows(EMPTY, ONE_USER)
    ensures 2 in ONE_USER.identities && UserOf(ONE_USER, 2) == Some(3)
    ensures 3 in ONE_USER.users && OwnerOf(ONE_USER, 3) == Owner(1, 2, 3)
  {
    AddTenantConsistent(EMPTY, 1, "acme");
    var tenant := AddTenant(EMPTY, 1, "acme");
    AddMemberConsistent(tenant, 2, "ada@acme.example", 4, "", 3, 1);
    GrowsTransitive(EMPTY, tenant, ONE_USER);
  }

  const ADA_ROW := NewRow(Owner(1, 2, 3), Sha256(20), None, Device(None, ""), 0)

  /** One user, signed in a moment ago as session 10 with refresh token 20. */
  ghost predicate SignedIn(env: Env, w: World) {
    && Reachable(env, w) && w.now == 0 && w.cache == map[] && w.rows == map[10 := ADA_ROW]
    && w.history.drawn == {10, 20}
  }

  lemma Administered(env: Env)
    ensures Handle(env, START, Administer(ONE_USER)).world == START.(tables := ONE_USER)
  {
    hide Consistent, Grows, AddMember, AddTenant;
    OneUser();
  }

  lemma WebauthnOpens(env: Env, w: World)
    requires w == START.(tables := ONE_USER)
    ensures var v := Handle(env, w, WebauthnLogin(Some(2), "", Draw(10, 20, 30), {})).world;
      && v.now == 0 && v.cache == map[] && v.rows == map[10 := ADA_ROW] && v.history.drawn == {10, 20}
  {
    hide Consistent, Grows, AddMember, AddTenant;
    OneUser();
  }

  lemma Ada(env: Env) returns (w: World)
    ensures SignedIn(env, w)
  {
    hide Handle;
    assert Serve(env, START, []) == START;
    Administered(env);
    ReachableStep(env, START, Administer(ONE_USER));
    var ready := START.(tables := ONE_USER);
    WebauthnOpens(env, ready);
    ReachableStep(env, ready, WebauthnLogin(Some(2), "", Draw(10, 20, 30), {}));
    w := Handle(env, ready, WebauthnLogin(Some(2), "", Draw(10, 20, 30), {})).world;
  }

  lemma HeaderFills(env: Env, w: World)
    requires SignedIn(env, w)
    ensures var v := Handle(env, w, HeaderCall(10, true, {})).world;
      && v.now == 0 && 10 in v.cache && v.cache[10].deadline == PRINCIPAL_CACHE_TTL
      && v.rows == w.rows && v.history == w.history
  {
    hide Reachable;
  }

  lemma GrantOpens(env: Env, w: World, d: Draw)
    requires Revokes(w, 20, 10, {}) && Fresh(w, d) && d.session !in w.rows
    ensures Handle(env, w, RefreshGrant(20, d, {})).response.Opened?
    ensures Handle(env, w, RefreshGrant(20, d, {})).response.id == d.session
    ensures Handle(env, w, RefreshGrant(20, d, {})).world.now == w.now
  {
  }

  /** The grant is answered with a new session, and the header of the one it replaced still works. */
  ghost predicate ReplacedYetAccepted(env: Env, w: World, refresh: Id, d: Draw, replaced: Id) {
    var granted := Handle(env, w, RefreshGrant(refresh, d, {}));
    && granted.response.Opened? && granted.response.id != replaced && ByHash(w.rows, Sha256(refresh)) == Some(replaced)
    && Handle(env, granted.world, HeaderCall(replaced, true, {})).response.Known?
  }

  lemma GrantedSessionStillAccepted(env: Env)
    ensures exists w, refresh, d, replaced :: Reachable(env, w) && ReplacedYetAccepted(env, w, refresh, d, replaced)
  {
    hide Handle;
    var signedIn := Ada(env);
    HeaderFills(env, signedIn);
    ReachableStep(env, signedIn, HeaderCall(10, true, {}));
    var w, d := Handle(env, signedIn, HeaderCall(10, true, {})).world, Draw(11, 21, 31);
    assert 10 in w.rows && w.rows[10].refreshHash == Sha256(20);
    assert ByHash(w.rows, Sha256(20)) == Some(10);
    GrantOpens(env, w, d);
    GrantLeavesTheCacheEntry(env, w, 20, d, {}, 10, [], {});
    var granted := Handle(env, w, RefreshGrant(20, d, {})).world;
    assert Serve(env, granted, []) == granted && granted.now == w.now;
    assert ReplacedYetAccepted(env, w, 20, d, 10);
  }

  // ----- Logout without its middleware -----

  lemma LongAfter(env: Env, w: World)
    requires SignedIn(env, w)
    ensures var v := Handle(env, w, Tick(38 * DAY)).world; v.now == 38 * DAY && v.rows == w.rows
  {
    hide Reachable;
  }

  /** Asked to end the session, the use case reports success, or that there is none if a cleanup came first. */
  ghost predicate Tells(w: World, id: Id) {
    && Logout(w, id, true, {}).response == LoggedOut
    && Logout(w.(rows := Sweep(w.rows, w.now - SESSION_RETENTION)), id, true, {}).response == Refused(NotFound)
  }

  lemma LogoutAloneCanTell(env: Env)
    ensures exists w, id :: Reachable(env, w) && Tells(w, id)
  {
    hide Handle;
    var signedIn := Ada(env);
    LongAfter(env, signedIn);
    ReachableStep(env, signedIn, Tick(38 * DAY));
    var w := Handle(env, signedIn, Tick(38 * DAY)).world;
    assert Qualifies(w.rows[10], w.now - SESSION_RETENTION) && !Orphans(w.rows, w.now - SESSION_RETENTION);
    assert Tells(w, 10);
  }
}
