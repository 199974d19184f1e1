// What a cache entry and an access token still say about the session table,
// when requests are served one at a time.

module Coverage {
  import opened Clock
  import opened Types
  import opened Sessions
  import opened Requests
  import opened Effects
  import SerialRotation

  /** The row is there, it belongs to whom the entry says, and it was usable when the entry was made. */
  ghost predicate Covers(rows: Rows, now: Time, id: Id, c: Expiring<Owner>) {
    && now < c.deadline <= now + PRINCIPAL_CACHE_TTL
    && id in rows && rows[id].owner == c.value
    && c.deadline - PRINCIPAL_CACHE_TTL <= rows[id].expiresAt
    && (rows[id].revokedAt.Some? ==> c.deadline - PRINCIPAL_CACHE_TTL <= rows[id].revokedAt.value)
  }

  ghost predicate CacheCovered(w: World) {
    forall id :: id in w.cache ==> Covers(w.rows, w.now, id, w.cache[id])
  }

  ghost predicate Dated(rows: Rows, drawn: set<Id>, t: Token) {
    && t.session in drawn
    && (t.session in rows ==>
          t.owner == rows[t.session].owner && t.expires <= rows[t.session].createdAt + ACCESS_TOKEN_TTL)
  }

  ghost predicate TokensDated(w: World) {
    forall t :: t in w.tokens ==> Dated(w.rows, w.history.drawn, t)
  }

  /** An entry was there before, or a usable row was just put in. */
  ghost predicate Entered(w: World, v: World, id: Id, c: Expiring<Owner>) {
    || (id in w.cache && w.cache[id] == c && v.now < c.deadline)
    || (&& v.now == w.now && id in w.rows && Usable(w.rows[id], w.now)
        && c == Expiring(w.rows[id].owner, w.now + PRINCIPAL_CACHE_TTL))
  }

  ghost predicate CacheFrom(w: World, v: World) {
    forall id :: id in v.cache ==> Entered(w, v, id, v.cache[id])
  }

  lemma AuthenticateCache(w: World, cred: Presented, cacheUp: bool, down: set<Access>)
    requires CacheCovered(w)
    ensures CacheFrom(w, Authenticate(w, cred, cacheUp, down).world)
  {
  }

  lemma RotateCache(w: World, refresh: Id, d: Draw, forgets: bool, denial: Failure, down: set<Access>)
    requires CacheCovered(w)
    ensures CacheFrom(w, Rotate(w, refresh, d, forgets, denial, down).world)
  {
  }

  lemma AuthenticatedCache(env: Env, w: World, r: Request)
    requires CacheCovered(w) && (r.Authorize? || r.LogoutSession? || r.Call?)
    ensures CacheFrom(w, Handle(env, w, r).world)
  {
    hide Authenticate, AuthorizeAs, Logout;
    if Happens(w, r) {
      AuthenticateCache(w, r.cred, r.cacheUp, r.down);
      var known := Authenticate(w, r.cred, r.cacheUp, r.down);
      if known.response.Known? {
        match r
        case Authorize(_, input, d, _, down) =>
          var reply := AuthorizeAs(env, known.world, known.response.owner, input, d, down);
        case LogoutSession(_, cacheUp, down) => LogoutCache(known.world, known.response.id, cacheUp, down);
        case _ =>
      }
    }
  }

  lemma LogoutCache(w: World, id: Id, cacheUp: bool, down: set<Access>)
    ensures var v := Logout(w, id, cacheUp, down).world;
      forall k :: k in v.cache ==> k in w.cache && v.cache[k] == w.cache[k]
  {
  }

  lemma HandleCache(env: Env, w: World, r: Request)
    requires CacheCovered(w)
    ensures CacheFrom(w, Handle(env, w, r).world)
  {
    hide PasswordLogin, MfaCompletion, WebauthnCompletion, CodeGrant, Authenticate, Rotate, Sweep, AuthorizeAs, Logout, Advance;
    match r
    case Authorize(_, _, _, _, _) => AuthenticatedCache(env, w, r);
    case LogoutSession(_, _, _) => AuthenticatedCache(env, w, r);
    case Call(_, _, _) => AuthenticatedCache(env, w, r);
    case RefreshSession(refresh, d, cacheUp, down) => RotateCache(w, refresh, d, cacheUp, Unauthorized, down);
    case RefreshGrant(refresh, d, down) => RotateCache(w, refresh, d, false, InvalidGrant, down);
    case _ => OtherCache(env, w, r);
  }

  lemma OtherCache(env: Env, w: World, r: Request)
    requires !(r.Authorize? || r.LogoutSession? || r.Call? || r.RefreshSession? || r.RefreshGrant?)
    ensures var v := Handle(env, w, r).world;
      forall k :: k in v.cache ==> k in w.cache && v.cache[k] == w.cache[k] && (v.now == w.now || v.now < v.cache[k].deadline)
  {
  }

  /** No request touches a row that is not past the cutoff, except to revoke it now. */
  lemma RowStays(w: World, e: Effect, id: Id)
    requires SerialRotation.RootsOk(w.rows, w.history.roots, w.history.drawn) && Legitimate(w, e)
    requires id in w.rows && !Qualifies(w.rows[id], w.now - SESSION_RETENTION)
    ensures id in RowsAfter(w, e)
    ensures RowsAfter(w, e)[id] == w.rows[id] || RowsAfter(w, e)[id] == w.rows[id].(revokedAt := Some(w.now))
  {
    assert id in w.history.roots;
  }

  lemma EntryKept(w: World, v: World, e: Effect, id: Id)
    requires SerialRotation.RootsOk(w.rows, w.history.roots, w.history.drawn) && Does(w, v, e)
    requires id in w.cache ==> Covers(w.rows, w.now, id, w.cache[id])
    requires id in v.cache && Entered(w, v, id, v.cache[id])
    ensures Covers(v.rows, v.now, id, v.cache[id])
  {
    RowStays(w, e, id);
  }

  lemma CoverageKept(w: World, v: World, e: Effect)
    requires SerialRotation.Inv(w) && CacheCovered(w) && Does(w, v, e) && CacheFrom(w, v)
    ensures CacheCovered(v)
  {
    forall id | id in v.cache ensures Covers(v.rows, v.now, id, v.cache[id]) {
      EntryKept(w, v, e, id);
    }
  }

  lemma DatesKept(w: World, v: World, e: Effect)
    requires SerialRotation.Inv(w) && TokensDated(w) && Does(w, v, e)
    ensures TokensDated(v)
  {
    forall t | t in v.tokens ensures Dated(v.rows, v.history.drawn, t) {
      if t in w.tokens {
        assert Dated(w.rows, w.history.drawn, t);
      }
    }
  }

  lemma {:induction false} ServeCoverage(env: Env, w: World, rs: seq<Request>)
    requires Reachable(env, w) && CacheCovered(w) && TokensDated(w)
    ensures CacheCovered(Serve(env, w, rs)) && TokensDated(Serve(env, w, rs))
    decreases |rs|
  {
    hide Handle, CacheCovered, TokensDated, CacheFrom, SerialRotation.Inv;
    if rs != [] {
      var v := Handle(env, w, rs[0]).world;
      var e := HandleEffect(env, w, rs[0]);
      SerialRotation.ReachableInv(env, w);
      HandleCache(env, w, rs[0]);
      CoverageKept(w, v, e);
      DatesKept(w, v, e);
      ReachableStep(env, w, rs[0]);
      ServeCoverage(env, v, rs[1..]);
    }
  }

  /** Every live cache entry names a session that is still in the table, under the same owner, and
      was unrevoked and unexpired when it was put in, at most five minutes ago. An unexpired token
      whose session is still there agrees with it on the owner, and is at most fifteen minutes
      younger than it. */
  lemma CacheAndTokensAgreeWithTable(env: Env, w: World)
    requires Reachable(env, w)
    ensures CacheCovered(w) && TokensDated(w)
  {
    hide Handle;
    var rs :| w == Serve(env, START, rs);
    assert Serve(env, START, []) == START;
    ServeCoverage(env, START, rs);
  }
}
