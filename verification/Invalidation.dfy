// What logging out or rotating a session does to later requests that present
// its session header: immediate with the cache forgotten, and exactly the
// remaining life of the cache entry without.

module Invalidation {
  import Clock
  import opened Types
  import opened Sessions
  import opened Requests
  import opened Effects
  import SerialRotation
  import Coverage

  ghost predicate Retired(w: World, id: Id) {
    id in w.history.drawn && (id in w.rows ==> w.rows[id].revokedAt.Some?)
  }

  ghost predicate Dead(w: World, id: Id) {
    Retired(w, id) && id !in w.cache
  }

  lemma RetiredStays(w: World, v: World, e: Effect, id: Id)
    requires Does(w, v, e) && Retired(w, id)
    ensures Retired(v, id)
  {
  }

  lemma DeadStep(env: Env, w: World, r: Request, id: Id)
    requires Reachable(env, w) && Dead(w, id)
    ensures Dead(Handle(env, w, r).world, id)
  {
    hide Handle, Does;
    SerialRotation.ReachableInv(env, w);
    Coverage.CacheAndTokensAgreeWithTable(env, w);
    var e := HandleEffect(env, w, r);
    RetiredStays(w, Handle(env, w, r).world, e, id);
    Coverage.HandleCache(env, w, r);
    var v := Handle(env, w, r).world;
    assert id in v.cache ==> Coverage.Entered(w, v, id, v.cache[id]);
  }

  lemma {:induction false} DeadForGood(env: Env, w: World, rs: seq<Request>, id: Id)
    requires Reachable(env, w) && Dead(w, id)
    ensures Dead(Serve(env, w, rs), id)
    decreases |rs|
  {
    hide Handle;
    if rs != [] {
      DeadStep(env, w, rs[0], id);
      ReachableStep(env, w, rs[0]);
      DeadForGood(env, Handle(env, w, rs[0]).world, rs[1..], id);
    }
  }

  /** A request that presents the session header of `id` and no bearer token. */
  function HeaderCall(id: Id, cacheUp: bool, down: set<Access>): Request {
    Call(Presented(None, Some(id)), cacheUp, down)
  }

  lemma DeadRefused(env: Env, w: World, id: Id, cacheUp: bool, down: set<Access>)
    requires Dead(w, id)
    ensures Handle(env, w, HeaderCall(id, cacheUp, down)).response == Refused(Unauthorized)
  {
  }

  lemma RowsAreDrawn(env: Env, w: World, id: Id)
    requires Reachable(env, w) && id in w.rows
    ensures id in w.history.drawn
  {
    SerialRotation.ReachableInv(env, w);
    assert id in w.history.roots;
  }

  lemma AuthenticateKeeps(w: World, cred: Presented, cacheUp: bool, down: set<Access>)
    ensures var v := Authenticate(w, cred, cacheUp, down).world; v.rows == w.rows && v.history == w.history
  {
  }

  /** Once a logout has been answered with the cache working, no request presenting that session
      header is ever accepted again, whatever happens in between and whatever fails. */
  lemma {:induction false} LogoutIsImmediate(env: Env, w: World, cred: Presented, down: set<Access>, id: Id,
                                             rs: seq<Request>, cacheUp: bool, later: set<Access>)
    requires Reachable(env, w)
    requires Authenticate(w, cred, true, down).response.Known? && Authenticate(w, cred, true, down).response.id == id
    requires Handle(env, w, LogoutSession(cred, true, down)).response.LoggedOut?
    ensures
      var v := Serve(env, Handle(env, w, LogoutSession(cred, true, down)).world, rs);
      Handle(env, v, HeaderCall(id, cacheUp, later)).response == Refused(Unauthorized)
  {
    hide Authenticate;
    var logout := LogoutSession(cred, true, down);
    AuthenticateKeeps(w, cred, true, down);
    RowsAreDrawn(env, w, id);
    ReachableStep(env, w, logout);
    DeadForGood(env, Handle(env, w, logout).world, rs, id);
    DeadRefused(env, Serve(env, Handle(env, w, logout).world, rs), id, cacheUp, later);
  }

  /** The rotation got as far as revoking the session it was asked to rotate. */
  ghost predicate Revokes(w: World, refresh: Id, id: Id, down: set<Access>) {
    && ByHash(w.rows, Sha256(refresh)) == Some(id) && Usable(w.rows[id], w.now)
    && FindSession !in down && RevokeSession !in down
  }

  lemma RetiredBy(w: World, v: World, e: Effect, id: Id)
    requires Does(w, v, e) && (e == Retire(id) || (e.Child? && e.parent == id)) && id in w.history.drawn
    ensures Retired(v, id) && v.now == w.now
  {
  }

  lemma RotationRetires(env: Env, w: World, refresh: Id, d: Draw, forgets: bool, denial: Failure, down: set<Access>, id: Id)
    requires Reachable(env, w) && Revokes(w, refresh, id, down) && Fresh(w, d)
    ensures var v := Rotate(w, refresh, d, forgets, denial, down).world;
      && Retired(v, id) && v.now == w.now
      && v.cache == if forgets then Without(w.cache, id) else w.cache
  {
    hide OpenSession, Does;
    RowsAreDrawn(env, w, id);
    var e := ChildEffect(w, id, d, forgets, down);
    RetiredBy(w, Rotate(w, refresh, d, forgets, denial, down).world, e, id);
  }

  /** The same of a refresh that got past its revoke, even if it then failed to create the child. */
  lemma {:induction false} RefreshIsImmediate(env: Env, w: World, refresh: Id, d: Draw, down: set<Access>, id: Id,
                                              rs: seq<Request>, cacheUp: bool, later: set<Access>)
    requires Reachable(env, w) && Revokes(w, refresh, id, down) && Fresh(w, d)
    ensures
      var v := Serve(env, Handle(env, w, RefreshSession(refresh, d, true, down)).world, rs);
      Handle(env, v, HeaderCall(id, cacheUp, later)).response == Refused(Unauthorized)
  {
    hide Rotate;
    var refreshed := RefreshSession(refresh, d, true, down);
    RotationRetires(env, w, refresh, d, true, Unauthorized, down, id);
    ReachableStep(env, w, refreshed);
    DeadForGood(env, Handle(env, w, refreshed).world, rs, id);
    DeadRefused(env, Serve(env, Handle(env, w, refreshed).world, rs), id, cacheUp, later);
  }

  // ----- The refresh grant leaves the cache alone -----

  /** What is left of an entry made before the session was retired. */
  ghost predicate Lingers(w: World, id: Id, was: map<Id, Expiring<Owner>>) {
    && Retired(w, id)
    && (id in w.cache <==> id in was && w.now < was[id].deadline)
    && (id in w.cache ==> w.cache[id] == was[id])
  }

  /** A logout of this very session is answered, and the cache is working. */
  ghost predicate EndsEntry(env: Env, w: World, r: Request, id: Id) {
    && r.LogoutSession? && r.cacheUp && Handle(env, w, r).response.LoggedOut?
    && Authenticate(w, r.cred, true, r.down).response.Known? && Authenticate(w, r.cred, true, r.down).response.id == id
  }

  lemma AuthenticateKeepsEntry(w: World, cred: Presented, cacheUp: bool, down: set<Access>, id: Id)
    requires Retired(w, id) && id in w.cache
    ensures var v := Authenticate(w, cred, cacheUp, down).world; id in v.cache && v.now == w.now && Retired(v, id)
  {
  }

  lemma LogoutKeepsEntry(w: World, other: Id, cacheUp: bool, down: set<Access>, id: Id)
    requires id in w.cache && (other != id || !cacheUp || !Logout(w, other, cacheUp, down).response.LoggedOut?)
    ensures id in Logout(w, other, cacheUp, down).world.cache && Logout(w, other, cacheUp, down).world.now == w.now
  {
  }

  lemma LogoutRequestKeepsEntry(env: Env, w: World, r: Request, id: Id)
    requires Retired(w, id) && id in w.cache && r.LogoutSession? && !EndsEntry(env, w, r, id)
    ensures id in Handle(env, w, r).world.cache && Handle(env, w, r).world.now == w.now
  {
    hide Authenticate, Logout, Retired;
    AuthenticateKeepsEntry(w, r.cred, r.cacheUp, r.down, id);
    var known := Authenticate(w, r.cred, r.cacheUp, r.down);
    if known.response.Known? {
      LogoutKeepsEntry(known.world, known.response.id, r.cacheUp, r.down, id);
    }
  }

  /** Nothing else removes the entry of a retired session before its time. */
  lemma EntryStays(env: Env, w: World, r: Request, id: Id)
    requires Retired(w, id) && id in w.cache && !r.LogoutSession?
    ensures var v := Handle(env, w, r).world;
      v.now < w.cache[id].deadline && w.now <= v.now ==> id in v.cache
  {
  }

  lemma EntryEnds(env: Env, w: World, r: Request, id: Id)
    requires Retired(w, id) && EndsEntry(env, w, r, id)
    ensures Dead(Handle(env, w, r).world, id)
  {
  }

  lemma LingersStep(env: Env, w: World, r: Request, id: Id, was: map<Id, Expiring<Owner>>)
    requires Reachable(env, w) && Lingers(w, id, was) && !EndsEntry(env, w, r, id)
    ensures Lingers(Handle(env, w, r).world, id, was)
  {
    hide Handle, Does, EndsEntry;
    var v := Handle(env, w, r).world;
    SerialRotation.ReachableInv(env, w);
    Coverage.CacheAndTokensAgreeWithTable(env, w);
    var e := HandleEffect(env, w, r);
    RetiredStays(w, v, e, id);
    NoEarlier(w, v, e);
    Coverage.HandleCache(env, w, r);
    assert id in v.cache ==> Coverage.Entered(w, v, id, v.cache[id]);
    if id in w.cache {
      if r.LogoutSession? {
        LogoutRequestKeepsEntry(env, w, r, id);
      } else {
        EntryStays(env, w, r, id);
      }
    }
  }

  lemma NoEarlier(w: World, v: World, e: Effect)
    requires Does(w, v, e)
    ensures w.now <= v.now
  {
  }

  ghost predicate LoggedOutIn(env: Env, w: World, rs: seq<Request>, id: Id)
    decreases |rs|
  {
    rs != [] && (EndsEntry(env, w, rs[0], id) || LoggedOutIn(env, Handle(env, w, rs[0]).world, rs[1..], id))
  }

  lemma {:induction false} LingersOn(env: Env, w: World, rs: seq<Request>, id: Id, was: map<Id, Expiring<Owner>>)
    requires Reachable(env, w) && Lingers(w, id, was)
    ensures if LoggedOutIn(env, w, rs, id) then Dead(Serve(env, w, rs), id) else Lingers(Serve(env, w, rs), id, was)
    decreases |rs|
  {
    hide Handle, EndsEntry, Dead, Retired;
    if rs != [] {
      ReachableStep(env, w, rs[0]);
      if EndsEntry(env, w, rs[0], id) {
        EntryEnds(env, w, rs[0], id);
        DeadForGood(env, Handle(env, w, rs[0]).world, rs[1..], id);
      } else {
        LingersStep(env, w, rs[0], id, was);
        LingersOn(env, Handle(env, w, rs[0]).world, rs[1..], id, was);
      }
    }
  }

  lemma RetiredHeader(env: Env, w: World, id: Id, down: set<Access>)
    requires Retired(w, id)
    ensures Handle(env, w, HeaderCall(id, true, down)).response.Known? <==> id in w.cache
  {
  }

  /** The session a refresh grant retires stays usable through its header for exactly as long as the
      cache entry it happened to have at that moment: no longer, and no shorter unless the session
      itself is logged out, whatever else is requested in between. */
  lemma GrantLeavesTheCacheEntry(env: Env, w: World, refresh: Id, d: Draw, down: set<Access>, id: Id,
                                 rs: seq<Request>, later: set<Access>)
    requires Reachable(env, w) && Revokes(w, refresh, id, down) && Fresh(w, d)
    ensures
      var granted := Handle(env, w, RefreshGrant(refresh, d, down)).world;
      var v := Serve(env, granted, rs);
      Handle(env, v, HeaderCall(id, true, later)).response.Known?
      <==> (id in w.cache && v.now < w.cache[id].deadline && !LoggedOutIn(env, granted, rs, id))
    ensures id in w.cache ==> w.cache[id].deadline <= w.now + Clock.PRINCIPAL_CACHE_TTL
  {
    hide Rotate, LoggedOutIn;
    var request := RefreshGrant(refresh, d, down);
    RotationRetires(env, w, refresh, d, false, InvalidGrant, down, id);
    SerialRotation.ReachableInv(env, w);
    Coverage.CacheAndTokensAgreeWithTable(env, w);
    assert id in w.cache ==> Coverage.Covers(w.rows, w.now, id, w.cache[id]);
    ReachableStep(env, w, request);
    var granted := Handle(env, w, request).world;
    LingersOn(env, granted, rs, id, w.cache);
    RetiredHeader(env, Serve(env, granted, rs), id, later);
  }
}
