// Who a request acts for, and what a logout does: exactly, in every reachable
// state and whichever accesses fail.

module AuthAnswers {
  import opened Clock
  import opened Types
  import opened Sessions
  import opened Requests
  import opened Ground

  /** A bearer token that was issued, is in its time and whose key can be read decides alone, whatever
      session header comes with it and whatever has become of its session. */
  lemma BearerDecides(env: Env, w: World, r: Request)
    requires r.Call? && r.cred.bearer.Some? && FindKey !in r.down && r.cred.bearer.value in w.tokens
    requires r.cred.bearer.value.notBefore <= w.now < r.cred.bearer.value.expires
    ensures Handle(env, w, r) == Reply(w, Known(r.cred.bearer.value.session, r.cred.bearer.value.owner))
  {
    hide Handle, SessionHeader;
    ServesCall(env, w, r.cred, r.cacheUp, r.down);
  }

  /** Without such a token the session header decides: it is accepted exactly when the principal is
      cached, or the row is there, unrevoked and unexpired and everything can be read; and then for the
      row's owner, who is cached for five minutes from a fresh read. */
  lemma HeaderAnswer(env: Env, w: World, r: Request)
    requires Reachable(env, w) && r.Call?
    requires r.cred.bearer.Some? && FindKey !in r.down && r.cred.bearer.value in w.tokens ==>
      w.now < r.cred.bearer.value.notBefore || r.cred.bearer.value.expires <= w.now
    ensures
      var reply := Handle(env, w, r);
      match r.cred.session
      case None => reply == Reply(w, Refused(Unauthorized))
      case Some(id) =>
        var hit := r.cacheUp && id in w.cache;
        var read := id in w.rows && w.rows[id].revokedAt.None? && w.now <= w.rows[id].expiresAt
          && r.down !! {FindSession, ReadIdentity, ReadRoles, ReadPermissions};
        && (hit ==> id in w.rows)
        && reply.response == (if hit || read then Known(id, w.rows[id].owner) else Refused(Unauthorized))
        && reply.world == (if !hit && read && r.cacheUp
                           then w.(cache := w.cache[id := Expiring(w.rows[id].owner, w.now + 5 * MINUTE)]) else w)
  {
    hide Handle;
    ReachableFacts(env, w);
    ServesCall(env, w, r.cred, r.cacheUp, r.down);
  }

  /** A logout acts for whom a call with the same credentials would act for, and refuses whom it would
      refuse. It reports success exactly when the row can be read and is, or can be, revoked; then the
      row is revoked, no later than now, and with a working cache its entry is gone. */
  lemma LogoutAnswer(env: Env, w: World, r: Request)
    requires r.LogoutSession?
    ensures
      var who, reply := Handle(env, w, Call(r.cred, r.cacheUp, r.down)), Handle(env, w, r);
      match who.response
      case Known(id, _) =>
        && (reply.response == Refused(NotFound) <==> FindSession in r.down || id !in w.rows)
        && (reply.response == LoggedOut <==>
              FindSession !in r.down && id in w.rows && (w.rows[id].revokedAt.Some? || RevokeSession !in r.down))
        && (reply.response.Refused? ==> reply.response.why in {NotFound, Internal} && reply.world == who.world)
        && (reply.response == LoggedOut ==>
              reply.world == who.world.(
                rows := if w.rows[id].revokedAt.Some? then w.rows else w.rows[id := w.rows[id].(revokedAt := Some(w.now))],
                cache := if r.cacheUp then who.world.cache - {id} else who.world.cache))
        && (reply.response == LoggedOut || reply.response.Refused?)
      case _ => reply == who
  {
    hide Handle, Authenticate;
    ServesCall(env, w, r.cred, r.cacheUp, r.down);
    LogsOut(env, w, r.cred, r.cacheUp, r.down);
    AuthenticateKeepsRows(w, r.cred, r.cacheUp, r.down);
  }

  lemma AuthenticateKeepsRows(w: World, cred: Presented, cacheUp: bool, down: set<Access>)
    ensures var v := Authenticate(w, cred, cacheUp, down).world; v.rows == w.rows && v.now == w.now
  {
  }
}
