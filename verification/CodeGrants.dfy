// Authorization codes over whole runs of requests: when one is issued, when one
// is exchanged, and that every exchange goes back to one authorize request.

module CodeGrants {
  import opened Clock
  import opened Types
  import opened Sessions
  import opened OAuth
  import opened Requests
  import opened Effects
  import opened Scopes
  import opened Ground
  import opened Answers
  import AuthAnswers
  import opened MfaGating

  // ----- When a code is issued -----

  /** An authorize request acts for whom a call with the same credentials would act for, and issues a
      code exactly when response type, PKCE, client, redirect URI, grant type, every scope and the
      tenant are in order; the code says for whom, and lives ten minutes. */
  lemma AuthorizeAnswer(env: Env, w: World, r: Request)
    requires r.Authorize? && Fresh(w, r.draw)
    ensures
      var who, reply, a := Handle(env, w, Call(r.cred, r.cacheUp, r.down)), Handle(env, w, r), r.input;
      match who.response
      case Known(_, owner) =>
        var granted :=
          && a.responseType == "code" && a.challenge != "" && a.challengeMethod == "S256" && a.clientId in env.clients
          && a.redirectUri in env.clients[a.clientId].redirectUris
          && "authorization_code" in env.clients[a.clientId].grantTypes
          && (forall s :: s in SplitScopes(a.scope) ==> s in env.clients[a.clientId].scopes)
          && env.clients[a.clientId].tenant == owner.tenant;
        && (reply.response == CodeIssued(r.draw.oneShot) <==> granted && StoreValue !in r.down)
        && (reply.response == Refused(Internal) <==> granted && StoreValue in r.down)
        && (reply.response.CodeIssued? ==>
              reply.response == CodeIssued(r.draw.oneShot) && reply.world == who.world.(history := reply.world.history, codes := who.world.codes[r.draw.oneShot :=
                Expiring(Code(a.clientId, owner, SplitScopes(a.scope), a.redirectUri, a.challenge, a.nonce, w.now + 10 * MINUTE),
                         w.now + 10 * MINUTE)]))
        && (!reply.response.CodeIssued? ==> reply.world == who.world && reply.response.Refused?)
      case _ => reply == who
  {
    hide Handle, Authenticate;
    ServesCall(env, w, r.cred, r.cacheUp, r.down);
    Authorizes(env, w, r.cred, r.input, r.draw, r.cacheUp, r.down);
    AuthAnswers.AuthenticateKeepsRows(w, r.cred, r.cacheUp, r.down);
  }

  /** What it answers otherwise: the first check that fails, in this order. */
  lemma AuthorizeRefusal(env: Env, w: World, r: Request)
    requires r.Authorize? && Fresh(w, r.draw) && Handle(env, w, Call(r.cred, r.cacheUp, r.down)).response.Known?
    ensures
      var response, a := Handle(env, w, r).response, r.input;
      var owner := Handle(env, w, Call(r.cred, r.cacheUp, r.down)).response.owner;
      var form := a.responseType == "code" && a.challenge != "" && a.challengeMethod == "S256";
      && (response == Refused(NotAuthorized(UnsupportedResponse)) <==> a.responseType != "code")
      && (response == Refused(NotAuthorized(MissingPKCE)) <==> a.responseType == "code" && a.challenge == "")
      && (response == Refused(NotAuthorized(UnsupportedChallenge)) <==>
            a.responseType == "code" && a.challenge != "" && a.challengeMethod != "S256")
      && (a.clientId !in env.clients ==>
            (response == Refused(NotAuthorized(AuthorizeError.InvalidClient)) <==> form))
      && (a.clientId in env.clients ==>
            var c := env.clients[a.clientId];
            var allowed := forall s :: s in SplitScopes(a.scope) ==> s in c.scopes;
            var known := form && a.redirectUri in c.redirectUris;
            && (response == Refused(NotAuthorized(InvalidRedirectURI)) <==> form && a.redirectUri !in c.redirectUris)
            && (response == Refused(NotAuthorized(UnsupportedGrant)) <==> known && "authorization_code" !in c.grantTypes)
            && (response == Refused(NotAuthorized(InvalidScope)) <==> known && "authorization_code" in c.grantTypes && !allowed)
            && (response == Refused(NotAuthorized(AuthorizeError.InvalidClient)) <==>
                  known && "authorization_code" in c.grantTypes && allowed && c.tenant != owner.tenant))
  {
    hide Handle, Authenticate;
    ServesCall(env, w, r.cred, r.cacheUp, r.down);
    Authorizes(env, w, r.cred, r.input, r.draw, r.cacheUp, r.down);
  }

  // ----- When a code is exchanged -----

  lemma ExchangeStep(env: Env, w: World, t: TokenInput, d: Draw, down: set<Access>)
    requires OnTime(w)
    ensures
      var reply := CodeGrant(env, w, t, d, down);
      var client := t.clientId in env.clients && (env.clients[t.clientId].confidential ==>
        t.clientSecret != "" && env.crypto.hash(t.clientSecret) == env.clients[t.clientId].secretHash);
      if !client then reply == Reply(w, Refused(Failure.InvalidClient))
      else if TakeValue in down || t.code !in w.codes then reply == Reply(w, Refused(InvalidGrant))
      else
        var c := w.codes[t.code].value;
        var taken := w.(codes := w.codes - {t.code});
        if c.clientId != t.clientId || c.redirectUri != t.redirectUri || env.crypto.s256(t.verifier) != c.challenge then
          reply == Reply(taken, Refused(InvalidGrant))
        else
          var session := OpenSession(taken, d, Session(c.owner, Sha256(d.refresh), None, Device(None, ""), w.now + 7 * DAY, None, w.now),
                                    Exchanged(t.code), Join(c.scopes), false, down);
          reply == if session.response.Opened? && "openid" in c.scopes && SignIdToken in down
                   then Reply(session.world, Refused(Internal)) else session
  {
    hide OpenSession;
    if t.code in w.codes {
      assert Timed(w.codes[t.code], w.codes[t.code].value.expiresAt, w.now);
    }
  }

  /** An exchange opens a session exactly when the client is known, its secret is right if it is
      confidential, the code is in the store, and client, redirect URI and the S256 of the verifier are
      those the code was issued for. A code whose client was authenticated is gone either way. */
  lemma ExchangeAnswer(env: Env, w: World, r: Request)
    requires Reachable(env, w) && r.ExchangeCode? && Fresh(w, r.draw)
    ensures
      var reply, t, d := Handle(env, w, r), r.exchange, r.draw;
      var client := t.clientId in env.clients && (env.clients[t.clientId].confidential ==>
        t.clientSecret != "" && env.crypto.hash(t.clientSecret) == env.clients[t.clientId].secretHash);
      var taken := client && TakeValue !in r.down && t.code in w.codes;
      var fits := taken && w.codes[t.code].value.clientId == t.clientId && w.codes[t.code].value.redirectUri == t.redirectUri
        && w.codes[t.code].value.challenge == env.crypto.s256(t.verifier);
      && (reply.response == Refused(Failure.InvalidClient) <==> !client)
      && (reply.response == Refused(InvalidGrant) <==> client && !fits)
      && (reply.response.Opened? <==>
            && fits && r.down !! {ReadIdentity, ReadRoles, ReadPermissions, CreateSession, SignToken}
            && ("openid" in w.codes[t.code].value.scopes ==> SignIdToken !in r.down))
      && (fits && !reply.response.Opened? ==> reply.response == Refused(Internal))
      && reply.world.codes == (if taken then w.codes - {t.code} else w.codes)
      && (!fits ==> reply.world == w.(codes := reply.world.codes))
      && (reply.response.Opened? ==>
            var c := w.codes[t.code].value;
            && reply.response == Opened(d.session, c.owner, d.refresh, Join(c.scopes))
            && OpensAs(w, reply.world, w.rows, d.session, d.refresh, c.owner, None, Device(None, "")))
  {
    hide Handle, OpenSession, CodeGrant;
    ReachableFacts(env, w);
    ServesExchange(env, w, r.exchange, r.draw, r.down);
    ExchangeStep(env, w, r.exchange, r.draw, r.down);
    if r.exchange.code in w.codes {
      var c := w.codes[r.exchange.code].value;
      OpenAnswer(w.(codes := w.codes - {r.exchange.code}), r.draw,
                 Session(c.owner, Sha256(r.draw.refresh), None, Device(None, ""), w.now + 7 * DAY, None, w.now),
                 Exchanged(r.exchange.code), Join(c.scopes), false, r.down);
    }
  }

  // ----- Where a code comes from -----

  /** Request `j` was an authorize request that was answered with this code, which says what was asked
      for, for whom, and when. */
  ghost predicate IssuedAt(env: Env, rs: seq<Request>, j: nat, c: Id, code: Code) {
    && j < |rs| && rs[j].Authorize? && ReplyTo(env, rs, j).response == CodeIssued(c)
    && Fresh(Before(env, rs, j), rs[j].draw)
    && c == rs[j].draw.oneShot && code.expiresAt == Before(env, rs, j).now + 10 * MINUTE
    && code.clientId == rs[j].input.clientId && code.redirectUri == rs[j].input.redirectUri
    && code.challenge == rs[j].input.challenge && code.scopes == SplitScopes(rs[j].input.scope)
    && (exists id :: Handle(env, Before(env, rs, j), Call(rs[j].cred, rs[j].cacheUp, rs[j].down)).response == Known(id, code.owner))
  }

  lemma {:induction false} EveryCodeIssued(env: Env, rs: seq<Request>, c: Id) returns (j: nat)
    requires c in Serve(env, START, rs).codes
    ensures IssuedAt(env, rs, j, c, Serve(env, START, rs).codes[c].value)
    decreases |rs|
  {
    hide Handle;
    var n := |rs| - 1;
    LastRequest(env, rs);
    var w := Before(env, rs, n);
    if !rs[n].Tick? {
      HandleKeepsTime(env, w, rs[n]);
    } else {
      TicksForget(env, w, rs[n]);
    }
    var v := ReplyTo(env, rs, n).world;
    if Stays(w.codes, c, v.codes[c]) {
      j := EveryCodeIssued(env, rs[..n], c);
      SamePrefix(env, rs, n, j);
    } else {
      j := n;
      JustIssued(env, w, rs[n], c);
    }
  }

  lemma TicksForget(env: Env, w: World, r: Request)
    requires r.Tick?
    ensures forall c :: c in Handle(env, w, r).world.codes ==> Stays(w.codes, c, Handle(env, w, r).world.codes[c])
  {
  }

  lemma JustIssued(env: Env, w: World, r: Request, c: Id)
    requires r.Authorize? && c in Handle(env, w, r).world.codes && !Stays(w.codes, c, Handle(env, w, r).world.codes[c])
    ensures Fresh(w, r.draw) && Handle(env, w, r).response == CodeIssued(c) && c == r.draw.oneShot
    ensures
      var who := Handle(env, w, Call(r.cred, r.cacheUp, r.down));
      && who.response.Known?
      && Handle(env, w, r).world.codes[c].value == Code(r.input.clientId, who.response.owner, SplitScopes(r.input.scope),
           r.input.redirectUri, r.input.challenge, r.input.nonce, w.now + 10 * MINUTE)
  {
    if !Fresh(w, r.draw) {
      Repeated(env, w, r);
    } else {
      hide Handle;
      AuthorizeAnswer(env, w, r);
      ServesCall(env, w, r.cred, r.cacheUp, r.down);
      AuthenticateKeepsTime(w, r.cred, r.cacheUp, r.down);
    }
  }

  // ----- Whole runs -----

  lemma MovesOn(env: Env, w: World, r: Request)
    ensures var v := Handle(env, w, r).world; w.now <= v.now && w.history.drawn <= v.history.drawn
  {
    hide Handle;
    var e := HandleEffect(env, w, r);
  }

  lemma {:induction false} LaterOn(env: Env, rs: seq<Request>, i: nat, j: nat)
    requires i <= j <= |rs|
    ensures Before(env, rs, i).now <= Before(env, rs, j).now
    ensures Before(env, rs, i).history.drawn <= Before(env, rs, j).history.drawn
    decreases j
  {
    hide Handle;
    if i < j {
      LaterOn(env, rs, i, j - 1);
      MovesOn(env, Before(env, rs, j - 1), rs[j - 1]);
      LastRequest(env, rs[..j]);
      SamePrefix(env, rs, j, j - 1);
      assert rs[..j][..j] == rs[..j];
    }
  }

  lemma ReachableBefore(env: Env, rs: seq<Request>, i: nat)
    requires i <= |rs|
    ensures Reachable(env, Before(env, rs, i))
  {
  }

  /** Nobody else is given the same code. */
  lemma IssuedOnce(env: Env, rs: seq<Request>, j: nat, k: nat, c: Id)
    requires j < |rs| && k < |rs| && rs[j].Authorize? && rs[k].Authorize?
    requires ReplyTo(env, rs, j).response == CodeIssued(c) && ReplyTo(env, rs, k).response == CodeIssued(c)
    ensures j == k
  {
    hide Handle;
    if j != k {
      var first, second := if j < k then j else k, if j < k then k else j;
      DrawsItsCode(env, Before(env, rs, first), rs[first]);
      DrawsItsCode(env, Before(env, rs, second), rs[second]);
      LastRequest(env, rs[..first + 1]);
      SamePrefix(env, rs, first + 1, first);
      assert rs[..first + 1][..first + 1] == rs[..first + 1];
      LaterOn(env, rs, first + 1, second);
    }
  }

  lemma DrawsItsCode(env: Env, w: World, r: Request)
    requires r.Authorize? && Handle(env, w, r).response.CodeIssued?
    ensures var c := Handle(env, w, r).response.code;
      c !in w.history.drawn && c in Handle(env, w, r).world.history.drawn
  {
    hide Authenticate;
    AuthenticateKeepsHistory(w, r.cred, r.cacheUp, r.down);
  }

  lemma AuthenticateKeepsHistory(w: World, cred: Presented, cacheUp: bool, down: set<Access>)
    ensures var known := Authenticate(w, cred, cacheUp, down);
      known.world.history == w.history && !known.response.CodeIssued?
  {
  }

  /** Request `i`, an exchange, goes back to request `j`: an authorize request that was answered with
      this very code at most ten minutes before, by the owner of the new session, with the same client
      and redirect URI and a challenge that the verifier answers; the response scope reads back as the
      scope that was asked for. */
  ghost predicate GoesBackTo(env: Env, rs: seq<Request>, i: nat, j: nat)
    requires i < |rs| && rs[i].ExchangeCode? && ReplyTo(env, rs, i).response.Opened?
  {
    var t, response := rs[i].exchange, ReplyTo(env, rs, i).response;
    && j < i && rs[j].Authorize? && ReplyTo(env, rs, j).response == CodeIssued(t.code)
    && (exists id :: Handle(env, Before(env, rs, j), Call(rs[j].cred, rs[j].cacheUp, rs[j].down)).response == Known(id, response.owner))
    && rs[j].input.clientId == t.clientId && rs[j].input.redirectUri == t.redirectUri
    && rs[j].input.challengeMethod == "S256" && rs[j].input.challenge == env.crypto.s256(t.verifier)
    && Before(env, rs, j).now <= Before(env, rs, i).now < Before(env, rs, j).now + 10 * MINUTE
    && SplitScopes(response.scope) == SplitScopes(rs[j].input.scope)
    && t.clientId in env.clients && env.clients[t.clientId].tenant == response.owner.tenant
    && t.redirectUri in env.clients[t.clientId].redirectUris
    && (forall s :: s in SplitScopes(response.scope) ==> s in env.clients[t.clientId].scopes)
  }

  /** In every run of requests, every exchange that opened a session goes back to exactly one authorize
      request, and its client gave the right secret if it has one. */
  lemma ExchangeGoesBack(env: Env, rs: seq<Request>, i: nat) returns (j: nat)
    requires i < |rs| && rs[i].ExchangeCode? && ReplyTo(env, rs, i).response.Opened?
    ensures GoesBackTo(env, rs, i, j) && forall k :: GoesBackTo(env, rs, i, k) ==> k == j
    ensures var t := rs[i].exchange;
      t.clientId in env.clients && (env.clients[t.clientId].confidential ==>
        t.clientSecret != "" && env.crypto.hash(t.clientSecret) == env.clients[t.clientId].secretHash)
  {
    hide Handle, OpensAs;
    var w := Before(env, rs, i);
    ReachableBefore(env, rs, i);
    ReachableFacts(env, w);
    ExchangeHappens(env, w, rs[i]);
    ExchangeAnswer(env, w, rs[i]);
    var c := rs[i].exchange.code;
    j := EveryCodeIssued(env, rs[..i], c);
    SamePrefix(env, rs, i, j);
    LaterOn(env, rs, j, i);
    AuthorizeAnswer(env, Before(env, rs, j), rs[j]);
    GrantedScopeReadsBack(rs[j].input.scope);
    assert Timed(w.codes[c], w.codes[c].value.expiresAt, w.now);
    assert GoesBackTo(env, rs, i, j);
    forall k | GoesBackTo(env, rs, i, k) ensures k == j {
      IssuedOnce(env, rs, j, k, c);
    }
  }

  lemma ExchangeHappens(env: Env, w: World, r: Request)
    requires r.ExchangeCode? && Handle(env, w, r).response.Opened?
    ensures Fresh(w, r.draw)
  {
    if !Fresh(w, r.draw) {
      Repeated(env, w, r);
    }
  }
}
