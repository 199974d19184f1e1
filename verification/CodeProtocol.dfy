// Authorization codes under concurrency: one step to store a code, one to take
// it out, and separate steps for the checks and the response. A list of events
// is a run; an event that is not enabled changes nothing.

module CodeProtocol {
  import opened Clock
  import opened Types
  import opened Scopes
  import opened OAuth

  // ----- The protocol -----

  datatype Proc =
    | Storing(id: Id, mint: Mint)
    | Authenticated(input: TokenInput)
    | Holding(input: TokenInput, code: Code)
    | Passed(input: TokenInput, code: Code, at: Time)

  /** A token response, with the request it answers and the time its code was checked. */
  datatype Answer = Answer(input: TokenInput, owner: Owner, scope: string, checkedAt: Time)

  datatype State = State(
    now: Time,
    codes: map<Id, Code>,
    procs: map<Id, Proc>,
    // history
    minted: map<Id, Mint>,
    answers: seq<Answer>)

  const START := State(0, map[], map[], map[], [])

  datatype Event =
    | Tick(dt: nat)
    | Expire(id: Id)
    | Abort(pid: Id)
    | Authorize(pid: Id, id: Id, request: AuthorizeInput)
    | StoreCode(pid: Id)
    | Authenticate(pid: Id, input: TokenInput)
    | Consume(pid: Id)
    | CheckCode(pid: Id)
    | Respond(pid: Id)

  function Set(w: State, pid: Id, p: Proc): State {
    w.(procs := w.procs[pid := p])
  }

  function Done(w: State, pid: Id): State {
    w.(procs := Without(w.procs, pid))
  }

  /** The key lives until the code expires. A code is random: one that was ever stored is not drawn again. */
  function StoreStep(w: State, pid: Id): State
    requires pid in w.procs
  {
    match w.procs[pid]
    case Storing(id, mint) =>
      if w.now < CodeOf(mint).expiresAt && id !in w.minted then
        Done(w, pid).(codes := w.codes[id := CodeOf(mint)], minted := w.minted[id := mint])
      else Done(w, pid)
    case _ => w
  }

  /** Get and delete, in one. */
  function ConsumeStep(w: State, pid: Id): State
    requires pid in w.procs
  {
    match w.procs[pid]
    case Authenticated(input) =>
      if input.code in w.codes && w.now < w.codes[input.code].expiresAt then
        Set(w, pid, Holding(input, w.codes[input.code])).(codes := Without(w.codes, input.code))
      else Done(w, pid).(codes := Without(w.codes, input.code))
    case _ => w
  }

  function CheckStep(crypto: Crypto, w: State, pid: Id): State
    requires pid in w.procs
  {
    match w.procs[pid]
    case Holding(input, code) =>
      if CodeAccepted(crypto, input, code, w.now) then Set(w, pid, Passed(input, code, w.now)) else Done(w, pid)
    case _ => w
  }

  function RespondStep(w: State, pid: Id): State
    requires pid in w.procs
  {
    match w.procs[pid]
    case Passed(input, code, at) =>
      Done(w, pid).(answers := w.answers + [Answer(input, code.owner, Join(code.scopes), at)])
    case _ => w
  }

  function Step(crypto: Crypto, clients: Clients, w: State, e: Event): State {
    match e
    case Tick(dt) => w.(now := w.now + dt)
    case Expire(id) =>
      if id in w.codes && w.codes[id].expiresAt <= w.now then w.(codes := Without(w.codes, id)) else w
    case Abort(pid) => Done(w, pid)
    case Authorize(pid, id, input) =>
      if pid !in w.procs && AuthorizeFails(clients, input).None? then
        Set(w, pid, Storing(id, Mint(input, w.now)))
      else w
    case Authenticate(pid, input) =>
      if pid !in w.procs && ClientAuthenticated(crypto, clients, input) then
        Set(w, pid, Authenticated(input))
      else w
    case StoreCode(pid) => if pid in w.procs then StoreStep(w, pid) else w
    case Consume(pid) => if pid in w.procs then ConsumeStep(w, pid) else w
    case CheckCode(pid) => if pid in w.procs then CheckStep(crypto, w, pid) else w
    case Respond(pid) => if pid in w.procs then RespondStep(w, pid) else w
  }

  function Run(crypto: Crypto, clients: Clients, w: State, events: seq<Event>): State
    decreases |events|
  {
    if events == [] then w else Run(crypto, clients, Step(crypto, clients, w, events[0]), events[1..])
  }

  ghost predicate Reachable(crypto: Crypto, clients: Clients, w: State) {
    exists events :: w == Run(crypto, clients, START, events)
  }

  // ----- Invariant -----

  /** The request has taken this code out of the store. */
  predicate Holds(p: Proc, id: Id) {
    (p.Holding? || p.Passed?) && p.input.code == id
  }

  /** The authorize endpoint let this request through. */
  ghost predicate Authorized(clients: Clients, w: State, m: Mint) {
    AuthorizeFails(clients, m.request).None? && m.at <= w.now
  }

  ghost predicate ProcOk(crypto: Crypto, clients: Clients, w: State, p: Proc) {
    match p
    case Storing(id, mint) => Authorized(clients, w, mint)
    case Authenticated(input) => ClientAuthenticated(crypto, clients, input)
    case Holding(input, code) =>
      ClientAuthenticated(crypto, clients, input) && input.code in w.minted && CodeOf(w.minted[input.code]) == code
    case Passed(input, code, at) =>
      && ClientAuthenticated(crypto, clients, input) && input.code in w.minted && CodeOf(w.minted[input.code]) == code
      && CodeAccepted(crypto, input, code, at) && w.minted[input.code].at <= at <= w.now
  }

  ghost predicate AnswerOk(crypto: Crypto, clients: Clients, w: State, a: Answer) {
    && ClientAuthenticated(crypto, clients, a.input)
    && a.input.code in w.minted
    && var c := CodeOf(w.minted[a.input.code]);
       CodeAccepted(crypto, a.input, c, a.checkedAt) && a.owner == c.owner && a.scope == Join(c.scopes)
       && w.minted[a.input.code].at <= a.checkedAt <= w.now
  }

  ghost predicate CodesOk(clients: Clients, w: State) {
    && (forall id :: id in w.codes ==> id in w.minted && CodeOf(w.minted[id]) == w.codes[id])
    && (forall id :: id in w.minted ==> Authorized(clients, w, w.minted[id]))
  }

  ghost predicate ProcsOk(crypto: Crypto, clients: Clients, w: State) {
    forall pid :: pid in w.procs ==> ProcOk(crypto, clients, w, w.procs[pid])
  }

  ghost predicate AnswersOk(crypto: Crypto, clients: Clients, w: State) {
    forall i :: 0 <= i < |w.answers| ==> AnswerOk(crypto, clients, w, w.answers[i])
  }

  /** A code is in one place: in the store, in one request's hands, or behind one answer. */
  ghost predicate OnePlace(w: State) {
    && (forall pid, id :: pid in w.procs && Holds(w.procs[pid], id) ==> id !in w.codes)
    && (forall p, q, id :: p in w.procs && q in w.procs && Holds(w.procs[p], id) && Holds(w.procs[q], id) ==> p == q)
    && (forall i :: 0 <= i < |w.answers| ==> w.answers[i].input.code !in w.codes)
    && (forall i, pid :: 0 <= i < |w.answers| && pid in w.procs ==> !Holds(w.procs[pid], w.answers[i].input.code))
    && (forall i, j :: 0 <= i < j < |w.answers| ==> w.answers[i].input.code != w.answers[j].input.code)
  }

  ghost predicate Inv(crypto: Crypto, clients: Clients, w: State) {
    CodesOk(clients, w) && ProcsOk(crypto, clients, w) && AnswersOk(crypto, clients, w) && OnePlace(w)
  }

  /** History only grows. */
  ghost predicate Evolves(w: State, v: State) {
    w.now <= v.now && forall id :: id in w.minted ==> id in v.minted && v.minted[id] == w.minted[id]
  }

  lemma StepEvolves(crypto: Crypto, clients: Clients, w: State, e: Event)
    ensures Evolves(w, Step(crypto, clients, w, e))
  {
  }

  lemma ProcStays(crypto: Crypto, clients: Clients, w: State, v: State, p: Proc)
    requires Evolves(w, v) && ProcOk(crypto, clients, w, p)
    ensures ProcOk(crypto, clients, v, p)
  {
  }

  lemma AnswerStays(crypto: Crypto, clients: Clients, w: State, v: State, a: Answer)
    requires Evolves(w, v) && AnswerOk(crypto, clients, w, a)
    ensures AnswerOk(crypto, clients, v, a)
  {
  }

  lemma StoreKeepsCodes(clients: Clients, w: State, pid: Id)
    requires CodesOk(clients, w) && pid in w.procs
    requires w.procs[pid].Storing? ==> Authorized(clients, w, w.procs[pid].mint)
    ensures CodesOk(clients, StoreStep(w, pid))
  {
  }

  lemma CodesStay(crypto: Crypto, clients: Clients, w: State, e: Event)
    requires CodesOk(clients, w) && ProcsOk(crypto, clients, w)
    ensures CodesOk(clients, Step(crypto, clients, w, e))
  {
    if e.StoreCode? && e.pid in w.procs {
      assert ProcOk(crypto, clients, w, w.procs[e.pid]);
      StoreKeepsCodes(clients, w, e.pid);
    }
  }

  predicate Moves(e: Event) {
    e.Authorize? || e.Authenticate? || e.Consume? || e.CheckCode?
  }

  lemma MovedProc(crypto: Crypto, clients: Clients, w: State, e: Event, pid: Id)
    requires pid in Step(crypto, clients, w, e).procs
    ensures (pid in w.procs && Step(crypto, clients, w, e).procs[pid] == w.procs[pid]) || (Moves(e) && pid == e.pid)
  {
  }

  lemma MovedProcOk(crypto: Crypto, clients: Clients, w: State, e: Event)
    requires CodesOk(clients, w) && Moves(e) && e.pid in Step(crypto, clients, w, e).procs
    requires e.pid in w.procs ==> ProcOk(crypto, clients, w, w.procs[e.pid])
    ensures ProcOk(crypto, clients, w, Step(crypto, clients, w, e).procs[e.pid])
  {
  }

  lemma ProcsStay(crypto: Crypto, clients: Clients, w: State, e: Event)
    requires CodesOk(clients, w) && ProcsOk(crypto, clients, w)
    ensures ProcsOk(crypto, clients, Step(crypto, clients, w, e))
  {
    var v := Step(crypto, clients, w, e);
    StepEvolves(crypto, clients, w, e);
    forall pid | pid in v.procs ensures ProcOk(crypto, clients, v, v.procs[pid]) {
      MovedProc(crypto, clients, w, e, pid);
      if !(pid in w.procs && v.procs[pid] == w.procs[pid]) {
        MovedProcOk(crypto, clients, w, e);
      }
      ProcStays(crypto, clients, w, v, v.procs[pid]);
    }
  }

  lemma AnswersChange(crypto: Crypto, clients: Clients, w: State, e: Event)
    ensures var v := Step(crypto, clients, w, e);
      v.answers == w.answers ||
      (e.Respond? && e.pid in w.procs && w.procs[e.pid].Passed? && v == RespondStep(w, e.pid))
  {
  }

  lemma AnswersStay(crypto: Crypto, clients: Clients, w: State, e: Event)
    requires ProcsOk(crypto, clients, w) && AnswersOk(crypto, clients, w)
    ensures AnswersOk(crypto, clients, Step(crypto, clients, w, e))
  {
    var v := Step(crypto, clients, w, e);
    StepEvolves(crypto, clients, w, e);
    AnswersChange(crypto, clients, w, e);
    forall i | 0 <= i < |v.answers| ensures AnswerOk(crypto, clients, v, v.answers[i]) {
      if i < |w.answers| {
        AnswerStays(crypto, clients, w, v, w.answers[i]);
      } else {
        assert ProcOk(crypto, clients, w, w.procs[e.pid]);
        AnswerStays(crypto, clients, w, v, v.answers[i]);
      }
    }
  }

  /** No code comes into the store or into anybody's hands, and nothing is answered. */
  ghost predicate NoNewPlace(w: State, v: State) {
    && (forall id :: id in v.codes ==> id in w.codes)
    && (forall pid, id :: pid in v.procs && Holds(v.procs[pid], id) ==> pid in w.procs && Holds(w.procs[pid], id))
    && v.answers == w.answers
  }

  lemma StorePlace(crypto: Crypto, clients: Clients, w: State, pid: Id)
    requires Inv(crypto, clients, w) && pid in w.procs
    ensures OnePlace(StoreStep(w, pid))
  {
    forall p, id | p in w.procs && Holds(w.procs[p], id) ensures id in w.minted {
      assert ProcOk(crypto, clients, w, w.procs[p]);
    }
    forall i | 0 <= i < |w.answers| ensures w.answers[i].input.code in w.minted {
      assert AnswerOk(crypto, clients, w, w.answers[i]);
    }
  }

  lemma ConsumePlace(w: State, pid: Id)
    requires OnePlace(w) && pid in w.procs
    ensures OnePlace(ConsumeStep(w, pid))
  {
  }

  lemma RespondPlace(w: State, pid: Id)
    requires OnePlace(w) && pid in w.procs
    ensures OnePlace(RespondStep(w, pid))
  {
    if w.procs[pid].Passed? {
      assert Holds(w.procs[pid], w.procs[pid].input.code);
    }
  }

  lemma OtherPlace(crypto: Crypto, clients: Clients, w: State, e: Event)
    requires !e.StoreCode? && !e.Consume? && !e.Respond?
    ensures NoNewPlace(w, Step(crypto, clients, w, e))
  {
  }

  lemma OnePlaceStays(crypto: Crypto, clients: Clients, w: State, e: Event)
    requires Inv(crypto, clients, w)
    ensures OnePlace(Step(crypto, clients, w, e))
  {
    match e
    case StoreCode(pid) => if pid in w.procs { StorePlace(crypto, clients, w, pid); }
    case Consume(pid) => if pid in w.procs { ConsumePlace(w, pid); }
    case Respond(pid) => if pid in w.procs { RespondPlace(w, pid); }
    case _ =>
      OtherPlace(crypto, clients, w, e);
  }

  lemma InvStep(crypto: Crypto, clients: Clients, w: State, e: Event)
    requires Inv(crypto, clients, w)
    ensures Inv(crypto, clients, Step(crypto, clients, w, e))
  {
    CodesStay(crypto, clients, w, e);
    ProcsStay(crypto, clients, w, e);
    AnswersStay(crypto, clients, w, e);
    OnePlaceStays(crypto, clients, w, e);
  }

  lemma {:induction false} InvRun(crypto: Crypto, clients: Clients, w: State, events: seq<Event>)
    requires Inv(crypto, clients, w)
    ensures Inv(crypto, clients, Run(crypto, clients, w, events)) && Evolves(w, Run(crypto, clients, w, events))
    decreases |events|
  {
    if events != [] {
      StepEvolves(crypto, clients, w, events[0]);
      InvStep(crypto, clients, w, events[0]);
      InvRun(crypto, clients, Step(crypto, clients, w, events[0]), events[1..]);
    }
  }

  lemma ReachableInv(crypto: Crypto, clients: Clients, w: State)
    requires Reachable(crypto, clients, w)
    ensures Inv(crypto, clients, w)
  {
    var events :| w == Run(crypto, clients, START, events);
    InvRun(crypto, clients, START, events);
  }

  // ----- Guarantees over every run -----

  /** However the requests interleave, a code is answered at most once. */
  lemma AnsweredAtMostOnce(crypto: Crypto, clients: Clients, w: State, i: nat, j: nat)
    requires Reachable(crypto, clients, w) && i < |w.answers| && j < |w.answers|
    requires w.answers[i].input.code == w.answers[j].input.code
    ensures i == j
  {
    ReachableInv(crypto, clients, w);
  }

  /** Every token response traces back to the one authorize request that minted its code: same
      client, redirect URI and owner, a challenge that the verifier answers, checked within ten
      minutes of it; the owner belongs to the client's tenant; and the scope string lists exactly
      the scopes asked for then, each of them allowed to the client. */
  lemma AnswerHasProvenance(crypto: Crypto, clients: Clients, w: State, a: Answer) returns (m: Mint)
    requires Reachable(crypto, clients, w) && a in w.answers
    ensures a.input.code in w.minted && m == w.minted[a.input.code]
    ensures a.input.clientId in clients && (clients[a.input.clientId].confidential ==>
      a.input.clientSecret != "" && crypto.hash(a.input.clientSecret) == clients[a.input.clientId].secretHash)
    ensures m.request.responseType == "code" && "authorization_code" in clients[a.input.clientId].grantTypes
    ensures m.request.clientId == a.input.clientId && m.request.redirectUri == a.input.redirectUri
    ensures m.request.principal == a.owner && a.owner.tenant == clients[a.input.clientId].tenant
    ensures m.request.challengeMethod == "S256" && m.request.challenge == crypto.s256(a.input.verifier)
    ensures m.at <= a.checkedAt <= m.at + 10 * MINUTE && a.checkedAt <= w.now
    ensures a.input.redirectUri in clients[a.input.clientId].redirectUris
    ensures SplitScopes(a.scope) == SplitScopes(m.request.scope)
    ensures forall s :: s in SplitScopes(a.scope) ==> s in clients[a.input.clientId].scopes
  {
    ReachableInv(crypto, clients, w);
    m := w.minted[a.input.code];
    var i :| 0 <= i < |w.answers| && w.answers[i] == a;
    assert AnswerOk(crypto, clients, w, w.answers[i]);
    GrantedScopeReadsBack(m.request.scope);
  }

  lemma {:induction false} GoneStaysGone(crypto: Crypto, clients: Clients, w: State, events: seq<Event>, id: Id)
    requires id in w.minted && id !in w.codes
    ensures id !in Run(crypto, clients, w, events).codes
    decreases |events|
  {
    if events != [] {
      StepEvolves(crypto, clients, w, events[0]);
      GoneStaysGone(crypto, clients, Step(crypto, clients, w, events[0]), events[1..], id);
    }
  }

  /** An exchange that got past the client check and reaches the store removes the code for good,
      whether or not it goes on to succeed. */
  lemma ExchangeRemovesCode(crypto: Crypto, clients: Clients, w: State, pid: Id, later: seq<Event>)
    requires Reachable(crypto, clients, w) && pid in w.procs && w.procs[pid].Authenticated?
    requires w.procs[pid].input.code in w.minted
    ensures var v := Step(crypto, clients, w, Consume(pid));
      w.procs[pid].input.code !in Run(crypto, clients, v, later).codes
  {
    var v := Step(crypto, clients, w, Consume(pid));
    assert v == ConsumeStep(w, pid);
    GoneStaysGone(crypto, clients, v, later, w.procs[pid].input.code);
  }

  // ----- What gets through -----

  /** An uninterrupted exchange is answered exactly when the client is known, its secret is right if it
      is confidential, the code is in the store and unexpired, and client, redirect URI and the S256 of
      the verifier are those it was issued for. */
  lemma ExchangeAnsweredIff(crypto: Crypto, clients: Clients, w: State, pid: Id, t: TokenInput)
    requires pid !in w.procs
    ensures
      var v := Run(crypto, clients, w, [Authenticate(pid, t), Consume(pid), CheckCode(pid), Respond(pid)]);
      var granted :=
        && t.clientId in clients && (clients[t.clientId].confidential ==>
             t.clientSecret != "" && crypto.hash(t.clientSecret) == clients[t.clientId].secretHash)
        && t.code in w.codes && w.now < w.codes[t.code].expiresAt
        && w.codes[t.code].clientId == t.clientId && w.codes[t.code].redirectUri == t.redirectUri
        && w.codes[t.code].challenge == crypto.s256(t.verifier);
      v.answers == if granted then w.answers + [Answer(t, w.codes[t.code].owner, Join(w.codes[t.code].scopes), w.now)] else w.answers
  {
    hide Run, Step;
    RunFour(crypto, clients, w, Authenticate(pid, t), Consume(pid), CheckCode(pid), Respond(pid));
    CodeTaken(crypto, clients, w, pid, t);
    CodeAnswered(crypto, clients, Step(crypto, clients, Step(crypto, clients, w, Authenticate(pid, t)), Consume(pid)), pid);
  }

  lemma CodeTaken(crypto: Crypto, clients: Clients, w: State, pid: Id, t: TokenInput)
    requires pid !in w.procs
    ensures
      var v := Step(crypto, clients, Step(crypto, clients, w, Authenticate(pid, t)), Consume(pid));
      var client := t.clientId in clients && (clients[t.clientId].confidential ==>
        t.clientSecret != "" && crypto.hash(t.clientSecret) == clients[t.clientId].secretHash);
      && v.now == w.now && v.answers == w.answers
      && (if client && t.code in w.codes && w.now < w.codes[t.code].expiresAt
          then pid in v.procs && v.procs[pid] == Holding(t, w.codes[t.code]) else pid !in v.procs)
  {
  }

  lemma CodeAnswered(crypto: Crypto, clients: Clients, w: State, pid: Id)
    requires pid in w.procs ==> w.procs[pid].Holding?
    ensures
      var v := Step(crypto, clients, Step(crypto, clients, w, CheckCode(pid)), Respond(pid));
      v.answers == if pid in w.procs && w.now <= w.procs[pid].code.expiresAt
          && w.procs[pid].code.clientId == w.procs[pid].input.clientId && w.procs[pid].code.redirectUri == w.procs[pid].input.redirectUri
          && w.procs[pid].code.challenge == crypto.s256(w.procs[pid].input.verifier)
        then w.answers + [Answer(w.procs[pid].input, w.procs[pid].code.owner, Join(w.procs[pid].code.scopes), w.now)] else w.answers
  {
  }

  lemma RunFour(crypto: Crypto, clients: Clients, w: State, a: Event, b: Event, c: Event, d: Event)
    ensures Run(crypto, clients, w, [a, b, c, d]) ==
      Step(crypto, clients, Step(crypto, clients, Step(crypto, clients, Step(crypto, clients, w, a), b), c), d)
  {
    hide Step;
    var all := [a, b, c, d];
    assert all[1..] == [b, c, d] && [b, c, d][1..] == [c, d] && [c, d][1..] == [d] && [d][1..] == [];
    var u := Step(crypto, clients, Step(crypto, clients, w, a), b);
    assert Run(crypto, clients, w, all) == Run(crypto, clients, Step(crypto, clients, w, a), [b, c, d]) == Run(crypto, clients, u, [c, d]);
    assert Run(crypto, clients, u, [c, d]) == Run(crypto, clients, Step(crypto, clients, u, c), [d]);
  }

  /** An uninterrupted authorize request stores its code exactly when everything it asks for is in
      order; the code is what was asked for, for ten minutes. */
  lemma AuthorizeStoresIff(crypto: Crypto, clients: Clients, w: State, pid: Id, id: Id, a: AuthorizeInput)
    requires pid !in w.procs && id !in w.minted && id !in w.codes
    ensures
      var v := Step(crypto, clients, Step(crypto, clients, w, Authorize(pid, id, a)), StoreCode(pid));
      var granted :=
        && a.responseType == "code" && a.challenge != "" && a.challengeMethod == "S256" && a.clientId in clients
        && a.redirectUri in clients[a.clientId].redirectUris && "authorization_code" in clients[a.clientId].grantTypes
        && (forall s :: s in SplitScopes(a.scope) ==> s in clients[a.clientId].scopes)
        && clients[a.clientId].tenant == a.principal.tenant;
      v.codes == if granted then w.codes[id := Code(a.clientId, a.principal, SplitScopes(a.scope), a.redirectUri, a.challenge,
                                                    a.nonce, w.now + 10 * MINUTE)] else w.codes
  {
  }
}
