// Issuers and rotators running at once. Issuing reads the active key, later
// reads the clock and signs; a rotator deactivates every key and later inserts
// its own. `delay` bounds the time from reading the key to stamping the token.

module KeyProtocol {
  import opened Clock
  import opened Types
  import opened Keys

  /** A signed token: the key id in its header and its validity period. */
  datatype Signed = Signed(kid: Id, notBefore: Time, expires: Time)

  datatype Proc =
    | Generated(kid: Id, key: Key)
    | Deactivated(kid: Id, key: Key)
    | HoldsKey(kid: Id, at: Time)

  datatype State = State(now: Time, keys: Table, tokens: set<Signed>, procs: map<Id, Proc>,
                         insertedSince: set<Id>)  // history: keys inserted since the last deactivation

  const START := State(0, map[], {}, map[], {})

  datatype Event =
    | Tick(dt: nat)
    | Abort(pid: Id)
    | Generate(pid: Id, kid: Id, algorithm: string)
    | Deactivate(pid: Id)
    | Insert(pid: Id)
    | ReadActive(pid: Id, kid: Id)
    | Sign(pid: Id)

  function Done(w: State, pid: Id): State {
    w.(procs := map p | p in w.procs && p != pid :: w.procs[p])
  }

  function Step(delay: nat, w: State, e: Event): State {
    match e
    case Tick(dt) => w.(now := w.now + dt)
    case Abort(pid) => Done(w, pid)
    case Generate(pid, kid, algorithm) =>
      if pid in w.procs then w else w.(procs := w.procs[pid := Generated(kid, NewKey(algorithm, w.now))])
    case Deactivate(pid) =>
      if pid in w.procs && w.procs[pid].Generated? then
        w.(keys := DeactivateAll(w.keys, w.now), insertedSince := {},
           procs := w.procs[pid := Deactivated(w.procs[pid].kid, w.procs[pid].key)])
      else w
    case Insert(pid) =>
      if pid in w.procs && w.procs[pid].Deactivated? then
        var kid := w.procs[pid].kid;
        if kid in w.keys then Done(w, pid)
        else Done(w, pid).(keys := w.keys[kid := w.procs[pid].key], insertedSince := w.insertedSince + {kid})
      else w
    case ReadActive(pid, kid) =>
      if pid !in w.procs && NewestActive(w.keys, kid) then
        w.(procs := w.procs[pid := HoldsKey(kid, w.now)])
      else w
    case Sign(pid) =>
      if pid in w.procs && w.procs[pid].HoldsKey? && w.now <= w.procs[pid].at + delay then
        Done(w, pid).(tokens := w.tokens +
          {Signed(w.procs[pid].kid, NumericDate(w.now), NumericDate(w.now + ACCESS_TOKEN_TTL))})
      else w
  }

  function Run(delay: nat, w: State, events: seq<Event>): State
    decreases |events|
  {
    if events == [] then w else Run(delay, Step(delay, w, events[0]), events[1..])
  }

  ghost predicate Reachable(delay: nat, w: State) {
    exists events :: w == Run(delay, START, events)
  }

  /** Rows are never removed, rotation times never change, and a new one is the current time. */
  ghost predicate Evolves(w: State, v: State) {
    && w.now <= v.now
    && (forall k :: k in w.keys ==> k in v.keys)
    && (forall k :: k in w.keys && w.keys[k].rotatedAt.Some? ==> v.keys[k] == w.keys[k])
    && (forall k :: k in w.keys && w.keys[k].rotatedAt.None? && v.keys[k].rotatedAt.Some? ==>
          w.now <= v.keys[k].rotatedAt.value)
  }

  ghost predicate KeysOk(w: State) {
    && (forall k :: k in w.keys ==> (w.keys[k].active <==> w.keys[k].rotatedAt.None?))
    && (forall k :: k in w.keys && w.keys[k].rotatedAt.Some? ==> w.keys[k].rotatedAt.value <= w.now)
    && (forall k :: k in w.insertedSince <==> k in w.keys && w.keys[k].active)
  }

  /** Not rotated before time `at`. */
  ghost predicate ActiveAt(w: State, kid: Id, at: Time) {
    kid in w.keys && at <= w.now && (w.keys[kid].rotatedAt.Some? ==> at <= w.keys[kid].rotatedAt.value)
  }

  ghost predicate ProcOk(w: State, p: Proc) {
    match p
    case Generated(_, key) => key.active && key.rotatedAt.None?
    case Deactivated(_, key) => key.active && key.rotatedAt.None?
    case HoldsKey(kid, at) => ActiveAt(w, kid, at)
  }

  ghost predicate TokenOk(delay: nat, w: State, t: Signed) {
    ActiveAt(w, t.kid, t.expires - ACCESS_TOKEN_TTL - delay)
  }

  ghost predicate ProcsOk(w: State) {
    forall pid :: pid in w.procs ==> ProcOk(w, w.procs[pid])
  }

  ghost predicate TokensOk(delay: nat, w: State) {
    forall t :: t in w.tokens ==> TokenOk(delay, w, t)
  }

  ghost predicate Inv(delay: nat, w: State) {
    KeysOk(w) && ProcsOk(w) && TokensOk(delay, w)
  }

  lemma StepEvolves(delay: nat, w: State, e: Event)
    requires KeysOk(w) && ProcsOk(w)
    ensures Evolves(w, Step(delay, w, e)) && KeysOk(Step(delay, w, e))
  {
    if e.Insert? && e.pid in w.procs {
      assert ProcOk(w, w.procs[e.pid]);
    }
  }

  lemma ActiveAtStays(w: State, v: State, kid: Id, at: Time)
    requires Evolves(w, v) && ActiveAt(w, kid, at)
    ensures ActiveAt(v, kid, at)
  {
  }

  lemma InvStep(delay: nat, w: State, e: Event)
    requires Inv(delay, w)
    ensures Inv(delay, Step(delay, w, e))
  {
    var v := Step(delay, w, e);
    StepEvolves(delay, w, e);
    forall pid | pid in v.procs ensures ProcOk(v, v.procs[pid]) {
      if pid in w.procs {
        assert ProcOk(w, w.procs[pid]);
        if w.procs[pid].HoldsKey? {
          ActiveAtStays(w, v, w.procs[pid].kid, w.procs[pid].at);
        }
      }
    }
    forall t | t in v.tokens ensures TokenOk(delay, v, t) {
      if t in w.tokens {
        ActiveAtStays(w, v, t.kid, t.expires - ACCESS_TOKEN_TTL - delay);
      } else {
        assert ProcOk(w, w.procs[e.pid]);
      }
    }
  }

  lemma {:induction false} InvRun(delay: nat, w: State, events: seq<Event>)
    requires Inv(delay, w)
    ensures Inv(delay, Run(delay, w, events)) && Evolves(w, Run(delay, w, events))
    decreases |events|
  {
    if events != [] {
      StepEvolves(delay, w, events[0]);
      InvStep(delay, w, events[0]);
      InvRun(delay, Step(delay, w, events[0]), events[1..]);
    }
  }

  lemma ReachableInv(delay: nat, w: State)
    requires Reachable(delay, w)
    ensures Inv(delay, w)
  {
    var events :| w == Run(delay, START, events);
    InvRun(delay, START, events);
  }

  predicate Unexpired(t: Signed, now: Time) {
    t.notBefore <= now < t.expires
  }

  function PublishedKeys(w: State): set<Id> {
    set k | k in w.keys && Published(w.keys[k], w.now)
  }

  /** However many rotators and issuers interleave, the key of every unexpired token is still
      published, and is still in the table for the server's own verification. */
  lemma UnexpiredTokensArePublished(delay: nat, w: State, t: Signed)
    requires delay + ACCESS_TOKEN_TTL <= PUBLICATION_WINDOW
    requires Reachable(delay, w) && t in w.tokens && Unexpired(t, w.now)
    ensures t.kid in w.keys && (w.keys[t.kid].rotatedAt.None? || w.now - 7 * DAY < w.keys[t.kid].rotatedAt.value)
  {
    ReachableInv(delay, w);
    assert TokenOk(delay, w, t);
  }

  /** A client may go on using a key document it fetched in an earlier state. It finds the key of
      an unexpired token there exactly when that key had been inserted by the time of the fetch,
      however old the document is. */
  lemma StaleDocumentFindsKeyIff(delay: nat, w: State, later: seq<Event>, t: Signed)
    requires delay + ACCESS_TOKEN_TTL <= PUBLICATION_WINDOW
    requires Reachable(delay, w)
    requires var v := Run(delay, w, later); t in v.tokens && Unexpired(t, v.now)
    ensures
      t.kid in w.keys ==> w.keys[t.kid].rotatedAt.None? || w.now - 7 * DAY < w.keys[t.kid].rotatedAt.value
    ensures t.kid in PublishedKeys(w) <==> t.kid in w.keys
  {
    ReachableInv(delay, w);
    InvRun(delay, w, later);
    assert TokenOk(delay, Run(delay, w, later), t);
  }

  /** With rotators overlapping, the active keys are those inserted since the last deactivation;
      so there is at most one exactly when at most one rotator got its insert in since then. */
  lemma ActiveKeysAreThoseSinceDeactivation(delay: nat, w: State)
    requires Reachable(delay, w)
    ensures ActiveIffNotRotated(w.keys)
    ensures forall k :: k in w.keys && w.keys[k].active <==> k in w.insertedSince
    ensures AtMostOneActive(w.keys) <==> |w.insertedSince| <= 1
  {
    ReachableInv(delay, w);
    AtMostOneMember(w.insertedSince);
  }

  /** What a rotator could look at before its insert: the insert leaves one active key exactly
      when at that moment there is none. */
  lemma InsertLeavesOneIff(delay: nat, w: State, pid: Id)
    requires Reachable(delay, w) && pid in w.procs && w.procs[pid].Deactivated? && w.procs[pid].kid !in w.keys
    ensures AtMostOneActive(Step(delay, w, Insert(pid)).keys) <==> forall k :: k in w.keys ==> !w.keys[k].active
  {
    ReachableInv(delay, w);
    assert ProcOk(w, w.procs[pid]);
    var v := Step(delay, w, Insert(pid));
    assert v.keys == w.keys[w.procs[pid].kid := w.procs[pid].key] && v.keys[w.procs[pid].kid].active;
    if k :| k in w.keys && w.keys[k].active {
      assert v.keys[k].active && k != w.procs[pid].kid;
    }
  }

  lemma AtMostOneMember(s: set<Id>)
    ensures |s| <= 1 <==> forall j, k :: j in s && k in s ==> j == k
  {
    if s != {} {
      var j :| j in s;
      assert |s| == |s - {j}| + 1;
      assert forall k :: k in s && k != j ==> k in s - {j};
    }
  }

  lemma BothDeactivate(delay: nat, w: State, p: Id, q: Id)
    requires w.keys == map[] && p != q && p in w.procs && q in w.procs
    requires w.procs[p].Generated? && w.procs[q].Generated?
    ensures var v := Step(delay, Step(delay, w, Deactivate(p)), Deactivate(q));
      && v.keys == map[] && p in v.procs && q in v.procs
      && v.procs[p] == Deactivated(w.procs[p].kid, w.procs[p].key)
      && v.procs[q] == Deactivated(w.procs[q].kid, w.procs[q].key)
  {
  }

  lemma BothInsert(delay: nat, w: State, p: Id, q: Id)
    requires w.keys == map[] && p != q && p in w.procs && q in w.procs
    requires w.procs[p].Deactivated? && w.procs[q].Deactivated? && w.procs[p].kid != w.procs[q].kid
    ensures Step(delay, Step(delay, w, Insert(p)), Insert(q)).keys ==
      map[w.procs[p].kid := w.procs[p].key, w.procs[q].kid := w.procs[q].key]
  {
  }

  lemma BothGenerate(delay: nat)
    ensures var v := Step(delay, Step(delay, START, Generate(1, 1, "ES256")), Generate(2, 2, "ES256"));
      && v.keys == map[] && 1 in v.procs && 2 in v.procs
      && v.procs[1] == Generated(1, NewKey("ES256", 0)) && v.procs[2] == Generated(2, NewKey("ES256", 0))
  {
  }

  /** Two rotators that both deactivate before either inserts do leave two active keys. */
  lemma OverlappingRotatorsLeaveTwo(delay: nat)
    ensures exists w :: Reachable(delay, w) && !AtMostOneActive(w.keys)
  {
    hide Step, Run;
    var w1 := Step(delay, Step(delay, START, Generate(1, 1, "ES256")), Generate(2, 2, "ES256"));
    var w2 := Step(delay, Step(delay, w1, Deactivate(1)), Deactivate(2));
    var w3 := Step(delay, Step(delay, w2, Insert(1)), Insert(2));
    BothGenerate(delay);
    BothDeactivate(delay, w1, 1, 2);
    BothInsert(delay, w2, 1, 2);
    StartReachable(delay);
    TwoSteps(delay, START, Generate(1, 1, "ES256"), Generate(2, 2, "ES256"));
    TwoSteps(delay, w1, Deactivate(1), Deactivate(2));
    TwoSteps(delay, w2, Insert(1), Insert(2));
    assert w3.keys[1].active && w3.keys[2].active;
  }

  lemma StartReachable(delay: nat)
    ensures Reachable(delay, START)
  {
    assert Run(delay, START, []) == START;
  }

  lemma TwoSteps(delay: nat, w: State, a: Event, b: Event)
    requires Reachable(delay, w)
    ensures Reachable(delay, Step(delay, Step(delay, w, a), b))
  {
    hide Step;
    var events :| w == Run(delay, START, events);
    RunMore(delay, START, events, a);
    RunMore(delay, START, events + [a], b);
  }

  lemma {:induction false} RunMore(delay: nat, w: State, events: seq<Event>, e: Event)
    ensures Run(delay, w, events + [e]) == Step(delay, Run(delay, w, events), e)
    decreases |events|
  {
    hide Step;
    var all := events + [e];
    if events != [] {
      assert all[0] == events[0] && all[1..] == events[1..] + [e];
      RunMore(delay, Step(delay, w, events[0]), events[1..], e);
    } else {
      assert all[0] == e && all[1..] == [];
    }
  }

  /** An issuer that reads a newest active key and stamps in time signs under it, for fifteen minutes. */
  lemma IssuerSigns(delay: nat, w: State, pid: Id, kid: Id, dt: nat)
    requires pid !in w.procs && kid in w.keys && w.keys[kid].active && dt <= delay
    requires forall k :: k in w.keys && w.keys[k].active ==> w.keys[k].createdAt <= w.keys[kid].createdAt
    ensures
      var v := Step(delay, Step(delay, Step(delay, w, ReadActive(pid, kid)), Tick(dt)), Sign(pid));
      v.tokens == w.tokens + {Signed(kid, NumericDate(w.now + dt), NumericDate(w.now + dt + 15 * MINUTE))}
  {
  }
}
