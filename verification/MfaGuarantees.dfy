// What every interleaved run of logins, completions and enrollments guarantees:
// the steps behind every session, and exactly when a password alone can still
// open one.

module MfaGuarantees {
  import opened Clock
  import opened Types
  import Requests
  import opened MfaProtocol

  /** However completions and logins interleave, a challenge opens at most one session. */
  lemma ChallengeOpensOneSession(w: State, a: Id, b: Id, c: Id)
    requires Reachable(w) && a in w.openings && b in w.openings
    requires Spent(w.openings[a], c) && Spent(w.openings[b], c)
    ensures a == b
  {
    ReachableInv(w);
  }

  /** Some factor of the identity is verified. */
  predicate Enrolled(factors: Factors, identity: Id) {
    exists f :: f in factors && factors[f].identity == identity && factors[f].verified
  }

  // ----- The steps behind a session -----

  /** The state before event `i`. */
  function At(events: seq<Event>, i: nat): State
    requires i <= |events|
  {
    Run(START, events[..i])
  }

  lemma {:induction false} RunMore(w: State, events: seq<Event>, e: Event)
    ensures Run(w, events + [e]) == Step(Run(w, events), e)
    decreases |events|
  {
    hide Step;
    var all := events + [e];
    if events != [] {
      assert all[0] == events[0] && all[1..] == events[1..] + [e];
      RunMore(Step(w, events[0]), events[1..], e);
    } else {
      assert all[1..] == [];
    }
  }

  lemma NextState(events: seq<Event>, i: nat)
    requires i < |events|
    ensures At(events, i + 1) == Step(At(events, i), events[i])
  {
    hide Step, Run;
    assert events[..i + 1] == events[..i] + [events[i]];
    RunMore(START, events[..i], events[i]);
  }

  /** Event `i` brings the request to `p`, and it is still there before event `j`. */
  ghost predicate Waits(events: seq<Event>, i: nat, j: nat, pid: Id, p: Proc) {
    i < j <= |events| && ComesTo(At(events, i), events[i], pid, p) && forall m :: i < m <= j ==> Is(At(events, m), pid, p)
  }

  lemma {:induction false} Arrived(events: seq<Event>, j: nat, pid: Id, p: Proc) returns (i: nat)
    requires j <= |events| && Is(At(events, j), pid, p)
    ensures Waits(events, i, j, pid, p)
    decreases j
  {
    hide Step, Run, ComesTo;
    if j == 0 {
      NothingAtStart(events);
    } else {
      NextState(events, j - 1);
      if Is(At(events, j - 1), pid, p) {
        i := Arrived(events, j - 1, pid, p);
      } else {
        i := j - 1;
        Arrives(At(events, i), events[i], pid);
      }
    }
  }

  lemma NothingAtStart(events: seq<Event>)
    ensures At(events, 0) == START
  {
  }

  lemma {:induction false} Opened(events: seq<Event>, j: nat, id: Id) returns (i: nat)
    requires j <= |events| && id in At(events, j).openings
    ensures i < j && events[i].Insert? && events[i].id == id && id !in At(events, i).openings
    ensures events[i].pid in At(events, i).procs
    ensures match At(events, i).procs[events[i].pid]
      case Ungated(owner) => At(events, j).openings[id] == Opening(owner, Alone)
      case Fitting(c, challenge) => At(events, j).openings[id] == Opening(challenge.owner, Confirmed(c))
      case _ => false
    decreases j
  {
    hide Step, Run;
    if j == 0 {
      NothingAtStart(events);
    } else {
      NextState(events, j - 1);
      OpeningsChange(At(events, j - 1), events[j - 1], id);
      if id in At(events, j - 1).openings && At(events, j).openings[id] == At(events, j - 1).openings[id] {
        i := Opened(events, j - 1, id);
      } else {
        i := j - 1;
      }
    }
  }

  /** Event `i` stores the challenge, which is there, unchanged, until event `j`. */
  ghost predicate Kept(events: seq<Event>, i: nat, j: nat, pid: Id, c: Id, challenge: Requests.Challenge) {
    && i < j <= |events| && events[i] == StoreChallenge(pid, c) && Is(At(events, i), pid, Storing(challenge))
    && forall m :: i < m <= j ==> Stores(At(events, m), c, Expiring(challenge, At(events, i).now + CHALLENGE_TTL))
  }

  predicate Stores(w: State, c: Id, entry: Expiring<Requests.Challenge>) {
    c in w.challenges && w.challenges[c] == entry
  }

  lemma {:induction false} Stored(events: seq<Event>, j: nat, c: Id) returns (i: nat)
    requires j <= |events| && c in At(events, j).challenges
    ensures i < j && events[i].StoreChallenge? && Kept(events, i, j, events[i].pid, c, At(events, j).challenges[c].value)
    ensures At(events, j).challenges[c].deadline == At(events, i).now + CHALLENGE_TTL
    decreases j
  {
    hide Step, Run;
    if j == 0 {
      NothingAtStart(events);
    } else {
      NextState(events, j - 1);
      StoreChanges(At(events, j - 1), events[j - 1], c);
      if c in At(events, j - 1).challenges && At(events, j).challenges[c] == At(events, j - 1).challenges[c] {
        i := Stored(events, j - 1, c);
      } else {
        i := j - 1;
      }
    }
  }

  /** One login, up to its read of the factors: at which events it was recognised, read the policy
      and read the factors. */
  datatype Login = Login(pid: Id, owner: Owner, device: Device, required: bool, recognise: nat, policy: nat, gate: nat)

  /** The three events are this request's own, each in the state the one before it left the request
      in; what it took the policy to be is what the policy was when it read it. */
  ghost predicate LogsIn(events: seq<Event>, l: Login) {
    && l.recognise < l.policy < l.gate < |events|
    && events[l.recognise] == Recognise(l.pid, l.owner, l.device)
    && Waits(events, l.recognise, l.policy, l.pid, Recognised(l.owner, l.device))
    && events[l.policy] == ReadPolicy(l.pid)
    && (l.required <==> l.owner.tenant in At(events, l.policy).requireMfa)
    && Waits(events, l.policy, l.gate, l.pid, Policed(l.owner, l.device, l.required))
    && events[l.gate] == ReadFactors(l.pid)
  }

  /** The login read a policy that required no second factor, then factors none of which was verified,
      and then inserted session `id`, at event `k`. */
  ghost predicate PassedGate(events: seq<Event>, l: Login, k: nat, id: Id) {
    && LogsIn(events, l) && !l.required
    && !Enrolled(At(events, l.gate).factors, l.owner.identity)
    && Waits(events, l.gate, k, l.pid, Ungated(l.owner))
    && k < |events| && events[k] == Insert(l.pid, id) && id !in At(events, k).openings
  }

  /** A login that was challenged: at which events it stamped and stored its challenge. */
  datatype Challenging = Challenging(login: Login, stamp: nat, store: nat)

  ghost predicate Challenges(events: seq<Event>, h: Challenging, c: Id, challenge: Requests.Challenge) {
    && LogsIn(events, h.login) && challenge.owner == h.login.owner && challenge.device == h.login.device
    && Enrolled(At(events, h.login.gate).factors, challenge.owner.identity)
    && Waits(events, h.login.gate, h.stamp, h.login.pid, Gated(challenge.owner, challenge.device))
    && h.stamp < |events| && events[h.stamp] == StampChallenge(h.login.pid)
    && challenge.expiresAt == At(events, h.stamp).now + CHALLENGE_TTL
    && Waits(events, h.stamp, h.store, h.login.pid, Storing(challenge))
    && h.store < |events| && events[h.store] == StoreChallenge(h.login.pid, c)
  }

  /** One completion: at which events it took the challenge, looked at its time, and checked the code. */
  datatype Completion = Completion(pid: Id, consume: nat, time: nat, code: nat, valid: set<Id>)

  /** The completion took the challenge while its key lived, looked at it before it expired, checked a
      code that fits a factor verified at that moment, and then inserted session `id`, at event `k`. */
  ghost predicate Completes(events: seq<Event>, q: Completion, c: Id, challenge: Requests.Challenge, k: nat, id: Id) {
    && q.consume < q.time < q.code < k < |events|
    && events[q.consume] == Consume(q.pid, c)
    && Waits(events, q.consume, q.time, q.pid, Holding(c, challenge))
    && events[q.time] == CheckTime(q.pid) && At(events, q.time).now <= challenge.expiresAt
    && Waits(events, q.time, q.code, q.pid, Timely(c, challenge))
    && events[q.code] == CheckCode(q.pid, q.valid)
    && (var factors := At(events, q.code).factors;
        exists f :: f in factors && factors[f].identity == challenge.owner.identity && factors[f].verified
                      && factors[f].factorType == "totp" && factors[f].secret in q.valid)
    && Waits(events, q.code, k, q.pid, Fitting(c, challenge))
    && events[k] == Insert(q.pid, id) && id !in At(events, k).openings
  }

  /** A login of the owner was challenged, the challenge lay in the store until a completion took it
      before its key expired, and that completion opened session `id`. */
  ghost predicate GaveTwoFactors(events: seq<Event>, h: Challenging, q: Completion, c: Id, challenge: Requests.Challenge,
                                 k: nat, id: Id) {
    && Challenges(events, h, c, challenge) && Completes(events, q, c, challenge, k, id)
    && Kept(events, h.store, q.consume, h.login.pid, c, challenge)
    && At(events, q.consume).now < At(events, h.store).now + CHALLENGE_TTL
  }

  lemma LoginTraced(events: seq<Event>, gate: nat, pid: Id, p: Proc) returns (l: Login)
    requires gate < |events| && events[gate] == ReadFactors(pid) && Is(At(events, gate), pid, p) && p.Policed?
    ensures LogsIn(events, l) && l.pid == pid && l.gate == gate
    ensures l.owner == p.owner && l.device == p.device && l.required == p.required
  {
    hide Run;
    var policy := Arrived(events, gate, pid, p);
    var recognise := Arrived(events, policy, pid, Recognised(p.owner, p.device));
    l := Login(pid, p.owner, p.device, p.required, recognise, policy, gate);
  }

  lemma AloneTraced(events: seq<Event>, k: nat, id: Id, owner: Owner) returns (l: Login)
    requires k < |events| && events[k].Insert? && events[k].id == id && id !in At(events, k).openings
    requires Is(At(events, k), events[k].pid, Ungated(owner))
    ensures PassedGate(events, l, k, id) && l.owner == owner
  {
    hide Run;
    var pid := events[k].pid;
    var gate := Arrived(events, k, pid, Ungated(owner));
    l := LoginTraced(events, gate, pid, At(events, gate).procs[pid]);
  }

  lemma ChallengeTraced(events: seq<Event>, store: nat, pid: Id, c: Id, challenge: Requests.Challenge) returns (h: Challenging)
    requires store < |events| && events[store] == StoreChallenge(pid, c) && Is(At(events, store), pid, Storing(challenge))
    ensures Challenges(events, h, c, challenge) && h.store == store && h.login.pid == pid
  {
    hide Run;
    var stamp := Arrived(events, store, pid, Storing(challenge));
    var gate := Arrived(events, stamp, pid, Gated(challenge.owner, challenge.device));
    var l := LoginTraced(events, gate, pid, At(events, gate).procs[pid]);
    h := Challenging(l, stamp, store);
  }

  lemma CompletionTraced(events: seq<Event>, k: nat, id: Id, c: Id, challenge: Requests.Challenge) returns (q: Completion)
    requires k < |events| && events[k].Insert? && events[k].id == id && id !in At(events, k).openings
    requires Is(At(events, k), events[k].pid, Fitting(c, challenge))
    ensures Completes(events, q, c, challenge, k, id)
  {
    hide Run;
    var pid := events[k].pid;
    var code := Arrived(events, k, pid, Fitting(c, challenge));
    var time := Arrived(events, code, pid, Timely(c, challenge));
    var consume := Arrived(events, time, pid, Holding(c, challenge));
    q := Completion(pid, consume, time, code, events[code].valid);
  }

  lemma ConfirmedTraced(events: seq<Event>, k: nat, id: Id, c: Id, challenge: Requests.Challenge)
    returns (h: Challenging, q: Completion)
    requires k < |events| && events[k].Insert? && events[k].id == id && id !in At(events, k).openings
    requires Is(At(events, k), events[k].pid, Fitting(c, challenge))
    ensures GaveTwoFactors(events, h, q, c, challenge, k, id)
  {
    hide Run, Challenges;
    q := CompletionTraced(events, k, id, c, challenge);
    var store := Stored(events, q.consume, c);
    h := ChallengeTraced(events, store, events[store].pid, c, challenge);
  }

  /** Every session traces back, event by event, to its own requests and to what the policy and the
      factors were at the moment those requests read them, whatever happened between. */
  lemma SessionsAreGated(events: seq<Event>, id: Id)
    requires id in Run(START, events).openings
    ensures var o := Run(START, events).openings[id];
      match o.how
      case Alone => exists l, k :: PassedGate(events, l, k, id) && l.owner == o.owner
      case Confirmed(c) => exists h, q, challenge, k ::
        GaveTwoFactors(events, h, q, c, challenge, k, id) && challenge.owner == o.owner
  {
    hide Run, PassedGate, GaveTwoFactors;
    assert events[..|events|] == events;
    var k := Opened(events, |events|, id);
    match At(events, k).procs[events[k].pid] {
      case Ungated(owner) =>
        var l := AloneTraced(events, k, id, owner);
      case Fitting(c, challenge) =>
        var h, q := ConfirmedTraced(events, k, id, c, challenge);
    }
  }

  lemma {:induction false} OpeningKept(events: seq<Event>, i: nat, j: nat, id: Id)
    requires i <= j <= |events| && id in At(events, i).openings
    ensures id in At(events, j).openings && At(events, j).openings[id] == At(events, i).openings[id]
    decreases j
  {
    hide Step, Run;
    if i < j {
      OpeningKept(events, i, j - 1, id);
      NextState(events, j - 1);
      OpeningStays(At(events, j - 1), events[j - 1], id);
    }
  }

  lemma InsertOpens(w: State, pid: Id, id: Id)
    requires pid in w.procs && id !in w.openings
    ensures var v := Step(w, Insert(pid, id));
      match w.procs[pid]
      case Ungated(owner) => id in v.openings && v.openings[id] == Opening(owner, Alone)
      case Fitting(c, challenge) => id in v.openings && v.openings[id] == Opening(challenge.owner, Confirmed(c))
      case _ => true
  {
    hide OnlyMoves, Ends;
  }

  /** And such steps do open the session, for good. */
  lemma GatesOpen(events: seq<Event>, k: nat, id: Id)
    ensures forall l :: PassedGate(events, l, k, id) ==>
      var w := Run(START, events); id in w.openings && w.openings[id] == Opening(l.owner, Alone)
    ensures forall h, q, c, challenge :: GaveTwoFactors(events, h, q, c, challenge, k, id) ==>
      var w := Run(START, events); id in w.openings && w.openings[id] == Opening(challenge.owner, Confirmed(c))
  {
    hide Run, Step, LogsIn, Challenges, Kept, ComesTo, Requests.HasVerifiedFactor, Requests.TotpAccepts;
    assert events[..|events|] == events;
    if k < |events| && events[k].Insert? && events[k].id == id && events[k].pid in At(events, k).procs && id !in At(events, k).openings {
      InsertOpens(At(events, k), events[k].pid, id);
      NextState(events, k);
      if id in At(events, k + 1).openings {
        OpeningKept(events, k + 1, |events|, id);
      }
    }
  }

  // ----- One guess -----

  lemma {:induction false} GoneStaysGone(w: State, events: seq<Event>, c: Id)
    requires c in w.handed && c !in w.challenges
    ensures c !in Run(w, events).challenges
    decreases |events|
  {
    hide Step;
    if events != [] {
      StoreOnlyNew(w, events[0], c);
      HandedGrows(w, events[0]);
      GoneStaysGone(Step(w, events[0]), events[1..], c);
    }
  }

  lemma StoreOnlyNew(w: State, e: Event, c: Id)
    requires c in w.handed && c !in w.challenges
    ensures c !in Step(w, e).challenges
  {
    hide Step;
    if c in Step(w, e).challenges {
      StoreChanges(w, e, c);
    }
  }

  /** A completion that reaches the store removes the challenge for good. */
  lemma ConsumeRemovesChallenge(w: State, pid: Id, c: Id, later: seq<Event>)
    requires Reachable(w) && pid !in w.procs && c in w.challenges && w.now < w.challenges[c].deadline
    ensures var v := Step(w, Consume(pid, c));
      v.procs == w.procs[pid := Holding(c, w.challenges[c].value)] && c !in Run(v, later).challenges
  {
    hide Run;
    ReachableInv(w);
    GoneStaysGone(Step(w, Consume(pid, c)), later, c);
  }

  /** Event `i` checks a code against this challenge. */
  ghost predicate Guesses(events: seq<Event>, i: nat, c: Id) {
    && i < |events| && events[i].CheckCode? && events[i].pid in At(events, i).procs
    && At(events, i).procs[events[i].pid].Timely? && At(events, i).procs[events[i].pid].c == c
  }

  /** Nobody can check a code against this challenge any more. */
  ghost predicate NoGuessLeft(w: State, c: Id) {
    && c in w.handed && c !in w.challenges
    && forall pid :: pid in w.procs ==> !Awaits(w.procs[pid], c)
  }

  predicate Awaits(p: Proc, c: Id) {
    (p.Holding? || p.Timely?) && p.c == c
  }

  lemma GuessIsLast(w: State, pid: Id, valid: set<Id>, c: Id)
    requires Inv(w) && pid in w.procs && w.procs[pid].Timely? && w.procs[pid].c == c
    ensures NoGuessLeft(Step(w, CheckCode(pid, valid)), c)
  {
    var v := Step(w, CheckCode(pid, valid));
    forall p | p in v.procs ensures !Awaits(v.procs[p], c) {
      assert Holds(w.procs[pid], c);
      assert p in w.procs && Holds(w.procs[p], c) ==> p == pid;
    }
  }

  lemma NoGuessStays(w: State, e: Event, c: Id)
    requires NoGuessLeft(w, c)
    ensures NoGuessLeft(Step(w, e), c)
  {
    hide Step;
    var v := Step(w, e);
    StoreOnlyNew(w, e, c);
    HandedGrows(w, e);
    forall pid | pid in v.procs ensures !Awaits(v.procs[pid], c) {
      if !Is(w, pid, v.procs[pid]) {
        Arrives(w, e, pid);
      }
    }
  }

  lemma {:induction false} NoGuessLater(events: seq<Event>, i: nat, j: nat, c: Id)
    requires i <= j <= |events| && NoGuessLeft(At(events, i), c)
    ensures NoGuessLeft(At(events, j), c)
    decreases j
  {
    hide Step, Run, NoGuessLeft;
    if i < j {
      NoGuessLater(events, i, j - 1, c);
      NextState(events, j - 1);
      NoGuessStays(At(events, j - 1), events[j - 1], c);
    }
  }

  /** A challenge allows one guess at the code, right or wrong: no run checks two. */
  lemma OneGuess(events: seq<Event>, i: nat, j: nat, c: Id)
    requires Guesses(events, i, c) && Guesses(events, j, c)
    ensures i == j
  {
    hide Step, Run, NoGuessLeft;
    if i != j {
      var first, second := if i < j then i else j, if i < j then j else i;
      InvRun(START, events[..first]);
      GuessIsLast(At(events, first), events[first].pid, events[first].valid, c);
      NextState(events, first);
      NoGuessLater(events, first + 1, second, c);
      StillAwaited(At(events, second), events[second].pid, c);
    }
  }

  lemma StillAwaited(w: State, pid: Id, c: Id)
    requires pid in w.procs && Awaits(w.procs[pid], c)
    ensures !NoGuessLeft(w, c)
  {
  }

  // ----- Once a factor is verified -----

  /** A login under way has read the factors when none of this identity was verified. */
  ghost predicate PastTheGate(w: State, identity: Id) {
    exists pid :: pid in w.procs && w.procs[pid].Ungated? && w.procs[pid].owner.identity == identity
  }

  /** A session of this identity that a password alone opened and that was not there in `w`. */
  ghost predicate NewAlone(w: State, v: State, identity: Id, id: Id) {
    id in v.openings && id !in w.openings && v.openings[id].how.Alone? && v.openings[id].owner.identity == identity
  }

  ghost predicate AloneAfter(w: State, events: seq<Event>, identity: Id) {
    (forall e :: e in events ==> !e.Unenroll?) && exists id :: NewAlone(w, Run(w, events), identity, id)
  }

  /** Some continuation in which no factor is removed opens such a session. Policies may change in it. */
  ghost predicate PasswordCanSuffice(w: State, identity: Id) {
    exists events :: AloneAfter(w, events, identity)
  }

  lemma FactorStays(w: State, e: Event, identity: Id)
    requires Enrolled(w.factors, identity) && !e.Unenroll?
    ensures Enrolled(Step(w, e).factors, identity)
  {
    var f :| f in w.factors && w.factors[f].identity == identity && w.factors[f].verified;
    FactorRowStays(w, e, f);
    var factors := Step(w, e).factors;
    assert f in factors && factors[f].identity == identity && factors[f].verified;
  }

  lemma FactorRowStays(w: State, e: Event, f: Id)
    requires f in w.factors && w.factors[f].verified && !e.Unenroll?
    ensures var v := Step(w, e); f in v.factors && v.factors[f] == w.factors[f]
  {
    hide Requests.HasVerifiedFactor, Requests.TotpAccepts;
  }

  lemma NobodyPassesTheGate(w: State, e: Event, identity: Id, pid: Id)
    requires Enrolled(w.factors, identity) && !PastTheGate(w, identity) && pid in Step(w, e).procs
    ensures !(Step(w, e).procs[pid].Ungated? && Step(w, e).procs[pid].owner.identity == identity)
  {
    hide Step;
    if !Is(w, pid, Step(w, e).procs[pid]) {
      Arrives(w, e, pid);
    }
  }

  lemma {:induction false} NoneOpened(w: State, events: seq<Event>, identity: Id, id: Id)
    requires Enrolled(w.factors, identity) && !PastTheGate(w, identity)
    requires forall e :: e in events ==> !e.Unenroll?
    ensures !NewAlone(w, Run(w, events), identity, id)
    decreases |events|
  {
    hide Enrolled, Step;
    if events != [] {
      var v := Step(w, events[0]);
      assert events[0] in events;
      FactorStays(w, events[0], identity);
      forall pid | pid in v.procs ensures !(v.procs[pid].Ungated? && v.procs[pid].owner.identity == identity) {
        NobodyPassesTheGate(w, events[0], identity, pid);
      }
      NoneOpened(v, events[1..], identity, id);
      if id in v.openings {
        OpeningsChange(w, events[0], id);
        KeptOpening(v, events[1..], id);
      }
    }
  }

  lemma {:induction false} KeptOpening(w: State, events: seq<Event>, id: Id)
    requires id in w.openings
    ensures id in Run(w, events).openings && Run(w, events).openings[id] == w.openings[id]
    decreases |events|
  {
    hide Step;
    if events != [] {
      OpeningStays(w, events[0], id);
      KeptOpening(Step(w, events[0]), events[1..], id);
    }
  }

  lemma UngatedOpens(w: State, pid: Id, id: Id)
    requires pid in w.procs && w.procs[pid].Ungated? && id !in w.openings
    ensures NewAlone(w, Step(w, Insert(pid, id)), w.procs[pid].owner.identity, id)
  {
    hide OnlyMoves, Ends;
  }

  lemma RunFour(w: State, a: Event, b: Event, c: Event, d: Event)
    ensures Run(w, [a, b, c, d]) == Step(Step(Step(Step(w, a), b), c), d)
  {
    hide Step;
    var all := [a, b, c, d];
    assert all[1..] == [b, c, d] && [b, c, d][1..] == [c, d] && [c, d][1..] == [d] && [d][1..] == [];
    var u := Step(Step(w, a), b);
    assert Run(w, all) == Run(Step(w, a), [b, c, d]) == Run(u, [c, d]);
    assert Run(u, [c, d]) == Run(Step(u, c), [d]) == Run(Step(Step(u, c), d), []);
  }

  function LoginSteps(pid: Id, owner: Owner): seq<Event> {
    [PutPolicy(owner.tenant, false), Recognise(pid, owner, Device(None, "")), ReadPolicy(pid), ReadFactors(pid)]
  }

  lemma PolicyOff(w: State, pid: Id, owner: Owner)
    requires pid !in w.procs
    ensures var v := Step(Step(w, PutPolicy(owner.tenant, false)), Recognise(pid, owner, Device(None, "")));
      && v.openings == w.openings && v.factors == w.factors && owner.tenant !in v.requireMfa
      && pid in v.procs && v.procs[pid] == Recognised(owner, Device(None, ""))
  {
    hide OnlyMoves, Ends, Resume;
  }

  lemma GateRead(w: State, pid: Id)
    requires pid in w.procs && w.procs[pid].Recognised? && w.procs[pid].owner.tenant !in w.requireMfa
    requires !Enrolled(w.factors, w.procs[pid].owner.identity)
    ensures var v := Step(Step(w, ReadPolicy(pid)), ReadFactors(pid));
      && v.openings == w.openings && v.factors == w.factors
      && pid in v.procs && v.procs[pid].Ungated? && v.procs[pid].owner == w.procs[pid].owner
  {
    hide OnlyMoves, Ends;
    var u := Step(w, ReadPolicy(pid));
    assert pid in u.procs && u.procs[pid].Policed? && !u.procs[pid].required;
  }

  /** A login in one go: the policy off, the password right, the policy and the factors read. */
  lemma GatePassed(w: State, pid: Id, owner: Owner)
    requires pid !in w.procs && !Enrolled(w.factors, owner.identity)
    ensures var v := Run(w, LoginSteps(pid, owner));
      && v.openings == w.openings && v.factors == w.factors
      && pid in v.procs && v.procs[pid].Ungated? && v.procs[pid].owner == owner
  {
    hide Step, Run, Enrolled;
    PolicyOff(w, pid, owner);
    GateRead(Step(Step(w, PutPolicy(owner.tenant, false)), Recognise(pid, owner, Device(None, ""))), pid);
    RunFour(w, PutPolicy(owner.tenant, false), Recognise(pid, owner, Device(None, "")), ReadPolicy(pid), ReadFactors(pid));
  }

  lemma GateIsEnough(w: State, login: seq<Event>, pid: Id, id: Id)
    requires forall e :: e in login ==> !e.Unenroll?
    requires var v := Run(w, login); v.openings == w.openings && pid in v.procs && v.procs[pid].Ungated? && id !in v.openings
    ensures PasswordCanSuffice(w, Run(w, login).procs[pid].owner.identity)
  {
    hide Run, Step;
    var v := Run(w, login);
    RunMore(w, login, Insert(pid, id));
    UngatedOpens(v, pid, id);
    assert NewAlone(w, Run(w, login + [Insert(pid, id)]), v.procs[pid].owner.identity, id);
    assert AloneAfter(w, login + [Insert(pid, id)], v.procs[pid].owner.identity);
  }

  /** Exactly when a password alone can still open a session of an identity, as long as no factor is
      removed but whatever becomes of the policies: none of its factors is verified, or a login under
      way read them when none was. So a factor that has just been verified does not stop the logins
      that are past their gate. */
  lemma PasswordCanSufficeIff(w: State, identity: Id)
    ensures PasswordCanSuffice(w, identity) <==> !Enrolled(w.factors, identity) || PastTheGate(w, identity)
  {
    hide Enrolled, Step, NewAlone, PasswordCanSuffice;
    var id := Unused(w.openings.Keys);
    if PastTheGate(w, identity) {
      var pid :| pid in w.procs && w.procs[pid].Ungated? && w.procs[pid].owner.identity == identity;
      GateIsEnough(w, [], pid, id);
    } else if !Enrolled(w.factors, identity) {
      hide Run;
      var pid := Unused(w.procs.Keys);
      GatePassed(w, pid, Owner(0, identity, 0));
      GateIsEnough(w, LoginSteps(pid, Owner(0, identity, 0)), pid, id);
    } else {
      NoPasswordSuffices(w, identity);
    }
  }

  lemma NoPasswordSuffices(w: State, identity: Id)
    requires Enrolled(w.factors, identity) && !PastTheGate(w, identity)
    ensures !PasswordCanSuffice(w, identity)
  {
    hide Enrolled, Run, Step, NewAlone, PastTheGate;
    forall events | AloneAfter(w, events, identity) ensures false {
      var id :| NewAlone(w, Run(w, events), identity, id);
      NoneOpened(w, events, identity, id);
    }
  }

  // ----- With a second factor -----

  lemma GateShut(w: State, p: Id, owner: Owner, device: Device)
    requires p !in w.procs && Enrolled(w.factors, owner.identity)
    ensures Run(w, [Recognise(p, owner, device), ReadPolicy(p), ReadFactors(p)]) == w.(procs := w.procs[p := Gated(owner, device)])
  {
    hide OnlyMoves, Ends, Requests.TotpAccepts;
    RunThree(w, Recognise(p, owner, device), ReadPolicy(p), ReadFactors(p));
    var w1 := Step(w, Recognise(p, owner, device));
    var w2 := Step(w1, ReadPolicy(p));
    assert Is(w1, p, Recognised(owner, device)) && w2.procs[p].Policed?;
    assert w.procs[p := Gated(owner, device)] == w2.procs[p := Gated(owner, device)];
  }

  lemma ChallengeStored(w: State, p: Id, c: Id)
    requires p in w.procs && w.procs[p].Gated? && c !in w.handed
    ensures
      var u := Step(Step(w, StampChallenge(p)), StoreChallenge(p, c));
      && u.now == w.now && u.factors == w.factors && u.openings == w.openings && u.procs == w.procs - {p}
      && Stores(u, c, Expiring(Requests.Challenge(w.procs[p].owner, w.procs[p].device, w.now + 5 * MINUTE), w.now + 5 * MINUTE))
  {
    hide OnlyMoves, Ends, Requests.HasVerifiedFactor, Requests.TotpAccepts;
    assert Step(w, StampChallenge(p)).procs[p].Storing?;
  }

  lemma ChallengeTaken(w: State, q: Id, c: Id)
    requires q !in w.procs && c in w.challenges
    requires w.now < w.challenges[c].deadline && w.now <= w.challenges[c].value.expiresAt
    ensures Step(Step(w, Consume(q, c)), CheckTime(q)) ==
      w.(challenges := w.challenges - {c}, procs := w.procs[q := Timely(c, w.challenges[c].value)])
  {
    hide OnlyMoves, Ends, Requests.HasVerifiedFactor, Requests.TotpAccepts;
    var w1 := Step(w, Consume(q, c));
    assert Is(w1, q, Holding(c, w.challenges[c].value));
    assert w1.procs[q := Timely(c, w.challenges[c].value)] == w.procs[q := Timely(c, w.challenges[c].value)];
  }

  lemma CodeChecked(w: State, q: Id, id: Id, valid: set<Id>)
    requires q in w.procs && w.procs[q].Timely? && id !in w.openings
    ensures
      var owner := w.procs[q].challenge.owner;
      Step(Step(w, CheckCode(q, valid)), Insert(q, id)).openings ==
        if exists f :: f in w.factors && w.factors[f].identity == owner.identity && w.factors[f].verified
                         && w.factors[f].factorType == "totp" && w.factors[f].secret in valid
        then w.openings[id := Opening(owner, Confirmed(w.procs[q].c))] else w.openings
  {
    hide OnlyMoves, Ends, Requests.HasVerifiedFactor;
    var v := Step(w, CheckCode(q, valid));
    assert v.openings == w.openings;
    if q in v.procs {
      assert v.procs[q].Fitting?;
    }
  }

  /** A login of an enrolled identity and a completion, one after the other, open a session exactly when
      the code fits a verified TOTP factor of it. */
  lemma CodeOpensIff(w: State, p: Id, owner: Owner, device: Device, c: Id, q: Id, id: Id, valid: set<Id>)
    requires p !in w.procs && q !in w.procs && c !in w.handed && id !in w.openings && Enrolled(w.factors, owner.identity)
    ensures
      var v := Run(w, [Recognise(p, owner, device), ReadPolicy(p), ReadFactors(p)]);
      var u := Run(Step(Step(v, StampChallenge(p)), StoreChallenge(p, c)), [Consume(q, c), CheckTime(q), CheckCode(q, valid)]);
      Step(u, Insert(q, id)).openings ==
        if exists f :: f in w.factors && w.factors[f].identity == owner.identity && w.factors[f].verified
                         && w.factors[f].factorType == "totp" && w.factors[f].secret in valid
        then w.openings[id := Opening(owner, Confirmed(c))] else w.openings
  {
    hide Run, Step, Enrolled;
    GateShut(w, p, owner, device);
    var v := Run(w, [Recognise(p, owner, device), ReadPolicy(p), ReadFactors(p)]);
    var u := Step(Step(v, StampChallenge(p)), StoreChallenge(p, c));
    ChallengeStored(v, p, c);
    ChallengeTaken(u, q, c);
    RunThree(u, Consume(q, c), CheckTime(q), CheckCode(q, valid));
    CodeChecked(Step(Step(u, Consume(q, c)), CheckTime(q)), q, id, valid);
  }

  // ----- Under the policies as they are -----

  ghost predicate PastTheGateAs(w: State, owner: Owner) {
    exists pid :: Is(w, pid, Ungated(owner))
  }

  /** A login under way has read the policy when it required no second factor. */
  ghost predicate PastThePolicyAs(w: State, owner: Owner) {
    exists pid, device :: Is(w, pid, Policed(owner, device, false))
  }

  ghost predicate Passable(w: State, owner: Owner) {
    || PastTheGateAs(w, owner)
    || (!Enrolled(w.factors, owner.identity) && (owner.tenant !in w.requireMfa || PastThePolicyAs(w, owner)))
  }

  predicate KeepsRules(e: Event) {
    !e.Unenroll? && !e.PutPolicy?
  }

  ghost predicate NewAloneAs(w: State, v: State, owner: Owner, id: Id) {
    id in v.openings && id !in w.openings && v.openings[id] == Opening(owner, Alone)
  }

  ghost predicate AloneAfterAs(w: State, events: seq<Event>, owner: Owner) {
    (forall e :: e in events ==> KeepsRules(e)) && exists id :: NewAloneAs(w, Run(w, events), owner, id)
  }

  /** Some continuation in which no factor is removed and no policy is changed opens such a session. */
  ghost predicate PasswordCanSufficeAs(w: State, owner: Owner) {
    exists events :: AloneAfterAs(w, events, owner)
  }

  lemma PolicyStays(w: State, e: Event)
    requires !e.PutPolicy?
    ensures Step(w, e).requireMfa == w.requireMfa
  {
    hide OnlyMoves, Ends, Requests.HasVerifiedFactor, Requests.TotpAccepts;
  }

  lemma ImpassableStays(w: State, e: Event, owner: Owner)
    requires !Passable(w, owner) && KeepsRules(e)
    ensures !Passable(Step(w, e), owner)
  {
    hide Step;
    var v := Step(w, e);
    PolicyStays(w, e);
    if Enrolled(w.factors, owner.identity) {
      FactorStays(w, e, owner.identity);
    }
    forall pid | pid in v.procs ensures v.procs[pid] != Ungated(owner) {
      if v.procs[pid] == Ungated(owner) && !Is(w, pid, v.procs[pid]) {
        Arrives(w, e, pid);
        UngatedCameThrough(w, e, pid, owner);
      }
    }
    if !Enrolled(w.factors, owner.identity) {
      forall pid, device | pid in v.procs ensures v.procs[pid] != Policed(owner, device, false) {
        if !Is(w, pid, v.procs[pid]) {
          Arrives(w, e, pid);
        }
      }
    }
  }

  lemma UngatedCameThrough(w: State, e: Event, pid: Id, owner: Owner)
    requires ComesTo(w, e, pid, Ungated(owner))
    ensures Passable(w, owner)
  {
    assert Is(w, pid, Policed(owner, w.procs[pid].device, false));
  }

  lemma {:induction false} NoneOpenedAs(w: State, events: seq<Event>, owner: Owner, id: Id)
    requires !Passable(w, owner) && forall e :: e in events ==> KeepsRules(e)
    ensures !NewAloneAs(w, Run(w, events), owner, id)
    decreases |events|
  {
    hide Step, Passable;
    if events != [] {
      var v := Step(w, events[0]);
      assert events[0] in events;
      ImpassableStays(w, events[0], owner);
      NoneOpenedAs(v, events[1..], owner, id);
      if id in v.openings {
        KeptOpening(v, events[1..], id);
        if id !in w.openings {
          ImpassableInserts(w, events[0], owner, id);
        }
      }
    }
  }

  lemma ImpassableInserts(w: State, e: Event, owner: Owner, id: Id)
    requires !Passable(w, owner) && id in Step(w, e).openings && id !in w.openings
    ensures Step(w, e).openings[id] != Opening(owner, Alone)
  {
    hide Step;
    OpeningsChange(w, e, id);
    assert e.pid in w.procs ==> !Is(w, e.pid, Ungated(owner));
  }

  lemma GateIsEnoughAs(w: State, login: seq<Event>, pid: Id, owner: Owner)
    requires forall e :: e in login ==> KeepsRules(e)
    requires var v := Run(w, login); v.openings == w.openings && Is(v, pid, Ungated(owner))
    ensures PasswordCanSufficeAs(w, owner)
  {
    hide Run, Step;
    var v := Run(w, login);
    var id := Unused(w.openings.Keys);
    RunMore(w, login, Insert(pid, id));
    InsertOpens(v, pid, id);
    assert NewAloneAs(w, Run(w, login + [Insert(pid, id)]), owner, id);
    assert AloneAfterAs(w, login + [Insert(pid, id)], owner);
  }

  lemma FactorsRead(w: State, pid: Id, owner: Owner, device: Device)
    requires Is(w, pid, Policed(owner, device, false)) && !Enrolled(w.factors, owner.identity)
    ensures var v := Step(w, ReadFactors(pid));
      v.openings == w.openings && Is(v, pid, Ungated(owner))
  {
    hide OnlyMoves, Ends;
  }

  lemma PolicyRead(w: State, pid: Id, owner: Owner, device: Device)
    requires pid !in w.procs && owner.tenant !in w.requireMfa
    ensures var v := Step(Step(w, Recognise(pid, owner, device)), ReadPolicy(pid));
      v.openings == w.openings && v.factors == w.factors && Is(v, pid, Policed(owner, device, false))
  {
    hide OnlyMoves, Ends;
    assert Is(Step(w, Recognise(pid, owner, device)), pid, Recognised(owner, device));
  }

  lemma RunThree(w: State, a: Event, b: Event, c: Event)
    ensures Run(w, [a, b, c]) == Step(Step(Step(w, a), b), c)
  {
    hide Step;
    var all := [a, b, c];
    assert all[1..] == [b, c] && [b, c][1..] == [c] && [c][1..] == [];
    assert Run(w, all) == Run(Step(w, a), [b, c]) == Run(Step(Step(w, a), b), [c]);
  }

  lemma RunOne(w: State, e: Event)
    ensures Run(w, [e]) == Step(w, e)
  {
    hide Step;
    assert [e][1..] == [];
  }

  /** Exactly when a password alone can still open a session for this tenant, identity and user, while
      no factor is removed and no policy changed: a login of theirs is past its gate, or none of the
      factors is verified and the policy requires none now, or did not when a login under way read it. */
  lemma PasswordCanSufficeAsIff(w: State, owner: Owner)
    ensures PasswordCanSufficeAs(w, owner) <==> Passable(w, owner)
  {
    hide Step, PasswordCanSufficeAs, Enrolled;
    if PastTheGateAs(w, owner) {
      var pid :| Is(w, pid, Ungated(owner));
      GateIsEnoughAs(w, [], pid, owner);
    } else if Passable(w, owner) && owner.tenant !in w.requireMfa {
      var pid := Unused(w.procs.Keys);
      var device := Device(None, "");
      PolicyRead(w, pid, owner, device);
      FactorsRead(Step(Step(w, Recognise(pid, owner, device)), ReadPolicy(pid)), pid, owner, device);
      RunThree(w, Recognise(pid, owner, device), ReadPolicy(pid), ReadFactors(pid));
      GateIsEnoughAs(w, [Recognise(pid, owner, device), ReadPolicy(pid), ReadFactors(pid)], pid, owner);
    } else if Passable(w, owner) {
      var pid, device :| Is(w, pid, Policed(owner, device, false));
      FactorsRead(w, pid, owner, device);
      RunOne(w, ReadFactors(pid));
      GateIsEnoughAs(w, [ReadFactors(pid)], pid, owner);
    } else {
      NothingSufficesAs(w, owner);
    }
  }

  lemma NothingSufficesAs(w: State, owner: Owner)
    requires !Passable(w, owner)
    ensures !PasswordCanSufficeAs(w, owner)
  {
    hide Run, Step, NewAloneAs, Passable;
    forall events | AloneAfterAs(w, events, owner) ensures false {
      var id :| NewAloneAs(w, Run(w, events), owner, id);
      NoneOpenedAs(w, events, owner, id);
    }
  }

  // ----- A factor verified too late -----

  lemma Verifies(w: State, pid: Id, other: Id)
    requires w.factors == map[] && pid in w.procs && other !in w.procs && w.procs[pid].Ungated?
    ensures
      var v := Step(Step(Step(w, Enroll(5, w.procs[pid].owner.identity, 6)), FitEnrollment(other, 5, {6})), MarkVerified(other));
      PastTheGate(v, w.procs[pid].owner.identity) && Enrolled(v.factors, w.procs[pid].owner.identity)
  {
    hide OnlyMoves, Ends;
    var enrolled := Step(w, Enroll(5, w.procs[pid].owner.identity, 6));
    assert enrolled.factors == map[5 := Requests.Factor.Factor(w.procs[pid].owner.identity, "totp", 6, false)];
    var v := Step(Step(enrolled, FitEnrollment(other, 5, {6})), MarkVerified(other));
    assert pid in v.procs && v.procs[pid] == w.procs[pid];
    assert 5 in v.factors && v.factors[5].verified;
  }

  /** Such a login exists: some run verifies a factor between the gate and the insert. */
  lemma VerificationCanBeOutrun()
    ensures exists w, identity ::
      Reachable(w) && Enrolled(w.factors, identity) && PasswordCanSuffice(w, identity)
  {
    hide Run, Step, PasswordCanSuffice, LoginSteps, Enrolled, PastTheGate;
    var owner := Owner(1, 2, 3);
    var login := LoginSteps(4, owner);
    NoneVerified();
    GatePassed(START, 4, owner);
    var other := Unused(Run(START, login).procs.Keys);
    var enroll, fit, mark := Enroll(5, 2, 6), FitEnrollment(other, 5, {6}), MarkVerified(other);
    RunMore(START, login, enroll);
    RunMore(START, login + [enroll], fit);
    RunMore(START, login + [enroll] + [fit], mark);
    Verifies(Run(START, login), 4, other);
    PasswordCanSufficeIff(Run(START, login + [enroll] + [fit] + [mark]), 2);
  }

  lemma NoneVerified()
    ensures !Enrolled(START.factors, 2)
  {
  }
}
