// Password logins, challenges and enrollment under concurrency: the policy and
// the factors are read, the challenge stored, taken out, checked, and the
// session inserted in steps of their own. A list of events is a run; an event
// that is not enabled changes nothing.

module MfaProtocol {
  import opened Clock
  import opened Types
  import Requests

  type Factors = map<Id, Requests.Factor>

  /** How far a request has got. */
  datatype Proc =
    | Recognised(owner: Owner, device: Device)
    | Policed(owner: Owner, device: Device, required: bool)
    | Gated(owner: Owner, device: Device)
    | Storing(challenge: Requests.Challenge)
    | Ungated(owner: Owner)
    | Holding(c: Id, challenge: Requests.Challenge)
    | Timely(c: Id, challenge: Requests.Challenge)
    | Fitting(c: Id, challenge: Requests.Challenge)
    | Confirming(factor: Id)

  /** A session, by a password alone or by the challenge `c`. */
  datatype How = Alone | Confirmed(c: Id)

  datatype Opening = Opening(owner: Owner, how: How)

  datatype State = State(
    now: Time,
    factors: Factors,
    requireMfa: set<Id>,
    challenges: map<Id, Expiring<Requests.Challenge>>,
    procs: map<Id, Proc>,
    openings: map<Id, Opening>,
    handed: set<Id>)  // every challenge ever stored (history)

  const START := State(0, map[], {}, map[], map[], map[], {})

  datatype Event =
    | Tick(dt: nat)
    | Vanish(c: Id)
    | Abort(pid: Id)
    | PutPolicy(tenant: Id, mfa: bool)
    | Enroll(factor: Id, identity: Id, secret: Id)
    | Unenroll(factor: Id)
    // enrollment is verified in two statements
    | FitEnrollment(pid: Id, factor: Id, valid: set<Id>)
    | MarkVerified(pid: Id)
    // login
    | Recognise(pid: Id, owner: Owner, device: Device)
    | ReadPolicy(pid: Id)
    | ReadFactors(pid: Id)
    | StampChallenge(pid: Id)
    | StoreChallenge(pid: Id, c: Id)
    // completion
    | Consume(pid: Id, c: Id)
    | CheckTime(pid: Id)
    | CheckCode(pid: Id, valid: set<Id>)
    // the insert that ends either
    | Insert(pid: Id, id: Id)

  // ----- Steps -----

  function Set(w: State, pid: Id, p: Proc): State {
    w.(procs := w.procs[pid := p])
  }

  function Done(w: State, pid: Id): State {
    w.(procs := Without(w.procs, pid))
  }

  /** Only the request `pid` moves. */
  ghost predicate OnlyMoves(w: State, v: State, pid: Id) {
    forall p :: p != pid ==> (p in v.procs <==> p in w.procs) && (p in w.procs ==> v.procs[p] == w.procs[p])
  }

  /** And it either stays where it is or is over. */
  ghost predicate Ends(w: State, v: State, pid: Id) {
    OnlyMoves(w, v, pid) && (pid in v.procs ==> pid in w.procs && v.procs[pid] == w.procs[pid])
  }

  predicate SameStores(w: State, v: State) {
    v.openings == w.openings && v.challenges == w.challenges && v.handed == w.handed
  }

  function MarkStep(w: State, pid: Id): (v: State)
    requires pid in w.procs
    ensures Ends(w, v, pid) && SameStores(w, v)
  {
    match w.procs[pid]
    case Confirming(f) =>
      Done(w, pid).(factors := if f in w.factors then w.factors[f := w.factors[f].(verified := true)] else w.factors)
    case _ => w
  }

  function ReadPolicyStep(w: State, pid: Id): (v: State)
    requires pid in w.procs
    ensures OnlyMoves(w, v, pid) && SameStores(w, v)
  {
    match w.procs[pid]
    case Recognised(owner, device) => Set(w, pid, Policed(owner, device, owner.tenant in w.requireMfa))
    case _ => w
  }

  /** Required but not enrolled is refused; enrolled is challenged; the rest needs no second factor. */
  function ReadFactorsStep(w: State, pid: Id): (v: State)
    requires pid in w.procs
    ensures OnlyMoves(w, v, pid) && SameStores(w, v)
  {
    match w.procs[pid]
    case Policed(owner, device, required) =>
      if Requests.HasVerifiedFactor(w.factors, owner.identity) then Set(w, pid, Gated(owner, device))
      else if required then Done(w, pid)
      else Set(w, pid, Ungated(owner))
    case _ => w
  }

  function StampStep(w: State, pid: Id): (v: State)
    requires pid in w.procs
    ensures OnlyMoves(w, v, pid) && SameStores(w, v)
  {
    match w.procs[pid]
    case Gated(owner, device) => Set(w, pid, Storing(Requests.Challenge(owner, device, w.now + CHALLENGE_TTL)))
    case _ => w
  }

  /** The key lives five minutes from the write. A challenge is random: one ever stored is not drawn again. */
  function StoreStep(w: State, pid: Id, c: Id): (v: State)
    requires pid in w.procs
    ensures Ends(w, v, pid) && v.openings == w.openings
  {
    match w.procs[pid]
    case Storing(challenge) =>
      if c in w.handed then w
      else
        Done(w, pid).(challenges := w.challenges[c := Expiring(challenge, w.now + CHALLENGE_TTL)], handed := w.handed + {c})
    case _ => w
  }

  /** Get and delete, in one. */
  function ConsumeStep(w: State, pid: Id, c: Id): (v: State)
    ensures OnlyMoves(w, v, pid) && v.openings == w.openings && v.handed == w.handed
  {
    if pid !in w.procs && c in w.challenges && w.now < w.challenges[c].deadline then
      Set(w, pid, Holding(c, w.challenges[c].value)).(challenges := Without(w.challenges, c))
    else w
  }

  function CheckTimeStep(w: State, pid: Id): (v: State)
    requires pid in w.procs
    ensures OnlyMoves(w, v, pid) && SameStores(w, v)
  {
    match w.procs[pid]
    case Holding(c, challenge) =>
      if w.now > challenge.expiresAt then Done(w, pid) else Set(w, pid, Timely(c, challenge))
    case _ => w
  }

  function CheckCodeStep(w: State, pid: Id, valid: set<Id>): (v: State)
    requires pid in w.procs
    ensures OnlyMoves(w, v, pid) && SameStores(w, v)
  {
    match w.procs[pid]
    case Timely(c, challenge) =>
      if Requests.TotpAccepts(w.factors, challenge.owner.identity, valid) then Set(w, pid, Fitting(c, challenge))
      else Done(w, pid)
    case _ => w
  }

  function InsertStep(w: State, pid: Id, id: Id): (v: State)
    requires pid in w.procs
    ensures Ends(w, v, pid) && v.challenges == w.challenges && v.handed == w.handed
  {
    match w.procs[pid]
    case Ungated(owner) =>
      if id in w.openings then Done(w, pid)
      else Done(w, pid).(openings := w.openings[id := Opening(owner, Alone)])
    case Fitting(c, challenge) =>
      if id in w.openings then Done(w, pid)
      else Done(w, pid).(openings := w.openings[id := Opening(challenge.owner, Confirmed(c))])
    case _ => w
  }

  function Step(w: State, e: Event): State {
    match e
    case Tick(dt) => w.(now := w.now + dt)
    case Vanish(c) => w.(challenges := Without(w.challenges, c))
    case Abort(pid) => Done(w, pid)
    case PutPolicy(tenant, mfa) => w.(requireMfa := if mfa then w.requireMfa + {tenant} else w.requireMfa - {tenant})
    case Enroll(f, identity, secret) =>
      if f in w.factors then w else w.(factors := w.factors[f := Requests.Factor.Factor(identity, "totp", secret, false)])
    case Unenroll(f) => w.(factors := Without(w.factors, f))
    case FitEnrollment(pid, f, valid) =>
      if pid !in w.procs && f in w.factors && w.factors[f].secret in valid then Set(w, pid, Confirming(f)) else w
    case Recognise(pid, owner, device) => if pid in w.procs then w else Set(w, pid, Recognised(owner, device))
    case Consume(pid, c) => ConsumeStep(w, pid, c)
    case _ => if e.pid in w.procs then Resume(w, e) else w
  }

  predicate Resumes(e: Event) {
    e.MarkVerified? || e.ReadPolicy? || e.ReadFactors? || e.StampChallenge? || e.StoreChallenge? || e.CheckTime?
    || e.CheckCode? || e.Insert?
  }

  /** The events that continue a request already under way. */
  function Resume(w: State, e: Event): State
    requires Resumes(e) && e.pid in w.procs
  {
    match e
    case MarkVerified(pid) => MarkStep(w, pid)
    case ReadPolicy(pid) => ReadPolicyStep(w, pid)
    case ReadFactors(pid) => ReadFactorsStep(w, pid)
    case StampChallenge(pid) => StampStep(w, pid)
    case StoreChallenge(pid, c) => StoreStep(w, pid, c)
    case CheckTime(pid) => CheckTimeStep(w, pid)
    case CheckCode(pid, valid) => CheckCodeStep(w, pid, valid)
    case Insert(pid, id) => InsertStep(w, pid, id)
  }

  function Run(w: State, events: seq<Event>): State
    decreases |events|
  {
    if events == [] then w else Run(Step(w, events[0]), events[1..])
  }

  ghost predicate Reachable(w: State) {
    exists events :: w == Run(START, events)
  }

  // ----- What a step changes -----

  predicate Is(w: State, pid: Id, p: Proc) {
    pid in w.procs && w.procs[pid] == p
  }

  /** The step that brings a request to `p`, and the state it takes it in. */
  ghost predicate ComesTo(w: State, e: Event, pid: Id, p: Proc) {
    match p
    case Recognised(owner, device) => e == Recognise(pid, owner, device) && pid !in w.procs
    case Policed(owner, device, required) =>
      e == ReadPolicy(pid) && Is(w, pid, Recognised(owner, device)) && (required <==> owner.tenant in w.requireMfa)
    case Gated(owner, device) =>
      && e == ReadFactors(pid) && Requests.HasVerifiedFactor(w.factors, owner.identity)
      && pid in w.procs && w.procs[pid].Policed? && w.procs[pid].owner == owner && w.procs[pid].device == device
    case Ungated(owner) =>
      && e == ReadFactors(pid) && !Requests.HasVerifiedFactor(w.factors, owner.identity)
      && pid in w.procs && w.procs[pid].Policed? && w.procs[pid].owner == owner && !w.procs[pid].required
    case Storing(challenge) =>
      && e == StampChallenge(pid) && Is(w, pid, Gated(challenge.owner, challenge.device))
      && challenge.expiresAt == w.now + CHALLENGE_TTL
    case Holding(c, challenge) =>
      && e == Consume(pid, c) && pid !in w.procs
      && c in w.challenges && w.challenges[c].value == challenge && w.now < w.challenges[c].deadline
    case Timely(c, challenge) =>
      e == CheckTime(pid) && Is(w, pid, Holding(c, challenge)) && w.now <= challenge.expiresAt
    case Fitting(c, challenge) =>
      && e.CheckCode? && e.pid == pid && Is(w, pid, Timely(c, challenge))
      && Requests.TotpAccepts(w.factors, challenge.owner.identity, e.valid)
    case Confirming(f) => e.FitEnrollment? && e.pid == pid && e.factor == f && pid !in w.procs
  }

  lemma OthersStay(w: State, e: Event, pid: Id)
    requires pid in Step(w, e).procs && !Is(w, pid, Step(w, e).procs[pid])
    ensures !e.Tick? && !e.Vanish? && !e.PutPolicy? && !e.Enroll? && !e.Unenroll? && e.pid == pid
    ensures !e.Abort? && !e.MarkVerified? && !e.StoreChallenge? && !e.Insert?
  {
    hide MarkStep, ReadPolicyStep, ReadFactorsStep, StampStep, CheckTimeStep, CheckCodeStep, StoreStep, InsertStep, ConsumeStep;
  }

  lemma Arrives(w: State, e: Event, pid: Id)
    requires pid in Step(w, e).procs && !Is(w, pid, Step(w, e).procs[pid])
    ensures ComesTo(w, e, pid, Step(w, e).procs[pid])
  {
    hide OnlyMoves, Ends, MarkStep, StoreStep, InsertStep, Requests.HasVerifiedFactor, Requests.TotpAccepts;
    OthersStay(w, e, pid);
  }

  lemma StoreChanges(w: State, e: Event, c: Id)
    requires c in Step(w, e).challenges
    ensures var v := Step(w, e);
      || (c in w.challenges && v.challenges[c] == w.challenges[c])
      || (e.StoreChallenge? && e.c == c && c !in w.handed && e.pid in w.procs && w.procs[e.pid].Storing?
          && v.challenges[c] == Expiring(w.procs[e.pid].challenge, w.now + CHALLENGE_TTL))
  {
    hide MarkStep, ReadPolicyStep, ReadFactorsStep, StampStep, CheckTimeStep, CheckCodeStep, InsertStep, OnlyMoves, Ends;
  }

  lemma HandedGrows(w: State, e: Event)
    ensures w.handed <= Step(w, e).handed
    ensures Step(w, e).challenges.Keys - w.challenges.Keys <= Step(w, e).handed
  {
    hide MarkStep, ReadPolicyStep, ReadFactorsStep, StampStep, CheckTimeStep, CheckCodeStep, InsertStep, OnlyMoves, Ends;
  }

  lemma OpeningsChange(w: State, e: Event, id: Id)
    requires id in Step(w, e).openings
    ensures var v := Step(w, e);
      || (id in w.openings && v.openings[id] == w.openings[id])
      || (e.Insert? && e.id == id && id !in w.openings && e.pid in w.procs && e.pid !in v.procs && (
            match w.procs[e.pid]
            case Ungated(owner) => v.openings[id] == Opening(owner, Alone)
            case Fitting(c, challenge) => v.openings[id] == Opening(challenge.owner, Confirmed(c))
            case _ => false))
  {
    hide MarkStep, ReadPolicyStep, ReadFactorsStep, StampStep, CheckTimeStep, CheckCodeStep, StoreStep, ConsumeStep;
  }

  lemma OpeningStays(w: State, e: Event, id: Id)
    requires id in w.openings
    ensures id in Step(w, e).openings && Step(w, e).openings[id] == w.openings[id]
  {
    hide MarkStep, ReadPolicyStep, ReadFactorsStep, StampStep, CheckTimeStep, CheckCodeStep, StoreStep, ConsumeStep, OnlyMoves, Ends;
  }

  // ----- Invariant -----

  /** The request has taken this challenge out of the store. */
  predicate Holds(p: Proc, c: Id) {
    (p.Holding? || p.Timely? || p.Fitting?) && p.c == c
  }

  predicate Spent(o: Opening, c: Id) {
    o.how == Confirmed(c)
  }

  /** A challenge in any place was once stored. */
  ghost predicate AllHanded(w: State) {
    && w.challenges.Keys <= w.handed
    && (forall pid, c :: pid in w.procs && Holds(w.procs[pid], c) ==> c in w.handed)
    && (forall id, c :: id in w.openings && Spent(w.openings[id], c) ==> c in w.handed)
  }

  /** A challenge is in one place: in the store, in one request's hands, or behind one session. */
  ghost predicate OnePlace(w: State) {
    && (forall pid, c :: pid in w.procs && Holds(w.procs[pid], c) ==> c !in w.challenges)
    && (forall p, q, c :: p in w.procs && q in w.procs && Holds(w.procs[p], c) && Holds(w.procs[q], c) ==> p == q)
    && (forall id, c :: id in w.openings && Spent(w.openings[id], c) ==> c !in w.challenges)
    && (forall id, pid, c :: id in w.openings && pid in w.procs && Spent(w.openings[id], c) ==> !Holds(w.procs[pid], c))
    && (forall a, b, c :: a in w.openings && b in w.openings && Spent(w.openings[a], c) && Spent(w.openings[b], c) ==> a == b)
  }

  ghost predicate Inv(w: State) {
    AllHanded(w) && OnePlace(w)
  }

  /** A request that holds a challenge held it before, or has just taken it. */
  lemma HoldsFrom(w: State, e: Event, pid: Id, c: Id)
    requires pid in Step(w, e).procs && Holds(Step(w, e).procs[pid], c)
    ensures (pid in w.procs && Holds(w.procs[pid], c)) || (e == Consume(pid, c) && pid !in w.procs && c in w.challenges)
  {
    hide Step;
    if !Is(w, pid, Step(w, e).procs[pid]) {
      Arrives(w, e, pid);
    }
  }

  lemma AllHandedStays(w: State, e: Event)
    requires AllHanded(w)
    ensures AllHanded(Step(w, e))
  {
    hide Step, Holds, Spent;
    var v := Step(w, e);
    HandedGrows(w, e);
    forall pid, c | pid in v.procs && Holds(v.procs[pid], c) ensures c in v.handed {
      HoldsFrom(w, e, pid, c);
    }
    forall id, c | id in v.openings && Spent(v.openings[id], c) ensures c in v.handed {
      SpentFrom(w, e, id, c);
    }
  }

  lemma SpentFrom(w: State, e: Event, id: Id, c: Id)
    requires id in Step(w, e).openings && Spent(Step(w, e).openings[id], c)
    ensures (id in w.openings && Spent(w.openings[id], c))
      || (e.Insert? && e.id == id && id !in w.openings && e.pid in w.procs && Holds(w.procs[e.pid], c))
  {
    hide Step;
    OpeningsChange(w, e, id);
  }

  lemma StorePlace(w: State, pid: Id, c: Id)
    requires Inv(w) && pid in w.procs
    ensures OnePlace(StoreStep(w, pid, c))
  {
    hide OnePlace, Holds, Spent, StoreStep;
    StoreShape(w, pid, c);
    StoredPlace(w, StoreStep(w, pid, c), c);
  }

  lemma StoreShape(w: State, pid: Id, c: Id)
    requires pid in w.procs
    ensures var v := StoreStep(w, pid, c);
      && v.openings == w.openings && (forall p :: p in v.procs ==> p in w.procs && v.procs[p] == w.procs[p])
      && (v.challenges == w.challenges || (c !in w.handed && v.challenges.Keys == w.challenges.Keys + {c}))
  {
  }

  lemma StoredPlace(w: State, v: State, c: Id)
    requires OnePlace(w) && v.openings == w.openings
    requires forall p :: p in v.procs ==> p in w.procs && v.procs[p] == w.procs[p]
    requires v.challenges == w.challenges || (c !in w.handed && v.challenges.Keys == w.challenges.Keys + {c})
    requires forall p, d :: p in w.procs && Holds(w.procs[p], d) ==> d in w.handed
    requires forall id, d :: id in w.openings && Spent(w.openings[id], d) ==> d in w.handed
    ensures OnePlace(v)
  {
    hide Holds, Spent;
  }

  lemma ConsumePlace(w: State, pid: Id, c: Id)
    requires OnePlace(w)
    ensures OnePlace(ConsumeStep(w, pid, c))
  {
  }

  lemma InsertPlace(w: State, pid: Id, id: Id)
    requires OnePlace(w) && pid in w.procs
    ensures OnePlace(InsertStep(w, pid, id))
  {
    hide OnePlace;
    var v := InsertStep(w, pid, id);
    if v != w {
      InsertedPlace(w, v, pid, id);
    }
  }

  lemma InsertedPlace(w: State, v: State, pid: Id, id: Id)
    requires OnePlace(w) && pid in w.procs && v.challenges == w.challenges && v.procs == Without(w.procs, pid)
    requires v.openings == w.openings || (
        && id !in w.openings && v.openings.Keys == w.openings.Keys + {id}
        && (forall k :: k in w.openings ==> v.openings[k] == w.openings[k])
        && (forall c :: Spent(v.openings[id], c) ==> Holds(w.procs[pid], c)))
    ensures OnePlace(v)
  {
    hide Holds, Spent;
  }

  lemma OthersKeep(w: State, e: Event)
    requires !e.StoreChallenge? && !e.Consume? && !e.Insert?
    ensures Step(w, e).openings == w.openings && Step(w, e).challenges.Keys <= w.challenges.Keys
  {
    hide MarkStep, ReadPolicyStep, ReadFactorsStep, StampStep, CheckTimeStep, CheckCodeStep, StoreStep, InsertStep, ConsumeStep, OnlyMoves, Ends;
  }

  lemma OtherPlace(w: State, e: Event)
    requires OnePlace(w) && !e.StoreChallenge? && !e.Consume? && !e.Insert?
    ensures OnePlace(Step(w, e))
  {
    hide Step, Holds, Spent;
    var v := Step(w, e);
    OthersKeep(w, e);
    forall pid, c | pid in v.procs && Holds(v.procs[pid], c) ensures pid in w.procs && Holds(w.procs[pid], c) {
      HoldsFrom(w, e, pid, c);
    }
  }

  lemma OnePlaceStays(w: State, e: Event)
    requires Inv(w)
    ensures OnePlace(Step(w, e))
  {
    hide StoreStep, ConsumeStep, InsertStep, Holds, Spent, AllHanded, OnlyMoves, Ends;
    match e
    case StoreChallenge(pid, c) => if pid in w.procs { StorePlace(w, pid, c); }
    case Consume(pid, c) => ConsumePlace(w, pid, c);
    case Insert(pid, id) => if pid in w.procs { InsertPlace(w, pid, id); }
    case _ =>
      OtherPlace(w, e);
  }

  lemma {:induction false} InvRun(w: State, events: seq<Event>)
    requires Inv(w)
    ensures Inv(Run(w, events))
    decreases |events|
  {
    hide Step, AllHanded, OnePlace;
    if events != [] {
      AllHandedStays(w, events[0]);
      OnePlaceStays(w, events[0]);
      InvRun(Step(w, events[0]), events[1..]);
    }
  }

  lemma ReachableInv(w: State)
    requires Reachable(w)
    ensures Inv(w)
  {
    var events :| w == Run(START, events);
    InvRun(START, events);
  }
}
