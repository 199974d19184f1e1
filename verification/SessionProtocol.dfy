// Sessions, the principal cache and access tokens under concurrency. Every
// repository, Redis or clock access of a request is a step of its own, and the
// steps of different requests interleave freely. A list of events is a run: an
// event that is not enabled changes nothing.
//
// `delay` bounds, inside one request, the time between reading a session row
// (or inserting it) and the cache write or the token stamp that relies on it.

module SessionProtocol {
  import opened Clock
  import opened Types
  import opened Sessions

  /** A cached principal. `seenAt` is history: when the row behind the entry was read. */
  datatype Entry = Entry(owner: Owner, expires: Time, seenAt: Time)

  /** How far a request has got. `at` is the time of the row read the request relies on. */
  datatype Proc =
    | Looked(id: Id, row: Session, at: Time, viaGrant: bool)
    | Checked(id: Id, row: Session, at: Time, viaGrant: bool)
    | ParentRevoked(id: Id, row: Session, viaGrant: bool)
    | ParentForgotten(id: Id, row: Session)
    | Stamped(row: Session)
    | Minting(id: Id, owner: Owner)
    | LogoutLooked(id: Id, row: Session)
    | LogoutRevoked(id: Id)
    | HeaderLooked(id: Id, row: Session, at: Time)
    | HeaderChecked(id: Id, row: Session, at: Time)
    | Sweeping(cutoff: Time)

  /** When a session was inserted, and its place in the order of all inserts (history). */
  datatype Birth = Birth(at: Time, serial: nat)

  datatype State = State(
    now: Time,
    rows: Rows,
    cache: map<Id, Entry>,
    tokens: set<Token>,
    procs: map<Id, Proc>,
    // history
    births: map<Id, Birth>,
    serial: nat,
    revocations: map<Id, Time>)  // when each session was first revoked

  const START := State(0, map[], map[], {}, map[], map[], 0, map[])

  datatype Event =
    | Tick(dt: nat)
    | Abort(pid: Id)
    | Evict(id: Id)
    // login, MFA completion, WebAuthn login and the code grant stamp a new root
    | StampRoot(pid: Id, owner: Owner, hash: Digest, device: Device)
    // both refresh paths
    | Lookup(pid: Id, id: Id, viaGrant: bool)
    | Check(pid: Id)
    | RevokeParent(pid: Id)
    | ForgetParent(pid: Id, works: bool)
    | StampChild(pid: Id, hash: Digest)
    // every session-creating path
    | InsertRow(pid: Id, id: Id)
    | IssueToken(pid: Id, again: bool)
    | LogoutLookup(pid: Id, id: Id)
    | LogoutRevoke(pid: Id)
    | LogoutForget(pid: Id, works: bool)
    // the session header, on a cache miss
    | HeaderLookup(pid: Id, id: Id)
    | HeaderCheck(pid: Id)
    | HeaderPut(pid: Id, works: bool)
    // a cache hit, and the bearer header
    | CacheHit(id: Id)
    | Bearer(token: Token)
    | SweepStart(pid: Id)
    | SweepDelete(pid: Id)

  // ----- Steps -----

  function Set(w: State, pid: Id, p: Proc): State {
    w.(procs := w.procs[pid := p])
  }

  function Done(w: State, pid: Id): State {
    w.(procs := Without(w.procs, pid))
  }

  function Revoked(w: State, id: Id): State {
    w.(rows := RevokeRow(w.rows, id, w.now),
       revocations := if id in w.rows && id !in w.revocations then w.revocations[id := w.now] else w.revocations)
  }

  function Inserted(w: State, id: Id, row: Session): State {
    w.(rows := w.rows[id := row], births := w.births[id := Birth(w.now, w.serial)], serial := w.serial + 1)
  }

  function Swept(w: State, cutoff: Time): State {
    w.(rows := Sweep(w.rows, cutoff))
  }

  function Forgotten(w: State, id: Id, works: bool): State {
    if works then w.(cache := Without(w.cache, id)) else w
  }

  /** Most steps leave the table and its history alone. */
  predicate SameTable(w: State, v: State) {
    w.now <= v.now && v.rows == w.rows && v.births == w.births && v.serial == w.serial && v.revocations == w.revocations
  }

  /** Only the request `pid` moves. */
  predicate Alone(w: State, v: State, pid: Id) {
    forall p :: p != pid && p in w.procs + v.procs ==> p in v.procs && p in w.procs && v.procs[p] == w.procs[p]
  }

  function CheckStep(w: State, pid: Id): (v: State)
    requires pid in w.procs
    ensures SameTable(w, v)
    ensures Alone(w, v, pid) && v.tokens == w.tokens
  {
    match w.procs[pid]
    case Looked(id, row, at, viaGrant) =>
      if Usable(row, w.now) then Set(w, pid, Checked(id, row, at, viaGrant)) else Done(w, pid)
    case _ => w
  }

  function RevokeParentStep(w: State, pid: Id): (v: State)
    requires pid in w.procs
    ensures SameTable(if w.procs[pid].Checked? then Revoked(w, w.procs[pid].id) else w, v)
    ensures Alone(w, v, pid) && v.tokens == w.tokens
  {
    match w.procs[pid]
    case Checked(id, row, at, viaGrant) => Set(Revoked(w, id), pid, ParentRevoked(id, row, viaGrant))
    case _ => w
  }

  /** Only `/refresh` deletes the cache entry; the refresh grant goes straight on. */
  function ForgetParentStep(w: State, pid: Id, works: bool): (v: State)
    requires pid in w.procs
    ensures SameTable(w, v)
    ensures Alone(w, v, pid) && v.tokens == w.tokens
  {
    match w.procs[pid]
    case ParentRevoked(id, row, viaGrant) =>
      Set(Forgotten(w, id, works && !viaGrant), pid, ParentForgotten(id, row))
    case _ => w
  }

  function StampChildStep(w: State, pid: Id, hash: Digest): (v: State)
    requires pid in w.procs
    ensures SameTable(w, v)
    ensures Alone(w, v, pid) && v.tokens == w.tokens
  {
    match w.procs[pid]
    case ParentForgotten(id, row) =>
      Set(w, pid, Stamped(NewRow(row.owner, hash, Some(id), row.device, w.now)))
    case _ => w
  }

  /** Identifiers are random: one that any session ever had is never drawn again. */
  function InsertStep(w: State, pid: Id, id: Id): (v: State)
    requires pid in w.procs
    ensures Alone(w, v, pid) && v.tokens == w.tokens
  {
    match w.procs[pid]
    case Stamped(row) =>
      if id in w.births then w
      else if !Insertable(w.rows, id, row) then Done(w, pid)
      else Set(Inserted(w, id, row), pid, Minting(id, row.owner))
    case _ => w
  }

  /** The access token, and then the ID token a code grant may ask for, which the same service signs. */
  function IssueStep(delay: nat, w: State, pid: Id, again: bool): (v: State)
    requires pid in w.procs
    ensures SameTable(w, v)
    ensures Alone(w, v, pid)
  {
    match w.procs[pid]
    case Minting(id, owner) =>
      if id in w.births && w.now <= w.births[id].at + delay then
        var signed := w.(tokens := w.tokens + {AccessToken(id, owner, w.now)});
        if again then signed else Done(signed, pid)
      else w
    case _ => w
  }

  /** A row that is already revoked is not revoked again. */
  function LogoutRevokeStep(w: State, pid: Id): (v: State)
    requires pid in w.procs
    ensures SameTable(if w.procs[pid].LogoutLooked? && w.procs[pid].row.revokedAt.None? then Revoked(w, w.procs[pid].id) else w, v)
    ensures Alone(w, v, pid) && v.tokens == w.tokens
  {
    match w.procs[pid]
    case LogoutLooked(id, row) =>
      Set(if row.revokedAt.None? then Revoked(w, id) else w, pid, LogoutRevoked(id))
    case _ => w
  }

  function LogoutForgetStep(w: State, pid: Id, works: bool): (v: State)
    requires pid in w.procs
    ensures SameTable(w, v)
    ensures Alone(w, v, pid) && v.tokens == w.tokens
  {
    match w.procs[pid]
    case LogoutRevoked(id) => Done(Forgotten(w, id, works), pid)
    case _ => w
  }

  function HeaderCheckStep(w: State, pid: Id): (v: State)
    requires pid in w.procs
    ensures SameTable(w, v)
    ensures Alone(w, v, pid) && v.tokens == w.tokens
  {
    match w.procs[pid]
    case HeaderLooked(id, row, at) =>
      if Usable(row, w.now) then Set(w, pid, HeaderChecked(id, row, at)) else Done(w, pid)
    case _ => w
  }

  function HeaderPutStep(delay: nat, w: State, pid: Id, works: bool): (v: State)
    requires pid in w.procs
    ensures SameTable(w, v)
    ensures Alone(w, v, pid) && v.tokens == w.tokens
  {
    match w.procs[pid]
    case HeaderChecked(id, row, at) =>
      if w.now <= at + delay then
        Done(w, pid).(cache :=
          if works then w.cache[id := Entry(row.owner, w.now + PRINCIPAL_CACHE_TTL, at)] else w.cache)
      else w
    case _ => w
  }

  function SweepStep(w: State, pid: Id): (v: State)
    requires pid in w.procs
    ensures SameTable(if w.procs[pid].Sweeping? then Swept(w, w.procs[pid].cutoff) else w, v)
    ensures Alone(w, v, pid) && v.tokens == w.tokens
  {
    match w.procs[pid]
    case Sweeping(cutoff) => Done(Swept(w, cutoff), pid)
    case _ => w
  }

  function StartStep(w: State, e: Event): (v: State)
    requires e.StampRoot? || e.Lookup? || e.LogoutLookup? || e.HeaderLookup? || e.SweepStart?
    ensures SameTable(w, v) && Alone(w, v, e.pid) && v.tokens == w.tokens
  {
    if e.pid in w.procs then w else
    match e
    case StampRoot(pid, owner, hash, device) => Set(w, pid, Stamped(NewRow(owner, hash, None, device, w.now)))
    case Lookup(pid, id, viaGrant) =>
      if id in w.rows then Set(w, pid, Looked(id, w.rows[id], w.now, viaGrant)) else w
    case LogoutLookup(pid, id) => if id in w.rows then Set(w, pid, LogoutLooked(id, w.rows[id])) else w
    case HeaderLookup(pid, id) => if id in w.rows then Set(w, pid, HeaderLooked(id, w.rows[id], w.now)) else w
    case SweepStart(pid) => Set(w, pid, Sweeping(w.now - SESSION_RETENTION))
  }

  function Step(delay: nat, w: State, e: Event): State {
    match e
    case Tick(dt) => w.(now := w.now + dt)
    case Evict(id) => w.(cache := Without(w.cache, id))
    case CacheHit(_) => w
    case Bearer(_) => w
    case StampRoot(_, _, _, _) => StartStep(w, e)
    case Lookup(_, _, _) => StartStep(w, e)
    case LogoutLookup(_, _) => StartStep(w, e)
    case HeaderLookup(_, _) => StartStep(w, e)
    case SweepStart(_) => StartStep(w, e)
    case _ => if e.pid in w.procs then ResumeStep(delay, w, e) else w
  }

  /** The events that continue a request already under way. */
  function ResumeStep(delay: nat, w: State, e: Event): (v: State)
    requires e.Abort? || e.Check? || e.RevokeParent? || e.ForgetParent? || e.StampChild? || e.InsertRow?
      || e.IssueToken? || e.LogoutRevoke? || e.LogoutForget? || e.HeaderCheck? || e.HeaderPut? || e.SweepDelete?
    requires e.pid in w.procs
    ensures Alone(w, v, e.pid) && (v.tokens == w.tokens || e.IssueToken?)
  {
    match e
    case Abort(pid) => Done(w, pid)
    case Check(pid) => CheckStep(w, pid)
    case RevokeParent(pid) => RevokeParentStep(w, pid)
    case ForgetParent(pid, works) => ForgetParentStep(w, pid, works)
    case StampChild(pid, hash) => StampChildStep(w, pid, hash)
    case InsertRow(pid, id) => InsertStep(w, pid, id)
    case IssueToken(pid, again) => IssueStep(delay, w, pid, again)
    case LogoutRevoke(pid) => LogoutRevokeStep(w, pid)
    case LogoutForget(pid, works) => LogoutForgetStep(w, pid, works)
    case HeaderCheck(pid) => HeaderCheckStep(w, pid)
    case HeaderPut(pid, works) => HeaderPutStep(delay, w, pid, works)
    case SweepDelete(pid) => SweepStep(w, pid)
  }

  function Run(delay: nat, w: State, events: seq<Event>): State
    decreases |events|
  {
    if events == [] then w else Run(delay, Step(delay, w, events[0]), events[1..])
  }

  /** Some run leads here. */
  ghost predicate Reachable(delay: nat, w: State) {
    exists events :: w == Run(delay, START, events)
  }

  /** The request that takes this step is let through as session `id`. */
  predicate Authenticates(delay: nat, w: State, e: Event, id: Id) {
    || (e == CacheHit(id) && id in w.cache && w.now < w.cache[id].expires)
    || (e.Bearer? && e.token in w.tokens && e.token.session == id
        && e.token.notBefore <= w.now < e.token.expires)
    || (e.HeaderPut? && e.pid in w.procs && w.procs[e.pid].HeaderChecked?
        && w.procs[e.pid].id == id && w.now <= w.procs[e.pid].at + delay)
  }

  // ----- How a state may change -----

  /** The columns no statement ever updates are the same, and a revocation is never undone. */
  predicate SameRow(a: Session, b: Session) {
    a.(revokedAt := None) == b.(revokedAt := None) && (a.revokedAt.Some? ==> b.revokedAt.Some?)
  }

  ghost predicate Evolves(w: State, v: State) {
    && w.now <= v.now
    && w.serial <= v.serial
    && (forall id :: id in w.births ==> id in v.births && v.births[id] == w.births[id])
    && (forall id :: id in v.births && id !in w.births ==> w.now <= v.births[id].at)
    && (forall id :: id in w.revocations ==> id in v.revocations && v.revocations[id] == w.revocations[id])
    && (forall id :: id in v.revocations && id !in w.revocations ==> w.now <= v.revocations[id])
    && (forall id :: id in v.rows && id in w.births ==> id in w.rows && SameRow(w.rows[id], v.rows[id]))
    && (forall id :: id in w.rows && id !in v.rows ==> Qualifies(w.rows[id], v.now - SESSION_RETENTION))
  }

  ghost predicate RowsOk(w: State) {
    && (forall id :: id in w.births ==> w.births[id].at <= w.now && w.births[id].serial < w.serial)
    && (forall id :: id in w.revocations ==> id in w.births && w.births[id].at <= w.revocations[id] <= w.now)
    && (forall id :: id in w.rows ==> id in w.births)
    && (forall id :: id in w.rows && id in w.revocations ==>
          w.rows[id].revokedAt.Some? && w.revocations[id] <= w.rows[id].revokedAt.value)
    && (forall id :: id in w.rows && w.rows[id].revokedAt.Some? ==> id in w.revocations)
  }

  /** The parent is still there, is older, is revoked, and has the same owner. */
  ghost predicate Hangs(w: State, id: Id, parent: Id) {
    && id in w.rows && parent in w.rows
    && w.rows[parent].owner == w.rows[id].owner && w.rows[parent].revokedAt.Some?
    && id in w.births && parent in w.births && w.births[parent].serial < w.births[id].serial
  }

  ghost predicate Forest(w: State) {
    forall id, parent :: IsChild(w.rows, id, parent) ==> Hangs(w, id, parent)
  }

  /** A copy of a session row read at time `at`. */
  ghost predicate Copy(w: State, id: Id, row: Session, at: Time) {
    && at <= w.now && id in w.births
    && (id in w.rows ==> SameRow(row, w.rows[id]))
    && (row.revokedAt.None? ==> Fresh(w, id, at))
    && (row.revokedAt.None? && id !in w.rows ==>
          row.expiresAt + SESSION_RETENTION < w.now || at + SESSION_RETENTION < w.now)
  }

  /** Seen unrevoked at time `at`. */
  ghost predicate Fresh(w: State, id: Id, at: Time) {
    id in w.births && w.births[id].at <= at <= w.now && (id in w.revocations ==> at <= w.revocations[id])
  }

  /** Seen unrevoked and unexpired at time `at`, hence still in the table for the retention period. */
  ghost predicate SeenUsable(w: State, id: Id, owner: Owner, at: Time) {
    && Fresh(w, id, at)
    && (id in w.rows ==> w.rows[id].owner == owner && at <= w.rows[id].expiresAt)
    && (id !in w.rows ==> at + SESSION_RETENTION < w.now)
  }

  /** The session a request has revoked: still there means revoked, with the owner that was read. */
  ghost predicate Retired(w: State, id: Id, owner: Owner) {
    id in w.births && (id in w.rows ==> w.rows[id].revokedAt.Some? && w.rows[id].owner == owner)
  }

  ghost predicate ProcOk(w: State, p: Proc) {
    match p
    case Looked(id, row, at, _) => Copy(w, id, row, at)
    case Checked(id, row, at, _) => Copy(w, id, row, at) && SeenUsable(w, id, row.owner, at)
    case ParentRevoked(id, row, _) => Retired(w, id, row.owner)
    case ParentForgotten(id, row) => Retired(w, id, row.owner)
    case Stamped(row) => row.revokedAt.None? && (row.parent.Some? ==> Retired(w, row.parent.value, row.owner))
    case Minting(id, owner) => id in w.births && (id in w.rows ==> w.rows[id].owner == owner)
    case LogoutLooked(id, row) => id in w.births && (row.revokedAt.Some? && id in w.rows ==> w.rows[id].revokedAt.Some?)
    case LogoutRevoked(id) => id in w.births && (id in w.rows ==> w.rows[id].revokedAt.Some?)
    case HeaderLooked(id, row, at) => Copy(w, id, row, at)
    case HeaderChecked(id, row, at) => SeenUsable(w, id, row.owner, at)
    case Sweeping(cutoff) => cutoff + SESSION_RETENTION <= w.now
  }

  ghost predicate EntryOk(delay: nat, w: State, id: Id, entry: Entry) {
    SeenUsable(w, id, entry.owner, entry.seenAt) && entry.expires <= entry.seenAt + delay + PRINCIPAL_CACHE_TTL
  }

  ghost predicate TokenOk(delay: nat, w: State, t: Token) {
    && t.session in w.births
    && t.expires <= w.births[t.session].at + delay + ACCESS_TOKEN_TTL
    && (t.session in w.rows ==> w.rows[t.session].owner == t.owner)
  }

  ghost predicate ProcsOk(w: State) {
    forall pid :: pid in w.procs ==> ProcOk(w, w.procs[pid])
  }

  ghost predicate CacheOk(delay: nat, w: State) {
    forall id :: id in w.cache ==> EntryOk(delay, w, id, w.cache[id])
  }

  ghost predicate TokensOk(delay: nat, w: State) {
    forall t :: t in w.tokens ==> TokenOk(delay, w, t)
  }

  ghost predicate Inv(delay: nat, w: State) {
    RowsOk(w) && Forest(w) && ProcsOk(w) && CacheOk(delay, w) && TokensOk(delay, w)
  }

  // ----- What stays true as the state evolves -----

  lemma FreshStays(w: State, v: State, id: Id, at: Time)
    requires Evolves(w, v) && Fresh(w, id, at)
    ensures Fresh(v, id, at)
  {
  }

  lemma SeenUsableStays(w: State, v: State, id: Id, owner: Owner, at: Time)
    requires RowsOk(w) && Evolves(w, v) && SeenUsable(w, id, owner, at)
    ensures SeenUsable(v, id, owner, at)
  {
    FreshStays(w, v, id, at);
  }

  lemma CopyStays(w: State, v: State, id: Id, row: Session, at: Time)
    requires RowsOk(w) && Evolves(w, v) && Copy(w, id, row, at)
    ensures Copy(v, id, row, at)
  {
    if row.revokedAt.None? {
      FreshStays(w, v, id, at);
    }
  }

  lemma RetiredStays(w: State, v: State, id: Id, owner: Owner)
    requires Evolves(w, v) && Retired(w, id, owner)
    ensures Retired(v, id, owner)
  {
  }

  lemma ProcStays(w: State, v: State, p: Proc)
    requires RowsOk(w) && Evolves(w, v) && ProcOk(w, p)
    ensures ProcOk(v, p)
  {
    match p
    case Looked(id, row, at, _) => CopyStays(w, v, id, row, at);
    case Checked(id, row, at, _) =>
      CopyStays(w, v, id, row, at);
      SeenUsableStays(w, v, id, row.owner, at);
    case ParentRevoked(id, row, _) => RetiredStays(w, v, id, row.owner);
    case ParentForgotten(id, row) => RetiredStays(w, v, id, row.owner);
    case Stamped(row) =>
      if row.parent.Some? {
        RetiredStays(w, v, row.parent.value, row.owner);
      }
    case HeaderLooked(id, row, at) => CopyStays(w, v, id, row, at);
    case HeaderChecked(id, row, at) => SeenUsableStays(w, v, id, row.owner, at);
    case _ =>
  }

  lemma EntryStays(delay: nat, w: State, v: State, id: Id, entry: Entry)
    requires RowsOk(w) && Evolves(w, v) && EntryOk(delay, w, id, entry)
    ensures EntryOk(delay, v, id, entry)
  {
    SeenUsableStays(w, v, id, entry.owner, entry.seenAt);
  }

  lemma TokenStays(delay: nat, w: State, v: State, t: Token)
    requires Evolves(w, v) && TokenOk(delay, w, t)
    ensures TokenOk(delay, v, t)
  {
  }

  // ----- Every step -----

  lemma RevokedEvolves(w: State, id: Id)
    requires RowsOk(w)
    ensures Evolves(w, Revoked(w, id))
  {
    var v := Revoked(w, id);
    assert forall k :: k in v.rows && k != id ==> v.rows[k] == w.rows[k];
  }

  lemma RevokedForest(w: State, id: Id)
    requires Forest(w)
    ensures Forest(Revoked(w, id))
  {
    var v := Revoked(w, id);
    forall child, parent | IsChild(v.rows, child, parent) ensures Hangs(v, child, parent) {
      assert IsChild(w.rows, child, parent);
      assert Hangs(w, child, parent);
    }
  }

  lemma InsertedEvolves(w: State, id: Id, row: Session)
    requires RowsOk(w) && id !in w.births && row.revokedAt.None?
    ensures Evolves(w, Inserted(w, id, row)) && RowsOk(Inserted(w, id, row))
  {
  }

  lemma InsertedForest(w: State, id: Id, row: Session)
    requires RowsOk(w) && Forest(w) && id !in w.births && Insertable(w.rows, id, row)
    requires row.parent.Some? ==> Retired(w, row.parent.value, row.owner)
    ensures Forest(Inserted(w, id, row))
  {
    var v := Inserted(w, id, row);
    forall child, parent | IsChild(v.rows, child, parent) ensures Hangs(v, child, parent) {
      if child != id {
        assert IsChild(w.rows, child, parent);
        assert Hangs(w, child, parent);
      }
    }
  }

  lemma SweptForest(w: State, cutoff: Time)
    requires Forest(w)
    ensures Forest(Swept(w, cutoff))
  {
    var v := Swept(w, cutoff);
    forall child, parent | IsChild(v.rows, child, parent) ensures Hangs(v, child, parent) {
      assert IsChild(w.rows, child, parent);
      assert Hangs(w, child, parent);
    }
  }

  lemma SameTableEvolves(w: State, v: State)
    requires RowsOk(w) && SameTable(w, v)
    ensures Evolves(w, v) && RowsOk(v)
  {
  }

  lemma SameTableForest(w: State, v: State)
    requires Forest(w) && SameTable(w, v)
    ensures Forest(v)
  {
    forall child, parent | IsChild(v.rows, child, parent) ensures Hangs(v, child, parent) {
      assert Hangs(w, child, parent);
    }
  }

  /** What a step does to the table, the requests under way aside. */
  function TableAfter(w: State, e: Event): State {
    match e
    case RevokeParent(pid) =>
      if pid in w.procs && w.procs[pid].Checked? then Revoked(w, w.procs[pid].id) else w
    case LogoutRevoke(pid) =>
      if pid in w.procs && w.procs[pid].LogoutLooked? && w.procs[pid].row.revokedAt.None?
      then Revoked(w, w.procs[pid].id) else w
    case InsertRow(pid, id) =>
      if pid in w.procs && w.procs[pid].Stamped? && id !in w.births && Insertable(w.rows, id, w.procs[pid].row)
      then Inserted(w, id, w.procs[pid].row) else w
    case SweepDelete(pid) =>
      if pid in w.procs && w.procs[pid].Sweeping? then Swept(w, w.procs[pid].cutoff) else w
    case _ => w
  }

  lemma TableAfterStep(delay: nat, w: State, e: Event)
    ensures SameTable(TableAfter(w, e), Step(delay, w, e))
  {
    hide Sweep, RevokeRow;
    if e.InsertRow? && e.pid in w.procs {
      TableAfterInsert(w, e.pid, e.id);
    }
  }

  lemma TableAfterInsert(w: State, pid: Id, id: Id)
    requires pid in w.procs
    ensures SameTable(TableAfter(w, InsertRow(pid, id)), InsertStep(w, pid, id))
  {
  }

  lemma RevokedOk(w: State, id: Id)
    requires RowsOk(w) && Forest(w)
    ensures var v := Revoked(w, id); Evolves(w, v) && RowsOk(v) && Forest(v)
  {
    hide Evolves, Forest;
    RevokedEvolves(w, id);
    RevokedForest(w, id);
  }

  lemma InsertedOk(w: State, id: Id, row: Session)
    requires RowsOk(w) && Forest(w) && id !in w.births && Insertable(w.rows, id, row)
    requires ProcOk(w, Stamped(row))
    ensures var v := Inserted(w, id, row); Evolves(w, v) && RowsOk(v) && Forest(v)
  {
    InsertedEvolves(w, id, row);
    InsertedForest(w, id, row);
  }

  lemma SweptOk(w: State, cutoff: Time)
    requires RowsOk(w) && Forest(w) && cutoff + SESSION_RETENTION <= w.now
    ensures var v := Swept(w, cutoff); Evolves(w, v) && RowsOk(v) && Forest(v)
  {
    SweptForest(w, cutoff);
  }

  lemma TableAfterOk(w: State, e: Event)
    requires RowsOk(w) && Forest(w) && ProcsOk(w)
    ensures var v := TableAfter(w, e); Evolves(w, v) && RowsOk(v) && Forest(v)
  {
    hide Evolves, RowsOk, Forest, Sweep, RevokeRow;
    if TableAfter(w, e) == w {
      SameTableOk(w, w, w);
    } else {
      var p := w.procs[e.pid];
      assert ProcOk(w, p);
      match p
      case Stamped(row) => InsertedOk(w, e.id, row);
      case Sweeping(cutoff) => SweptOk(w, cutoff);
      case _ => RevokedOk(w, p.id);
    }
  }

  lemma SameTableOk(u: State, w: State, v: State)
    requires (u == w || Evolves(u, w)) && RowsOk(w) && Forest(w) && SameTable(w, v)
    ensures Evolves(u, v) && RowsOk(v) && Forest(v)
  {
    hide Forest, RowsOk, Evolves, SameTable;
    SameTableForest(w, v);
    SameTableEvolves(w, v);
    if u != w {
      EvolvesOn(u, w, v);
    }
  }

  lemma EvolvesOn(u: State, w: State, v: State)
    requires Evolves(u, w) && SameTable(w, v)
    ensures Evolves(u, v)
  {
    hide SameRow;
  }

  lemma StepEvolves(delay: nat, w: State, e: Event)
    requires RowsOk(w) && Forest(w) && ProcsOk(w)
    ensures var v := Step(delay, w, e); Evolves(w, v) && RowsOk(v) && Forest(v)
  {
    TableAfterOk(w, e);
    TableAfterStep(delay, w, e);
    SameTableOk(w, TableAfter(w, e), Step(delay, w, e));
  }

  predicate Moves(e: Event) {
    || e.StampRoot? || e.Lookup? || e.LogoutLookup? || e.HeaderLookup? || e.SweepStart?
    || e.Check? || e.RevokeParent? || e.ForgetParent? || e.StampChild? || e.InsertRow?
    || e.LogoutRevoke? || e.HeaderCheck?
  }

  /** The request a step moves, and where to; every other request stays where it was. */
  lemma StepMovesOne(delay: nat, w: State, e: Event, pid: Id)
    requires pid in Step(delay, w, e).procs
    ensures (pid in w.procs && Step(delay, w, e).procs[pid] == w.procs[pid]) || (Moves(e) && e.pid == pid)
  {
  }

  lemma StartedProcOk(w: State, e: Event)
    requires RowsOk(w)
    requires e.StampRoot? || e.Lookup? || e.LogoutLookup? || e.HeaderLookup? || e.SweepStart?
    requires e.pid !in w.procs && e.pid in StartStep(w, e).procs
    ensures ProcOk(w, StartStep(w, e).procs[e.pid])
  {
  }

  lemma CheckedRowSeenUsable(w: State, id: Id, row: Session, at: Time)
    requires Copy(w, id, row, at) && Usable(row, w.now)
    ensures SeenUsable(w, id, row.owner, at)
  {
  }

  lemma RetiredAfterRevoke(w: State, id: Id, owner: Owner, at: Time)
    requires SeenUsable(w, id, owner, at)
    ensures Retired(Revoked(w, id), id, owner)
  {
  }

  lemma RevokedByLogout(w: State, id: Id, row: Session)
    requires ProcOk(w, LogoutLooked(id, row))
    ensures ProcOk(if row.revokedAt.None? then Revoked(w, id) else w, LogoutRevoked(id))
  {
  }

  /** Where a request goes from where it is, if it moves on without inserting a row. */
  lemma MovesOn(delay: nat, w: State, e: Event)
    requires Moves(e) && !e.InsertRow? && e.pid in w.procs
    requires e.pid in Step(delay, w, e).procs && Step(delay, w, e).procs[e.pid] != w.procs[e.pid]
    ensures
      var v := Step(delay, w, e);
      var next := v.procs[e.pid];
      match w.procs[e.pid]
      case Looked(id, row, at, viaGrant) => next == Checked(id, row, at, viaGrant) && Usable(row, w.now)
      case HeaderLooked(id, row, at) => next == HeaderChecked(id, row, at) && Usable(row, w.now)
      case Checked(id, row, at, viaGrant) => next == ParentRevoked(id, row, viaGrant) && SameTable(Revoked(w, id), v)
      case ParentRevoked(id, row, _) => next == ParentForgotten(id, row)
      case ParentForgotten(id, row) =>
        next.Stamped? && next.row.revokedAt.None? && next.row.parent == Some(id) && next.row.owner == row.owner
      case LogoutLooked(id, row) =>
        next == LogoutRevoked(id) && SameTable(if row.revokedAt.None? then Revoked(w, id) else w, v)
      case _ => false
  {
    hide Revoked, Sweep, RevokeRow;
  }

  lemma ResumedProcOk(delay: nat, w: State, e: Event)
    requires Inv(delay, w) && Moves(e) && e.pid in w.procs && ProcOk(w, w.procs[e.pid]) && !e.InsertRow?
    requires e.pid in Step(delay, w, e).procs && Step(delay, w, e).procs[e.pid] != w.procs[e.pid]
    ensures ProcOk(Step(delay, w, e), Step(delay, w, e).procs[e.pid])
  {
    hide Step, Evolves, Inv;
    var v := Step(delay, w, e);
    MovesOn(delay, w, e);
    match w.procs[e.pid] {
      case Looked(id, row, at, _) => CheckedRowSeenUsable(w, id, row, at);
      case HeaderLooked(id, row, at) => CheckedRowSeenUsable(w, id, row, at);
      case Checked(id, row, at, _) => RetiredAfterRevoke(w, id, row.owner, at);
      case LogoutLooked(id, row) => RevokedByLogout(w, id, row);
      case _ =>
    }
    if !w.procs[e.pid].Checked? && !w.procs[e.pid].LogoutLooked? {
      assert ProcOk(w, v.procs[e.pid]);
      StepKeepsProcs(delay, w, e, v.procs[e.pid]);
    }
  }

  lemma StepKeepsProcs(delay: nat, w: State, e: Event, p: Proc)
    requires Inv(delay, w) && ProcOk(w, p)
    ensures ProcOk(Step(delay, w, e), p)
  {
    hide Step;
    StepEvolves(delay, w, e);
    ProcStays(w, Step(delay, w, e), p);
  }

  lemma MovedProcOk(delay: nat, w: State, e: Event)
    requires Inv(delay, w) && Moves(e) && e.pid in Step(delay, w, e).procs
    requires e.pid in w.procs ==> Step(delay, w, e).procs[e.pid] != w.procs[e.pid]
    ensures ProcOk(Step(delay, w, e), Step(delay, w, e).procs[e.pid])
  {
    if e.InsertRow? {
      assert ProcOk(w, w.procs[e.pid]);
    } else if e.pid in w.procs {
      assert ProcOk(w, w.procs[e.pid]);
      ResumedProcOk(delay, w, e);
    } else {
      StepEvolves(delay, w, e);
      StartedProcOk(w, e);
      ProcStays(w, Step(delay, w, e), Step(delay, w, e).procs[e.pid]);
    }
  }

  lemma ProcsStay(delay: nat, w: State, e: Event)
    requires Inv(delay, w)
    ensures ProcsOk(Step(delay, w, e))
  {
    var v := Step(delay, w, e);
    StepEvolves(delay, w, e);
    forall pid | pid in v.procs ensures ProcOk(v, v.procs[pid]) {
      StepMovesOne(delay, w, e, pid);
      if pid in w.procs && v.procs[pid] == w.procs[pid] {
        ProcStays(w, v, w.procs[pid]);
      } else {
        MovedProcOk(delay, w, e);
      }
    }
  }

  lemma NewEntryOk(delay: nat, w: State, pid: Id, works: bool, id: Id)
    requires pid in w.procs && ProcOk(w, w.procs[pid])
    requires var v := HeaderPutStep(delay, w, pid, works);
      id in v.cache && !(id in w.cache && v.cache[id] == w.cache[id])
    ensures var v := HeaderPutStep(delay, w, pid, works); EntryOk(delay, v, id, v.cache[id])
  {
  }

  lemma CacheChanges(delay: nat, w: State, e: Event, id: Id)
    requires id in Step(delay, w, e).cache
    ensures (id in w.cache && Step(delay, w, e).cache[id] == w.cache[id]) || (e.HeaderPut? && e.pid in w.procs)
  {
  }

  lemma CacheStays(delay: nat, w: State, e: Event)
    requires Inv(delay, w)
    ensures CacheOk(delay, Step(delay, w, e))
  {
    var v := Step(delay, w, e);
    StepEvolves(delay, w, e);
    forall id | id in v.cache ensures EntryOk(delay, v, id, v.cache[id]) {
      CacheChanges(delay, w, e, id);
      if id in w.cache && v.cache[id] == w.cache[id] {
        EntryStays(delay, w, v, id, w.cache[id]);
      } else {
        NewEntryOk(delay, w, e.pid, e.works, id);
      }
    }
  }

  lemma NewTokenOk(delay: nat, w: State, pid: Id, again: bool, t: Token)
    requires pid in w.procs && ProcOk(w, w.procs[pid])
    requires t in IssueStep(delay, w, pid, again).tokens && t !in w.tokens
    ensures TokenOk(delay, w, t)
  {
  }

  lemma TokensChange(delay: nat, w: State, e: Event)
    ensures Step(delay, w, e).tokens == w.tokens || (e.IssueToken? && e.pid in w.procs)
  {
  }

  lemma TokensStay(delay: nat, w: State, e: Event)
    requires Inv(delay, w)
    ensures TokensOk(delay, Step(delay, w, e))
  {
    var v := Step(delay, w, e);
    StepEvolves(delay, w, e);
    forall t | t in v.tokens ensures TokenOk(delay, v, t) {
      TokensChange(delay, w, e);
      if t !in w.tokens {
        NewTokenOk(delay, w, e.pid, e.again, t);
      }
      TokenStays(delay, w, v, t);
    }
  }

  lemma InvStep(delay: nat, w: State, e: Event)
    requires Inv(delay, w)
    ensures Inv(delay, Step(delay, w, e))
  {
    StepEvolves(delay, w, e);
    ProcsStay(delay, w, e);
    CacheStays(delay, w, e);
    TokensStay(delay, w, e);
  }

  lemma {:induction false} InvRun(delay: nat, w: State, events: seq<Event>)
    requires Inv(delay, w)
    ensures Inv(delay, Run(delay, w, events))
    decreases |events|
  {
    if events != [] {
      InvStep(delay, w, events[0]);
      InvRun(delay, Step(delay, w, events[0]), events[1..]);
    }
  }

  lemma ReachableInv(delay: nat, w: State)
    requires Reachable(delay, w)
    ensures Inv(delay, w)
  {
    var events :| w == Run(delay, START, events);
    InvRun(delay, START, events);
  }
}
