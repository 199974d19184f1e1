// Principals are assembled from separate reads and then held, in the cache or in
// a signed token, while the directory goes on changing underneath.

module Snapshots {
  import opened Types
  import opened Directory

  datatype Principal = Principal(session: Id, owner: Owner, email: string, roles: set<string>, permissions: set<string>)

  /** How many of the reads have been made; the fields still to come are empty. */
  datatype Reader = Reader(made: nat, p: Principal)

  datatype State = State(tables: Tables, readers: map<Id, Reader>, held: set<Principal>)

  const START := State(EMPTY, map[], {})

  datatype Event =
    | Commit(after: Tables)                      // any operation of the directory
    | Begin(pid: Id, session: Id, owner: Owner)  // a session row, challenge or code names the owner
    | Read(pid: Id, arrived: set<string>)        // e-mail, then roles, then permissions
    | Hold(pid: Id)                              // put in the cache or sign into a token
    | Abort(pid: Id)

  /** Of the roles and the permissions, the names that arrived: the row loops take a result that
      breaks off for one that ended. */
  ghost function ReadNext(t: Tables, r: Reader, arrived: set<string>): Reader {
    if r.made == 0 && r.p.owner.identity in t.identities then
      Reader(1, r.p.(email := t.identities[r.p.owner.identity]))
    else if r.made == 1 then Reader(2, r.p.(roles := RolesOf(t, r.p.owner.user) * arrived))
    else if r.made == 2 then Reader(3, r.p.(permissions := PermissionsOf(t, r.p.owner.user) * arrived))
    else r
  }

  ghost function Step(w: State, e: Event): State {
    match e
    case Commit(after) => if Consistent(after) && Grows(w.tables, after) then w.(tables := after) else w
    case Begin(pid, session, owner) =>
      if pid !in w.readers && Owned(w.tables, owner) then
        w.(readers := w.readers[pid := Reader(0, Principal(session, owner, "", {}, {}))])
      else w
    case Read(pid, arrived) =>
      if pid in w.readers then w.(readers := w.readers[pid := ReadNext(w.tables, w.readers[pid], arrived)]) else w
    case Hold(pid) =>
      if pid in w.readers && w.readers[pid].made == 3 then w.(held := w.held + {w.readers[pid].p}) else w
    case Abort(pid) => w.(readers := map k | k in w.readers && k != pid :: w.readers[k])
  }

  ghost function Run(w: State, events: seq<Event>): State
    decreases |events|
  {
    if events == [] then w else Run(Step(w, events[0]), events[1..])
  }

  /** Of the fields read so far, the e-mail is the current one and the grants are still held. */
  ghost predicate Covered(t: Tables, p: Principal, made: nat) {
    && Owned(t, p.owner)
    && (made >= 1 ==> p.owner.identity in t.identities && t.identities[p.owner.identity] == p.email)
    && p.roles <= RolesOf(t, p.owner.user) && p.permissions <= PermissionsOf(t, p.owner.user)
  }

  ghost predicate Inv(w: State) {
    && (forall pid :: pid in w.readers ==> Covered(w.tables, w.readers[pid].p, w.readers[pid].made))
    && (forall p :: p in w.held ==> Covered(w.tables, p, 3))
  }

  lemma CoveredStays(t: Tables, u: Tables, p: Principal, made: nat)
    requires Grows(t, u) && Covered(t, p, made)
    ensures Covered(u, p, made)
  {
    OwnedStays(t, u, p.owner);
    GrantsGrow(t, u, p.owner.user);
  }

  lemma InvStep(w: State, e: Event)
    requires Inv(w)
    ensures Inv(Step(w, e)) && Grows(w.tables, Step(w, e).tables)
  {
    var v := Step(w, e);
    if v.tables != w.tables {
      forall pid | pid in v.readers ensures Covered(v.tables, v.readers[pid].p, v.readers[pid].made) {
        CoveredStays(w.tables, v.tables, w.readers[pid].p, w.readers[pid].made);
      }
      forall p | p in v.held ensures Covered(v.tables, p, 3) {
        CoveredStays(w.tables, v.tables, p, 3);
      }
    }
  }

  lemma {:induction false} InvRun(w: State, events: seq<Event>)
    requires Inv(w)
    ensures Inv(Run(w, events))
    decreases |events|
  {
    if events != [] {
      InvStep(w, events[0]);
      InvRun(Step(w, events[0]), events[1..]);
    }
  }

  /** A snapshot never over-grants, however old it is and whatever was committed between its reads
      and since: it agrees with a fresh read on whom it is about, and every role and permission in
      it is one a fresh read would find. */
  lemma SnapshotsNeverOverGrant(events: seq<Event>, p: Principal)
    requires p in Run(START, events).held
    ensures var t := Run(START, events).tables;
      && Owned(t, p.owner)
      && p.owner.identity in t.identities && t.identities[p.owner.identity] == p.email
      && p.roles <= RolesOf(t, p.owner.user)
      && p.permissions <= PermissionsOf(t, p.owner.user)
  {
    InvRun(START, events);
  }

  /** And it under-grants only for what is committed or broken off meanwhile: reads that all arrive and
      that nothing comes between give exactly what the tables hold. */
  lemma UndisturbedSnapshot(w: State, pid: Id, session: Id, owner: Owner, arrived: set<string>)
    requires pid !in w.readers && Owned(w.tables, owner) && owner.identity in w.tables.identities
    requires RolesOf(w.tables, owner.user) <= arrived && PermissionsOf(w.tables, owner.user) <= arrived
    ensures
      var r := Step(Step(Step(Step(w, Begin(pid, session, owner)), Read(pid, {})), Read(pid, arrived)), Read(pid, arrived));
      Step(r, Hold(pid)).held == w.held + {Principal(session, owner, w.tables.identities[owner.identity],
        RolesOf(w.tables, owner.user), PermissionsOf(w.tables, owner.user))}
  {
    hide RolesOf, PermissionsOf;
    assert RolesOf(w.tables, owner.user) * arrived == RolesOf(w.tables, owner.user);
    assert PermissionsOf(w.tables, owner.user) * arrived == PermissionsOf(w.tables, owner.user);
  }
}
