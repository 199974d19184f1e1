// When the session header of a session can still be accepted under concurrency,
// and what a logout or a refresh that has deleted the cache entry leaves open.

module HeaderAcceptance {
  import opened Clock
  import opened Types
  import opened Sessions
  import opened Granularity
  import Requests
  import Siblings
  import SP = SessionProtocol

  /** A header request under way that is accepted unless it is abandoned or too slow: it read the row
      while it was usable, or is past its check, and `delay` has not passed since the read. */
  predicate Bears(delay: nat, p: SP.Proc, id: Id, now: Time) {
    match p
    case HeaderLooked(i, row, at) => i == id && Usable(row, now) && now <= at + delay
    case HeaderChecked(i, _, at) => i == id && now <= at + delay
    case _ => false
  }

  ghost predicate Borne(delay: nat, w: SP.State, id: Id) {
    exists pid :: pid in w.procs && Bears(delay, w.procs[pid], id, w.now)
  }

  predicate Cached(w: SP.State, id: Id) {
    id in w.cache && w.now < w.cache[id].expires
  }

  ghost predicate Admissible(delay: nat, w: SP.State, id: Id) {
    (id in w.rows && Usable(w.rows[id], w.now)) || Cached(w, id) || Borne(delay, w, id)
  }

  /** After these events, this one lets a request through by the session header. */
  ghost predicate AcceptedAfter(delay: nat, w: SP.State, events: seq<SP.Event>, e: SP.Event, id: Id) {
    !e.Bearer? && SP.Authenticates(delay, SP.Run(delay, w, events), e, id)
  }

  ghost predicate LaterAccepted(delay: nat, w: SP.State, id: Id) {
    exists events, e :: AcceptedAfter(delay, w, events, e, id)
  }

  // ----- What is not admissible stays so -----

  lemma NoNewBearer(delay: nat, w: SP.State, e: SP.Event, id: Id, pid: Id)
    requires !Admissible(delay, w, id) && w.now <= SP.Step(delay, w, e).now
    requires pid in SP.Step(delay, w, e).procs
    ensures !Bears(delay, SP.Step(delay, w, e).procs[pid], id, SP.Step(delay, w, e).now)
  {
    hide SP.Step, Cached;
    var v := SP.Step(delay, w, e);
    SP.StepMovesOne(delay, w, e, pid);
    if pid in w.procs {
      assert !Bears(delay, w.procs[pid], id, w.now);
      if v.procs[pid] != w.procs[pid] {
        if e.InsertRow? {
          Siblings.InsertEndsCarrying(delay, w, e);
        } else {
          SP.MovesOn(delay, w, e);
        }
      }
    } else {
      StartsBearing(delay, w, e);
    }
  }

  lemma StartsBearing(delay: nat, w: SP.State, e: SP.Event)
    requires SP.Moves(e) && e.pid !in w.procs && e.pid in SP.Step(delay, w, e).procs
    ensures
      var next := SP.Step(delay, w, e).procs[e.pid];
      && SP.Step(delay, w, e).now == w.now && !next.HeaderChecked?
      && (next.HeaderLooked? ==> next.id in w.rows && next.row == w.rows[next.id])
  {
  }

  lemma NoNewEntry(delay: nat, w: SP.State, e: SP.Event, id: Id)
    requires !Borne(delay, w, id) && !Cached(w, id) && w.now <= SP.Step(delay, w, e).now
    ensures !Cached(SP.Step(delay, w, e), id)
  {
    hide SP.Step;
    var v := SP.Step(delay, w, e);
    if id in v.cache {
      SP.CacheChanges(delay, w, e, id);
      if !(id in w.cache && v.cache[id] == w.cache[id]) {
        assert !Bears(delay, w.procs[e.pid], id, w.now);
        PutNeedsBearer(delay, w, e, id);
      }
    }
  }

  lemma PutNeedsBearer(delay: nat, w: SP.State, e: SP.Event, id: Id)
    requires e.HeaderPut? && e.pid in w.procs && !Bears(delay, w.procs[e.pid], id, w.now)
    ensures var v := SP.Step(delay, w, e); id in v.cache ==> id in w.cache && v.cache[id] == w.cache[id]
  {
  }

  lemma StillRefused(delay: nat, w: SP.State, e: SP.Event, id: Id)
    requires SP.Inv(delay, w) && id in w.births && !Admissible(delay, w, id)
    ensures var v := SP.Step(delay, w, e); id in v.births && !Admissible(delay, v, id)
  {
    hide SP.Step, SP.Forest, SP.ProcsOk, SP.CacheOk, SP.TokensOk, SP.RowsOk, Bears, Cached;
    var v := SP.Step(delay, w, e);
    SP.StepEvolves(delay, w, e);
    assert id in v.rows ==> id in w.rows && SP.SameRow(w.rows[id], v.rows[id]);
    NoNewEntry(delay, w, e, id);
    forall pid | pid in v.procs ensures !Bears(delay, v.procs[pid], id, v.now) {
      NoNewBearer(delay, w, e, id, pid);
    }
  }

  lemma {:induction false} RefusedForGood(delay: nat, w: SP.State, events: seq<SP.Event>, id: Id)
    requires SP.Inv(delay, w) && id in w.births && !Admissible(delay, w, id)
    ensures !Admissible(delay, SP.Run(delay, w, events), id)
    decreases |events|
  {
    hide SP.Step, SP.Inv, Admissible;
    if events != [] {
      StillRefused(delay, w, events[0], id);
      SP.InvStep(delay, w, events[0]);
      RefusedForGood(delay, SP.Step(delay, w, events[0]), events[1..], id);
    }
  }

  // ----- What is admissible is accepted, in some continuation -----

  lemma UsableIsAccepted(delay: nat, w: SP.State, id: Id)
    requires id in w.rows && Usable(w.rows[id], w.now)
    ensures LaterAccepted(delay, w, id)
  {
    hide SP.Run, SP.Authenticates;
    var pid := Unused(w.procs.Keys);
    HeaderRun(delay, w, pid, id, true);
    var events := [SP.HeaderLookup(pid, id), SP.HeaderCheck(pid)];
    assert AcceptedAfter(delay, w, events, SP.HeaderPut(pid, true), id);
  }

  lemma BorneIsAccepted(delay: nat, w: SP.State, id: Id)
    requires Borne(delay, w, id)
    ensures LaterAccepted(delay, w, id)
  {
    hide SP.Run, SP.Step;
    var pid :| pid in w.procs && Bears(delay, w.procs[pid], id, w.now);
    var events := if w.procs[pid].HeaderLooked? then [SP.HeaderCheck(pid)] else [];
    if w.procs[pid].HeaderLooked? {
      HeaderChecks(delay, w, pid);
      RunOne(delay, w, SP.HeaderCheck(pid));
    } else {
      Idle(delay, w, []);
    }
    assert AcceptedAfter(delay, w, events, SP.HeaderPut(pid, true), id);
  }

  lemma CachedIsAccepted(delay: nat, w: SP.State, id: Id)
    requires Cached(w, id)
    ensures LaterAccepted(delay, w, id)
  {
    hide SP.Run;
    Idle(delay, w, []);
    assert AcceptedAfter(delay, w, [], SP.CacheHit(id), id);
  }

  lemma AcceptedIsAdmissible(delay: nat, w: SP.State, e: SP.Event, id: Id)
    requires !e.Bearer? && SP.Authenticates(delay, w, e, id)
    ensures Admissible(delay, w, id)
  {
    if e.HeaderPut? {
      assert Bears(delay, w.procs[e.pid], id, w.now);
    }
  }

  /** Exactly when a session's header can still be accepted, in every reachable state and over every
      continuation: its row is usable, its cache entry is live, or a header request that read the row
      while it was usable is still within `delay`. */
  lemma HeaderAcceptedIff(delay: nat, w: SP.State, id: Id)
    requires SP.Reachable(delay, w) && id in w.births
    ensures LaterAccepted(delay, w, id) <==> Admissible(delay, w, id)
  {
    hide SP.Run, SP.Inv, SP.Authenticates, Cached, Borne;
    SP.ReachableInv(delay, w);
    if Admissible(delay, w, id) {
      if id in w.rows && Usable(w.rows[id], w.now) {
        UsableIsAccepted(delay, w, id);
      } else if Cached(w, id) {
        CachedIsAccepted(delay, w, id);
      } else {
        BorneIsAccepted(delay, w, id);
      }
    } else {
      forall events, e | AcceptedAfter(delay, w, events, e, id) ensures false {
        RefusedForGood(delay, w, events, id);
        AcceptedIsAdmissible(delay, SP.Run(delay, w, events), e, id);
      }
    }
  }

  // ----- Logout and refresh -----

  /** The working cache delete of a logout, or of a `/refresh`, that has revoked this session. */
  predicate Forgets(w: SP.State, e: SP.Event, id: Id) {
    || (e.LogoutForget? && e.works && e.pid in w.procs && w.procs[e.pid] == SP.LogoutRevoked(id))
    || (e.ForgetParent? && e.works && e.pid in w.procs && w.procs[e.pid].ParentRevoked?
        && w.procs[e.pid].id == id && !w.procs[e.pid].viaGrant)
  }

  lemma ForgetStep(delay: nat, w: SP.State, e: SP.Event, id: Id)
    requires Forgets(w, e, id)
    ensures var v := SP.Step(delay, w, e);
      id !in v.cache && v.now == w.now && v.births == w.births && v.rows == w.rows
      && v.revocations == w.revocations && SP.Alone(w, v, e.pid)
      && (e.pid in v.procs ==> v.procs[e.pid].ParentForgotten?)
  {
  }

  lemma ForgottenIsRetired(delay: nat, w: SP.State, e: SP.Event, id: Id)
    requires SP.Inv(delay, w) && Forgets(w, e, id)
    ensures id in w.births && (id in w.rows ==> w.rows[id].revokedAt.Some?)
  {
    assert SP.ProcOk(w, w.procs[e.pid]);
  }

  lemma SameBearers(delay: nat, w: SP.State, e: SP.Event, id: Id)
    requires Forgets(w, e, id)
    ensures Borne(delay, SP.Step(delay, w, e), id) <==> Borne(delay, w, id)
  {
    hide SP.Step;
    ForgetStep(delay, w, e, id);
    var v := SP.Step(delay, w, e);
    if pid :| pid in w.procs && Bears(delay, w.procs[pid], id, w.now) {
      assert pid in v.procs && Bears(delay, v.procs[pid], id, v.now);
    }
  }

  /** From the moment a logout or a `/refresh` has deleted the entry of the session it revoked, the
      session's header is accepted in some continuation exactly when a header request that was under
      way still carries the row it read before the revocation. */
  lemma AfterForgetIff(delay: nat, w: SP.State, e: SP.Event, id: Id)
    requires SP.Reachable(delay, w) && Forgets(w, e, id)
    ensures LaterAccepted(delay, SP.Step(delay, w, e), id) <==> Borne(delay, w, id)
  {
    hide SP.Step, SP.Run, SP.Inv, LaterAccepted, Borne;
    SP.ReachableInv(delay, w);
    ForgottenIsRetired(delay, w, e, id);
    ForgetStep(delay, w, e, id);
    Siblings.Onward(delay, w, [e]);
    RunOne(delay, w, e);
    SameBearers(delay, w, e, id);
    HeaderAcceptedIff(delay, SP.Step(delay, w, e), id);
  }

  /** So such a delete is final as soon as `delay` has passed since the session was first revoked. */
  lemma LateForgetIsFinal(delay: nat, w: SP.State, e: SP.Event, id: Id)
    requires SP.Reachable(delay, w) && Forgets(w, e, id)
    requires id in w.revocations && w.revocations[id] + delay < w.now
    ensures !LaterAccepted(delay, SP.Step(delay, w, e), id)
  {
    hide SP.Step, LaterAccepted;
    SP.ReachableInv(delay, w);
    AfterForgetIff(delay, w, e, id);
    forall pid | pid in w.procs ensures !Bears(delay, w.procs[pid], id, w.now) {
      assert SP.ProcOk(w, w.procs[pid]);
    }
  }

  /** Before that it need not be: a header request can fill the cache after the logout emptied it. */
  lemma LogoutCanBeOutrun(delay: nat)
    ensures exists w, e: SP.Event, id ::
      && SP.Reachable(delay, w) && e.LogoutForget? && Forgets(w, e, id)
      && LaterAccepted(delay, SP.Step(delay, w, e), id)
  {
    hide SP.Run, SP.Step, LaterAccepted;
    var owner, device, d := Owner(1, 2, 3), Device(None, ""), Requests.Draw(10, 20, 30);
    assert SP.Reachable(delay, SP.START) by {
      Idle(delay, SP.START, []);
    }
    OpenRun(delay, SP.START, 1, owner, device, d);
    var root := SP.Run(delay, SP.START, OpenSteps(1, owner, device, d));
    Siblings.Onward(delay, SP.START, OpenSteps(1, owner, device, d));
    var reading := [SP.HeaderLookup(4, 10), SP.HeaderCheck(4)];
    HeaderReads(delay, root, 4, 10);
    Siblings.Onward(delay, root, reading);
    var read := SP.Run(delay, root, reading);
    var leaving := [SP.LogoutLookup(5, 10), SP.LogoutRevoke(5)];
    RunTwo(delay, read, SP.LogoutLookup(5, 10), SP.LogoutRevoke(5));
    LogoutLooks(delay, read, 5, 10);
    LogoutRevokes(delay, SP.Step(delay, read, SP.LogoutLookup(5, 10)), 5);
    Siblings.Onward(delay, read, leaving);
    var w := SP.Run(delay, read, leaving);
    assert 4 in w.procs && Bears(delay, w.procs[4], 10, w.now);
    AfterForgetIff(delay, w, SP.LogoutForget(5, true), 10);
  }

  lemma HeaderReads(delay: nat, w: SP.State, pid: Id, id: Id)
    requires pid !in w.procs && id in w.rows && Usable(w.rows[id], w.now)
    ensures SP.Run(delay, w, [SP.HeaderLookup(pid, id), SP.HeaderCheck(pid)])
         == SP.Set(w, pid, SP.HeaderChecked(id, w.rows[id], w.now))
  {
    hide SP.Step;
    RunTwo(delay, w, SP.HeaderLookup(pid, id), SP.HeaderCheck(pid));
    HeaderLooks(delay, w, pid, id);
    HeaderChecks(delay, SP.Step(delay, w, SP.HeaderLookup(pid, id)), pid);
  }
}
