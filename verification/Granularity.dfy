// The two granularities agree: the steps of one request of the interleaved
// model, run without interruption, do to the table, the cache and the tokens
// what the atomic request does.

module Granularity {
  import opened Clock
  import opened Types
  import opened Sessions
  import opened Requests
  import SP = SessionProtocol
  import SG = SessionGuarantees

  ghost predicate SameCache(fine: map<Id, SP.Entry>, coarse: map<Id, Expiring<Owner>>, now: Time) {
    && (forall id :: id in coarse <==> id in fine && now < fine[id].expires)
    && (forall id :: id in coarse ==> coarse[id] == Expiring(fine[id].owner, fine[id].expires))
  }

  /** Both models are in the same state, as far as sessions go. */
  ghost predicate Matches(w: SP.State, s: World) {
    && w.now == s.now && w.rows == s.rows && w.tokens == s.tokens && SameCache(w.cache, s.cache, w.now)
    && w.rows.Keys <= s.history.drawn && w.births.Keys <= s.history.drawn
  }

  /** Events of a request that is over change nothing. */
  lemma {:induction false} Idle(delay: nat, w: SP.State, events: seq<SP.Event>)
    requires forall i :: 0 <= i < |events| ==> Continues(events[i]) && events[i].pid !in w.procs
    ensures SP.Run(delay, w, events) == w
    decreases |events|
  {
    if events != [] {
      assert SP.Step(delay, w, events[0]) == w;
      Idle(delay, w, events[1..]);
    }
  }

  lemma IdleOne(delay: nat, w: SP.State, e: SP.Event)
    requires Continues(e) && e.pid !in w.procs
    ensures SP.Step(delay, w, e) == w
  {
  }

  predicate Continues(e: SP.Event) {
    e.Check? || e.RevokeParent? || e.ForgetParent? || e.StampChild? || e.InsertRow? || e.IssueToken?
    || e.LogoutRevoke? || e.LogoutForget? || e.HeaderCheck? || e.HeaderPut? || e.SweepDelete?
  }

  lemma {:induction false} RunConcat(delay: nat, w: SP.State, a: seq<SP.Event>, b: seq<SP.Event>)
    ensures SP.Run(delay, w, a + b) == SP.Run(delay, SP.Run(delay, w, a), b)
    decreases |a|
  {
    if a != [] {
      assert (a + b)[0] == a[0] && (a + b)[1..] == a[1..] + b;
      RunConcat(delay, SP.Step(delay, w, a[0]), a[1..], b);
    } else {
      assert a + b == b;
    }
  }

  lemma RunTwo(delay: nat, w: SP.State, a: SP.Event, b: SP.Event)
    ensures SP.Run(delay, w, [a, b]) == SP.Step(delay, SP.Step(delay, w, a), b)
  {
    SG.RunTwo(delay, w, a, b, []);
    assert [a, b] + [] == [a, b];
  }

  lemma RunOne(delay: nat, w: SP.State, a: SP.Event)
    ensures SP.Run(delay, w, [a]) == SP.Step(delay, w, a)
  {
  }

  // ----- Rotation -----

  function RefreshSteps(pid: Id, id: Id, viaGrant: bool, d: Draw, works: bool): seq<SP.Event> {
    [SP.Lookup(pid, id, viaGrant), SP.Check(pid)] + (SG.Rotation(pid, d.session, Sha256(d.refresh), works) + [SP.IssueToken(pid, false)])
  }

  /** The session was still usable: its lookup and check lead on to the rotation. */
  lemma CheckPasses(delay: nat, w: SP.State, pid: Id, id: Id, viaGrant: bool)
    requires pid !in w.procs && id in w.rows
    ensures var v := SP.Run(delay, w, [SP.Lookup(pid, id, viaGrant), SP.Check(pid)]);
      if Usable(w.rows[id], w.now) then v == w.(procs := w.procs[pid := SP.Checked(id, w.rows[id], w.now, viaGrant)])
      else v == w
  {
    var looked := w.(procs := w.procs[pid := SP.Looked(id, w.rows[id], w.now, viaGrant)]);
    assert SP.Step(delay, w, SP.Lookup(pid, id, viaGrant)) == looked;
    RunTwo(delay, w, SP.Lookup(pid, id, viaGrant), SP.Check(pid));
    assert looked.procs[pid := SP.Checked(id, w.rows[id], w.now, viaGrant)]
        == w.procs[pid := SP.Checked(id, w.rows[id], w.now, viaGrant)];
    assert Without(looked.procs, pid) == w.procs;
  }

  lemma Issued(delay: nat, w: SP.State, pid: Id)
    requires pid in w.procs && w.procs[pid].Minting? && w.procs[pid].id in w.births
    requires w.births[w.procs[pid].id].at == w.now
    ensures SP.Run(delay, w, [SP.IssueToken(pid, false)]) ==
      w.(procs := Without(w.procs, pid), tokens := w.tokens + {AccessToken(w.procs[pid].id, w.procs[pid].owner, w.now)})
  {
    RunOne(delay, w, SP.IssueToken(pid, false));
  }

  /** The closed form of an uninterrupted rotation. */
  function AfterRotation(w: SP.State, id: Id, d: Draw, forgets: bool): SP.State
    requires id in w.rows
  {
    var row := NewRow(w.rows[id].owner, Sha256(d.refresh), Some(id), w.rows[id].device, w.now);
    var w' := SP.Inserted(SP.Forgotten(SP.Revoked(w, id), id, forgets), d.session, row);
    w'.(tokens := w.tokens + {AccessToken(d.session, row.owner, w.now)})
  }

  lemma RefreshRun(delay: nat, w: SP.State, pid: Id, id: Id, viaGrant: bool, d: Draw, works: bool)
    requires pid !in w.procs && id in w.rows && d.session !in w.births && d.session !in w.rows
    ensures
      var v := SP.Run(delay, w, RefreshSteps(pid, id, viaGrant, d, works));
      && v.procs == w.procs && v.now == w.now
      && (if Usable(w.rows[id], w.now) then
            var u := AfterRotation(w, id, d, works && !viaGrant);
            v.rows == u.rows && v.births == u.births && v.cache == u.cache && v.tokens == u.tokens
          else v == w)
  {
    hide SP.Step;
    var rotation := SG.Rotation(pid, d.session, Sha256(d.refresh), works);
    var first := [SP.Lookup(pid, id, viaGrant), SP.Check(pid)];
    RunConcat(delay, w, first, rotation + [SP.IssueToken(pid, false)]);
    CheckPasses(delay, w, pid, id, viaGrant);
    if Usable(w.rows[id], w.now) {
      var checked := SP.Run(delay, w, first);
      RotationRun(delay, checked, pid, d, works);
      assert Without(checked.procs, pid) == w.procs;
    } else {
      Idle(delay, w, rotation + [SP.IssueToken(pid, false)]);
    }
  }

  lemma RotationRun(delay: nat, w: SP.State, pid: Id, d: Draw, works: bool)
    requires pid in w.procs && w.procs[pid].Checked? && w.procs[pid].id in w.rows
    requires d.session !in w.births && d.session !in w.rows && w.procs[pid].row == w.rows[w.procs[pid].id]
    ensures
      var p := w.procs[pid];
      var v := SP.Run(delay, w, SG.Rotation(pid, d.session, Sha256(d.refresh), works) + [SP.IssueToken(pid, false)]);
      var u := AfterRotation(w, p.id, d, works && !p.viaGrant);
      && v.now == w.now && v.rows == u.rows && v.births == u.births && v.cache == u.cache
      && v.tokens == u.tokens && v.procs == Without(w.procs, pid)
  {
    hide SP.Step, SP.Run, SG.Rotation;
    var rotation := SG.Rotation(pid, d.session, Sha256(d.refresh), works);
    RunConcat(delay, w, rotation, [SP.IssueToken(pid, false)]);
    SG.RotationCompletes(delay, w, pid, d.session, Sha256(d.refresh), works);
    RotationKeepsTokens(delay, w, pid, d, works);
    Issued(delay, SP.Run(delay, w, rotation), pid);
    assert Without(SP.Run(delay, w, rotation).procs, pid) == Without(w.procs, pid);
  }

  lemma RotationKeepsTokens(delay: nat, w: SP.State, pid: Id, d: Draw, works: bool)
    ensures SP.Run(delay, w, SG.Rotation(pid, d.session, Sha256(d.refresh), works)).tokens == w.tokens
  {
    KeepTokens(delay, w, SG.Rotation(pid, d.session, Sha256(d.refresh), works));
  }

  lemma {:induction false} KeepTokens(delay: nat, w: SP.State, events: seq<SP.Event>)
    requires forall i :: 0 <= i < |events| ==> !events[i].IssueToken?
    ensures SP.Run(delay, w, events).tokens == w.tokens
    decreases |events|
  {
    if events != [] {
      KeepTokens(delay, SP.Step(delay, w, events[0]), events[1..]);
    }
  }

  lemma RotationMatches(w: SP.State, s: World, v: SP.State, id: Id, refresh: Id, d: Draw, forgets: bool, denial: Failure)
    requires Matches(w, s) && ByHash(s.rows, Sha256(refresh)) == Some(id) && Fresh(s, d)
    requires v.now == w.now
    requires if Usable(w.rows[id], w.now) then
        var u := AfterRotation(w, id, d, forgets);
        v.rows == u.rows && v.births == u.births && v.cache == u.cache && v.tokens == u.tokens
      else v == w
    ensures Matches(v, Rotate(s, refresh, d, forgets, denial, {}).world)
  {
  }

  /** What a refresh does once it has looked the token up; one that finds no row is over. */
  function RefreshRequest(pid: Id, found: Option<Id>, viaGrant: bool, d: Draw, works: bool): seq<SP.Event> {
    if found.None? then [] else RefreshSteps(pid, found.value, viaGrant, d, works)
  }

  /** Lookup, check, revoke, forget, stamp, insert, issue: in one go they are the atomic rotation,
      refused when the atomic one is refused. */
  lemma UninterruptedRefresh(delay: nat, w: SP.State, s: World, pid: Id, refresh: Id, d: Draw, viaGrant: bool, works: bool,
                             denial: Failure)
    requires Matches(w, s) && pid !in w.procs && Fresh(s, d)
    ensures
      var v := SP.Run(delay, w, RefreshRequest(pid, ByHash(s.rows, Sha256(refresh)), viaGrant, d, works));
      Matches(v, Rotate(s, refresh, d, works && !viaGrant, denial, {}).world) && v.procs == w.procs
  {
    hide SP.Step, RefreshSteps, AfterRotation, SameCache;
    var found := ByHash(s.rows, Sha256(refresh));
    if found.Some? {
      hide SP.Run, Rotate;
      var id := found.value;
      RefreshRun(delay, w, pid, id, viaGrant, d, works);
      RotationMatches(w, s, SP.Run(delay, w, RefreshSteps(pid, id, viaGrant, d, works)), id, refresh, d, works && !viaGrant, denial);
    }
  }

  // ----- Logout, the session header, new roots, cleanup -----

  function LogoutSteps(pid: Id, id: Id, works: bool): seq<SP.Event> {
    [SP.LogoutLookup(pid, id), SP.LogoutRevoke(pid)] + [SP.LogoutForget(pid, works)]
  }

  function AfterLogout(w: SP.State, id: Id, works: bool): SP.State {
    if id !in w.rows then w
    else SP.Forgotten(if w.rows[id].revokedAt.None? then SP.Revoked(w, id) else w, id, works)
  }

  /** A lookup that finds no row starts nothing. */
  lemma NothingFound(delay: nat, w: SP.State, e: SP.Event)
    requires (e.LogoutLookup? || e.HeaderLookup?) && e.id !in w.rows
    ensures SP.Step(delay, w, e) == w
  {
  }

  lemma LogoutLooks(delay: nat, w: SP.State, pid: Id, id: Id)
    requires pid !in w.procs && id in w.rows
    ensures SP.Step(delay, w, SP.LogoutLookup(pid, id)) == SP.Set(w, pid, SP.LogoutLooked(id, w.rows[id]))
  {
  }

  lemma LogoutRevokes(delay: nat, w: SP.State, pid: Id)
    requires pid in w.procs && w.procs[pid].LogoutLooked?
    ensures var p := w.procs[pid];
      SP.Step(delay, w, SP.LogoutRevoke(pid)) ==
        SP.Set(if p.row.revokedAt.None? then SP.Revoked(w, p.id) else w, pid, SP.LogoutRevoked(p.id))
  {
    hide SP.Revoked;
  }

  lemma LogoutForgets(delay: nat, w: SP.State, pid: Id, works: bool)
    requires pid in w.procs && w.procs[pid].LogoutRevoked?
    ensures SP.Step(delay, w, SP.LogoutForget(pid, works)) == SP.Done(SP.Forgotten(w, w.procs[pid].id, works), pid)
  {
    hide SP.Forgotten;
  }

  lemma LogoutOfRow(delay: nat, w: SP.State, pid: Id, id: Id, works: bool)
    requires pid !in w.procs && id in w.rows
    ensures SP.Run(delay, w, LogoutSteps(pid, id, works)) == AfterLogout(w, id, works)
  {
    hide SP.Step, RevokeRow;
    var looked := SP.Set(w, pid, SP.LogoutLooked(id, w.rows[id]));
    var revoked := SP.Set(if w.rows[id].revokedAt.None? then SP.Revoked(looked, id) else looked, pid, SP.LogoutRevoked(id));
    LogoutLooks(delay, w, pid, id);
    LogoutRevokes(delay, looked, pid);
    LogoutForgets(delay, revoked, pid, works);
    RunConcat(delay, w, [SP.LogoutLookup(pid, id), SP.LogoutRevoke(pid)], [SP.LogoutForget(pid, works)]);
    RunTwo(delay, w, SP.LogoutLookup(pid, id), SP.LogoutRevoke(pid));
    RunOne(delay, revoked, SP.LogoutForget(pid, works));
    assert Without(revoked.procs, pid) == w.procs;
  }

  lemma LogoutRun(delay: nat, w: SP.State, pid: Id, id: Id, works: bool)
    requires pid !in w.procs
    ensures SP.Run(delay, w, LogoutSteps(pid, id, works)) == AfterLogout(w, id, works)
  {
    hide SP.Step, SP.Forgotten, SP.Revoked;
    if id in w.rows {
      LogoutOfRow(delay, w, pid, id, works);
    } else {
      RunConcat(delay, w, [SP.LogoutLookup(pid, id), SP.LogoutRevoke(pid)], [SP.LogoutForget(pid, works)]);
      RunTwo(delay, w, SP.LogoutLookup(pid, id), SP.LogoutRevoke(pid));
      NothingFound(delay, w, SP.LogoutLookup(pid, id));
      IdleOne(delay, w, SP.LogoutRevoke(pid));
      Idle(delay, w, [SP.LogoutForget(pid, works)]);
    }
  }

  lemma CacheForgets(fine: map<Id, SP.Entry>, coarse: map<Id, Expiring<Owner>>, now: Time, id: Id)
    requires SameCache(fine, coarse, now)
    ensures SameCache(Without(fine, id), Without(coarse, id), now)
  {
  }

  lemma ForgetMatches(w: SP.State, s: World, id: Id, works: bool)
    requires Matches(w, s)
    ensures Matches(SP.Forgotten(w, id, works), Forget(s, id, works))
  {
    hide SameCache;
    CacheForgets(w.cache, s.cache, w.now, id);
  }

  lemma RevokeMatches(w: SP.State, s: World, id: Id)
    requires Matches(w, s)
    ensures Matches(SP.Revoked(w, id), Revoke(s, id))
  {
    hide SameCache;
  }

  lemma LogoutMatches(w: SP.State, s: World, id: Id, works: bool)
    requires Matches(w, s)
    ensures Matches(AfterLogout(w, id, works), Logout(s, id, works, {}).world)
  {
    hide SameCache, SP.Forgotten, SP.Revoked, Forget, Revoke;
    RevokeMatches(w, s, id);
    ForgetMatches(w, s, id, works);
    ForgetMatches(SP.Revoked(w, id), Revoke(s, id), id, works);
  }

  lemma UninterruptedLogout(delay: nat, w: SP.State, s: World, pid: Id, id: Id, works: bool)
    requires Matches(w, s) && pid !in w.procs
    ensures Matches(SP.Run(delay, w, LogoutSteps(pid, id, works)), Logout(s, id, works, {}).world)
  {
    hide SP.Step, SP.Run, LogoutSteps, Logout, AfterLogout, SameCache;
    LogoutRun(delay, w, pid, id, works);
    LogoutMatches(w, s, id, works);
  }

  lemma HeaderLooks(delay: nat, w: SP.State, pid: Id, id: Id)
    requires pid !in w.procs && id in w.rows
    ensures SP.Step(delay, w, SP.HeaderLookup(pid, id)) == SP.Set(w, pid, SP.HeaderLooked(id, w.rows[id], w.now))
  {
  }

  lemma HeaderChecks(delay: nat, w: SP.State, pid: Id)
    requires pid in w.procs && w.procs[pid].HeaderLooked?
    ensures var p := w.procs[pid];
      SP.Step(delay, w, SP.HeaderCheck(pid)) ==
        if Usable(p.row, w.now) then SP.Set(w, pid, SP.HeaderChecked(p.id, p.row, p.at)) else SP.Done(w, pid)
  {
  }

  lemma HeaderPuts(delay: nat, w: SP.State, pid: Id, works: bool)
    requires pid in w.procs && w.procs[pid].HeaderChecked? && w.now == w.procs[pid].at
    ensures var p := w.procs[pid];
      SP.Step(delay, w, SP.HeaderPut(pid, works)) ==
        SP.Done(if works then w.(cache := w.cache[p.id := SP.Entry(p.row.owner, w.now + PRINCIPAL_CACHE_TTL, w.now)]) else w, pid)
  {
  }

  lemma HeaderRun(delay: nat, w: SP.State, pid: Id, id: Id, works: bool)
    requires pid !in w.procs
    ensures
      var usable := id in w.rows && Usable(w.rows[id], w.now);
      var before := SP.Run(delay, w, [SP.HeaderLookup(pid, id), SP.HeaderCheck(pid)]);
      var v := SP.Run(delay, before, [SP.HeaderPut(pid, works)]);
      && v == (if works && usable
               then w.(cache := w.cache[id := SP.Entry(w.rows[id].owner, w.now + PRINCIPAL_CACHE_TTL, w.now)]) else w)
      && (SP.Authenticates(delay, before, SP.HeaderPut(pid, works), id) <==> usable)
  {
    hide SP.Step, Usable;
    RunTwo(delay, w, SP.HeaderLookup(pid, id), SP.HeaderCheck(pid));
    var before := SP.Run(delay, w, [SP.HeaderLookup(pid, id), SP.HeaderCheck(pid)]);
    if id in w.rows {
      var looked := SP.Set(w, pid, SP.HeaderLooked(id, w.rows[id], w.now));
      HeaderLooks(delay, w, pid, id);
      HeaderChecks(delay, looked, pid);
      assert Without(looked.procs, pid) == w.procs;
    } else {
      NothingFound(delay, w, SP.HeaderLookup(pid, id));
      IdleOne(delay, w, SP.HeaderCheck(pid));
    }
    if id in w.rows && Usable(w.rows[id], w.now) {
      HeaderPuts(delay, before, pid, works);
      RunOne(delay, before, SP.HeaderPut(pid, works));
      assert Without(before.procs, pid) == w.procs;
    } else {
      Idle(delay, before, [SP.HeaderPut(pid, works)]);
    }
  }

  /** A session header, hit or miss, is accepted in both models or in neither. */
  lemma UninterruptedHeader(delay: nat, w: SP.State, s: World, pid: Id, id: Id, works: bool)
    requires Matches(w, s) && pid !in w.procs
    ensures SP.Authenticates(delay, w, SP.CacheHit(id), id) <==> id in s.cache
    ensures id in s.cache ==> SessionHeader(s, id, true, {}) == Reply(s, Known(id, w.cache[id].owner))
    ensures id !in s.cache ==>
      var before := SP.Run(delay, w, [SP.HeaderLookup(pid, id), SP.HeaderCheck(pid)]);
      && Matches(SP.Run(delay, before, [SP.HeaderPut(pid, works)]), SessionHeader(s, id, works, {}).world)
      && (SP.Authenticates(delay, before, SP.HeaderPut(pid, works), id) <==> SessionHeader(s, id, works, {}).response.Known?)
  {
    hide SP.Step, SP.Run;
    HeaderRun(delay, w, pid, id, works);
  }

  function OpenSteps(pid: Id, owner: Owner, device: Device, d: Draw): seq<SP.Event> {
    [SP.StampRoot(pid, owner, Sha256(d.refresh), device), SP.InsertRow(pid, d.session)] + [SP.IssueToken(pid, false)]
  }

  lemma RootStamped(delay: nat, w: SP.State, pid: Id, owner: Owner, device: Device, hash: Digest)
    requires pid !in w.procs
    ensures SP.Step(delay, w, SP.StampRoot(pid, owner, hash, device))
         == SP.Set(w, pid, SP.Stamped(NewRow(owner, hash, None, device, w.now)))
  {
  }

  lemma RootInserted(delay: nat, w: SP.State, pid: Id, id: Id)
    requires pid in w.procs && w.procs[pid].Stamped? && w.procs[pid].row.parent.None? && id !in w.births && id !in w.rows
    ensures var row := w.procs[pid].row;
      SP.Step(delay, w, SP.InsertRow(pid, id)) == SP.Set(SP.Inserted(w, id, row), pid, SP.Minting(id, row.owner))
  {
    hide SP.Inserted;
  }

  lemma OpenRun(delay: nat, w: SP.State, pid: Id, owner: Owner, device: Device, d: Draw)
    requires pid !in w.procs && d.session !in w.births && d.session !in w.rows
    ensures SP.Run(delay, w, OpenSteps(pid, owner, device, d)) ==
      SP.Inserted(w, d.session, NewRow(owner, Sha256(d.refresh), None, device, w.now)).(
        tokens := w.tokens + {AccessToken(d.session, owner, w.now)})
  {
    hide SP.Step;
    var row := NewRow(owner, Sha256(d.refresh), None, device, w.now);
    var stamp, insert := SP.StampRoot(pid, owner, Sha256(d.refresh), device), SP.InsertRow(pid, d.session);
    var stamped := SP.Set(w, pid, SP.Stamped(row));
    var inserted := SP.Set(SP.Inserted(stamped, d.session, row), pid, SP.Minting(d.session, owner));
    RootStamped(delay, w, pid, owner, device, Sha256(d.refresh));
    RootInserted(delay, stamped, pid, d.session);
    RunConcat(delay, w, [stamp, insert], [SP.IssueToken(pid, false)]);
    RunTwo(delay, w, stamp, insert);
    Issued(delay, inserted, pid);
    assert Without(inserted.procs, pid) == w.procs;
  }

  lemma OpenMatches(w: SP.State, s: World, d: Draw, row: Session, origin: Origin, scope: string)
    requires Matches(w, s) && Fresh(s, d) && row.parent.None?
    ensures Matches(SP.Inserted(w, d.session, row).(tokens := w.tokens + {AccessToken(d.session, row.owner, w.now)}),
                    OpenSession(s, d, row, origin, scope, false, {}).world)
  {
  }

  lemma UninterruptedOpening(delay: nat, w: SP.State, s: World, pid: Id, owner: Owner, device: Device, d: Draw,
                             origin: Origin, scope: string)
    requires Matches(w, s) && pid !in w.procs && Fresh(s, d)
    ensures
      var row := NewRow(owner, Sha256(d.refresh), None, device, s.now);
      Matches(SP.Run(delay, w, OpenSteps(pid, owner, device, d)), OpenSession(s, d, row, origin, scope, false, {}).world)
  {
    hide SP.Step, SP.Run, OpenSteps, OpenSession, SP.Inserted, SameCache;
    OpenRun(delay, w, pid, owner, device, d);
    OpenMatches(w, s, d, NewRow(owner, Sha256(d.refresh), None, device, s.now), origin, scope);
  }

  lemma UninterruptedCleanup(delay: nat, env: Env, w: SP.State, s: World, pid: Id)
    requires Matches(w, s) && pid !in w.procs
    ensures Matches(SP.Run(delay, w, [SP.SweepStart(pid), SP.SweepDelete(pid)]), Handle(env, s, Cleanup({})).world)
  {
    hide Handle;
    CleanupStep(env, s, Cleanup({}));
    CleanupRun(delay, w, pid);
  }

  lemma SweepStarts(delay: nat, w: SP.State, pid: Id)
    requires pid !in w.procs
    ensures SP.Step(delay, w, SP.SweepStart(pid)) == SP.Set(w, pid, SP.Sweeping(w.now - SESSION_RETENTION))
  {
  }

  lemma SweepDeletes(delay: nat, w: SP.State, pid: Id)
    requires pid in w.procs && w.procs[pid].Sweeping?
    ensures SP.Step(delay, w, SP.SweepDelete(pid)) == SP.Done(SP.Swept(w, w.procs[pid].cutoff), pid)
  {
    hide Sweep;
  }

  lemma CleanupRun(delay: nat, w: SP.State, pid: Id)
    requires pid !in w.procs
    ensures SP.Run(delay, w, [SP.SweepStart(pid), SP.SweepDelete(pid)]) == SP.Swept(w, w.now - SESSION_RETENTION)
  {
    hide SP.Step, Sweep;
    var started := SP.Set(w, pid, SP.Sweeping(w.now - SESSION_RETENTION));
    SweepStarts(delay, w, pid);
    SweepDeletes(delay, started, pid);
    RunTwo(delay, w, SP.SweepStart(pid), SP.SweepDelete(pid));
    assert Without(started.procs, pid) == w.procs;
  }
}
