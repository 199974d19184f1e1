// What every interleaved run of the session protocol guarantees, and what a
// rotation does whatever runs beside it.

module SessionGuarantees {
  import opened Clock
  import opened Types
  import opened Sessions
  import opened SessionProtocol

  // ----- Guarantees over every run -----

  /** Once a session is revoked, nobody is let through as it for longer than an access token
      lives: not from the table, not from the cache, not with a token, whatever raced the
      revocation and whether or not the cache delete worked. */
  lemma RevocationBound(delay: nat, w: State, e: Event, id: Id)
    requires Reachable(delay, w) && Authenticates(delay, w, e, id) && id in w.revocations
    ensures w.now <= w.revocations[id] + ACCESS_TOKEN_TTL + delay
  {
    ReachableInv(delay, w);
    if e.Bearer? {
      assert TokenOk(delay, w, e.token);
    } else if e.HeaderPut? {
      assert ProcOk(w, w.procs[e.pid]);
    } else {
      assert EntryOk(delay, w, id, w.cache[id]);
    }
  }

  /** Whoever is let through by the session header, from the cache or past it, is let through on
      a row that was read no more than five minutes and a delay ago, when it was already inserted,
      not yet revoked and not yet expired; and the owner is the one in the table. */
  lemma HeaderIsRecent(delay: nat, w: State, e: Event, id: Id) returns (seenAt: Time, owner: Owner)
    requires Reachable(delay, w) && Authenticates(delay, w, e, id) && !e.Bearer?
    ensures w.now - PRINCIPAL_CACHE_TTL - delay <= seenAt <= w.now
    ensures SeenUsable(w, id, owner, seenAt)
    ensures e.CacheHit? ==> w.cache[id].owner == owner
    ensures e.HeaderPut? ==> w.procs[e.pid].row.owner == owner
  {
    ReachableInv(delay, w);
    if e.CacheHit? {
      assert EntryOk(delay, w, id, w.cache[id]);
      seenAt, owner := w.cache[id].seenAt, w.cache[id].owner;
    } else {
      assert ProcOk(w, w.procs[e.pid]);
      seenAt, owner := w.procs[e.pid].at, w.procs[e.pid].row.owner;
    }
  }

  /** The cache never outlives the table: cleanup cannot take the row behind a live entry. */
  lemma CacheCoveredByTable(delay: nat, w: State, id: Id)
    requires delay + PRINCIPAL_CACHE_TTL <= SESSION_RETENTION
    requires Reachable(delay, w) && id in w.cache && w.now < w.cache[id].expires
    ensures id in w.rows && w.rows[id].owner == w.cache[id].owner
  {
    ReachableInv(delay, w);
    assert EntryOk(delay, w, id, w.cache[id]);
  }

  lemma {:induction false} LineageOrdered(w: State, chain: seq<Id>, i: nat, j: nat)
    requires Forest(w) && Lineage(w.rows, chain) && i < j < |chain|
    ensures w.rows[chain[j]].owner == w.rows[chain[i]].owner
    ensures chain[i] in w.births && chain[j] in w.births
    ensures w.births[chain[j]].serial < w.births[chain[i]].serial
    ensures w.rows[chain[j]].revokedAt.Some?
    decreases j - i
  {
    assert IsChild(w.rows, chain[j - 1], chain[j]) && Hangs(w, chain[j - 1], chain[j]);
    if i < j - 1 {
      LineageOrdered(w, chain, i, j - 1);
    }
  }

  /** The rotation forest: parent links resolve and never form a cycle, a family has one owner,
      and every ancestor of every session is revoked, so an unrevoked session is a leaf. */
  lemma RotationForest(delay: nat, w: State, chain: seq<Id>)
    requires Reachable(delay, w)
    ensures Resolved(w.rows)
    ensures var rows := w.rows; Lineage(rows, chain) ==>
      && (forall i, j :: 0 <= i < j < |chain| ==> chain[i] != chain[j])
      && (forall i :: 0 <= i < |chain| ==> rows[chain[i]].owner == rows[chain[0]].owner)
      && (forall i :: 0 < i < |chain| ==> rows[chain[i]].revokedAt.Some?)
  {
    ReachableInv(delay, w);
    forall id | id in w.rows && w.rows[id].parent.Some? ensures w.rows[id].parent.value in w.rows {
      assert IsChild(w.rows, id, w.rows[id].parent.value);
    }
    if Lineage(w.rows, chain) {
      forall i: nat, j: nat | i < j < |chain| ensures chain[i] != chain[j] {
        LineageOrdered(w, chain, i, j);
      }
      forall i | 0 < i < |chain|
        ensures w.rows[chain[i]].owner == w.rows[chain[0]].owner && w.rows[chain[i]].revokedAt.Some?
      {
        LineageOrdered(w, chain, 0, i);
      }
    }
  }

  /** A cleanup that read its cutoff long ago and runs only now still deletes no usable row. */
  lemma CleanupSparesUsable(delay: nat, w: State, pid: Id, id: Id)
    requires Reachable(delay, w) && id in w.rows && id !in Step(delay, w, SweepDelete(pid)).rows
    ensures !Usable(w.rows[id], w.now - SESSION_RETENTION) && !Usable(w.rows[id], w.now)
  {
    ReachableInv(delay, w);
    SweepTakesOnlyOld(w, pid, id);
  }

  lemma SweepTakesOnlyOld(w: State, pid: Id, id: Id)
    requires pid in w.procs && ProcOk(w, w.procs[pid]) && id in w.rows && id !in SweepStep(w, pid).rows
    ensures !Usable(w.rows[id], w.now - SESSION_RETENTION)
  {
  }

  // ----- Rotation under concurrency -----

  predicate Mentions(e: Event, pid: Id) {
    !e.Tick? && !e.Evict? && !e.CacheHit? && !e.Bearer? && e.pid == pid
  }

  lemma StepLeavesAlone(delay: nat, w: State, e: Event, pid: Id)
    requires pid in w.procs && !Mentions(e, pid)
    ensures pid in Step(delay, w, e).procs && Step(delay, w, e).procs[pid] == w.procs[pid]
  {
  }

  lemma {:induction false} OthersLeaveAlone(delay: nat, w: State, events: seq<Event>, pid: Id)
    requires pid in w.procs
    requires forall i :: 0 <= i < |events| ==> !Mentions(events[i], pid)
    ensures pid in Run(delay, w, events).procs && Run(delay, w, events).procs[pid] == w.procs[pid]
    decreases |events|
  {
    if events != [] {
      StepLeavesAlone(delay, w, events[0], pid);
      OthersLeaveAlone(delay, Step(delay, w, events[0]), events[1..], pid);
    }
  }

  lemma CheckDecides(delay: nat, u: State, pid: Id)
    requires pid in u.procs && u.procs[pid].Looked?
    ensures var v := Step(delay, u, Check(pid));
      (pid in v.procs && v.procs[pid].Checked?) <==> Usable(u.procs[pid].row, u.now)
  {
  }

  /** Whatever other requests do in between, a refresh gets past its checks exactly when the
      session was unrevoked at the moment it was looked up and has not expired at the check. */
  lemma RefreshDecidedAtLookup(delay: nat, w: State, pid: Id, id: Id, viaGrant: bool, between: seq<Event>)
    requires Reachable(delay, w) && id in w.rows && pid !in w.procs
    requires forall i :: 0 <= i < |between| ==> !Mentions(between[i], pid)
    ensures
      var u := Run(delay, Step(delay, w, Lookup(pid, id, viaGrant)), between);
      var v := Step(delay, u, Check(pid));
      (pid in v.procs && v.procs[pid].Checked?) <==> (id !in w.revocations && u.now <= w.rows[id].expiresAt)
  {
    ReachableInv(delay, w);
    var looked := Step(delay, w, Lookup(pid, id, viaGrant));
    assert looked.procs[pid] == Looked(id, w.rows[id], w.now, viaGrant);
    OthersLeaveAlone(delay, looked, between, pid);
    CheckDecides(delay, Run(delay, looked, between), pid);
  }

  /** What a refresh past its checks still has to do. */
  function Rotation(pid: Id, child: Id, hash: Digest, works: bool): seq<Event> {
    [RevokeParent(pid), ForgetParent(pid, works), StampChild(pid, hash), InsertRow(pid, child)]
  }

  lemma RotationCompletes(delay: nat, w: State, pid: Id, child: Id, hash: Digest, works: bool)
    requires pid in w.procs && w.procs[pid].Checked? && w.procs[pid].id in w.rows
    requires child !in w.births && child !in w.rows
    ensures var v := Run(delay, w, Rotation(pid, child, hash, works));
      var p := w.procs[pid];
      && v.now == w.now
      && v.rows == RevokeRow(w.rows, p.id, w.now)[child := NewRow(p.row.owner, hash, Some(p.id), p.row.device, w.now)]
      && v.births == w.births[child := Birth(w.now, w.serial)]
      && v.procs == w.procs[pid := Minting(child, p.row.owner)]
      && v.cache == Forgotten(w, p.id, works && !p.viaGrant).cache
  {
    var p := w.procs[pid];
    var forgotten := Forgotten(Revoked(w, p.id), p.id, works && !p.viaGrant);
    var tail := [StampChild(pid, hash), InsertRow(pid, child)];
    ParentRetired(delay, w, pid, works, tail);
    ChildInserted(delay, Set(forgotten, pid, ParentForgotten(p.id, p.row)), pid, child, hash);
    assert Rotation(pid, child, hash, works) == [RevokeParent(pid), ForgetParent(pid, works)] + tail;
  }

  lemma ParentRetired(delay: nat, w: State, pid: Id, works: bool, rest: seq<Event>)
    requires pid in w.procs && w.procs[pid].Checked?
    ensures var p := w.procs[pid];
      var v := Set(Forgotten(Revoked(w, p.id), p.id, works && !p.viaGrant), pid, ParentForgotten(p.id, p.row));
      Run(delay, w, [RevokeParent(pid), ForgetParent(pid, works)] + rest) == Run(delay, v, rest)
  {
    var p := w.procs[pid];
    var w1 := Set(Revoked(w, p.id), pid, ParentRevoked(p.id, p.row, p.viaGrant));
    assert Step(delay, w, RevokeParent(pid)) == w1;
    var v := Set(Forgotten(Revoked(w, p.id), p.id, works && !p.viaGrant), pid, ParentForgotten(p.id, p.row));
    assert v.procs == w1.procs[pid := ParentForgotten(p.id, p.row)];
    RunTwo(delay, w, RevokeParent(pid), ForgetParent(pid, works), rest);
  }

  lemma ChildInserted(delay: nat, w: State, pid: Id, child: Id, hash: Digest)
    requires pid in w.procs && w.procs[pid].ParentForgotten? && w.procs[pid].id in w.rows
    requires child !in w.births && child !in w.rows
    ensures var p := w.procs[pid];
      var row := NewRow(p.row.owner, hash, Some(p.id), p.row.device, w.now);
      Run(delay, w, [StampChild(pid, hash), InsertRow(pid, child)]) ==
        Set(Inserted(w, child, row), pid, Minting(child, p.row.owner))
  {
    var p := w.procs[pid];
    var row := NewRow(p.row.owner, hash, Some(p.id), p.row.device, w.now);
    var w1 := Set(w, pid, Stamped(row));
    assert Step(delay, w, StampChild(pid, hash)) == w1;
    assert w1.procs[pid := Minting(child, p.row.owner)] == w.procs[pid := Minting(child, p.row.owner)];
    RunTwo(delay, w, StampChild(pid, hash), InsertRow(pid, child), []);
    assert [StampChild(pid, hash), InsertRow(pid, child)] + [] == [StampChild(pid, hash), InsertRow(pid, child)];
  }

  lemma RunTwo(delay: nat, w: State, a: Event, b: Event, rest: seq<Event>)
    ensures Run(delay, w, [a, b] + rest) == Run(delay, Step(delay, Step(delay, w, a), b), rest)
  {
    assert ([a, b] + rest)[1..] == [b] + rest && ([b] + rest)[1..] == rest;
  }

  /** The lookup and the revocation are separate statements, so two overlapping refreshes of one
      session both succeed: from any state with both past their checks, both children end up live. */
  lemma OverlappingRefreshesFork(delay: nat, w: State, p: Id, q: Id, a: Id, b: Id, ha: Digest, hb: Digest)
    requires p != q && a != b && p in w.procs && q in w.procs
    requires w.procs[p].Checked? && w.procs[q].Checked? && w.procs[p].id == w.procs[q].id
    requires w.procs[p].id in w.rows && {a, b} !! w.births.Keys && {a, b} !! w.rows.Keys
    ensures var v := Run(delay, Run(delay, w, Rotation(p, a, ha, true)), Rotation(q, b, hb, true));
      && IsChild(v.rows, a, w.procs[p].id) && Usable(v.rows[a], v.now)
      && IsChild(v.rows, b, w.procs[p].id) && Usable(v.rows[b], v.now)
  {
    RotationCompletes(delay, w, p, a, ha, true);
    RotationCompletes(delay, Run(delay, w, Rotation(p, a, ha, true)), q, b, hb, true);
  }
}
