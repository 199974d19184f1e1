// Refresh-token rotation when requests are served one at a time: a family is a
// single chain with one live end.

module SerialRotation {
  import opened Clock
  import opened Types
  import opened Sessions
  import opened Requests
  import opened Effects

  ghost predicate RowOk(row: Session, drawn: set<Id>, now: Time) {
    && row.refreshHash.preimage in drawn
    && row.expiresAt == row.createdAt + REFRESH_TOKEN_TTL && row.createdAt <= now
    && (row.revokedAt.Some? ==> row.createdAt <= row.revokedAt.value <= now)
  }

  ghost predicate RowsOk(rows: Rows, drawn: set<Id>, now: Time) {
    forall id :: id in rows ==> RowOk(rows[id], drawn, now)
  }

  ghost predicate RootsOk(rows: Rows, roots: map<Id, Id>, drawn: set<Id>) {
    && (forall id :: id in rows ==> id in roots)
    && (forall id :: id in roots ==> id in drawn && roots[id] in drawn)
  }

  /** A parent was still usable when its child was created, and has been revoked since. */
  ghost predicate Follows(rows: Rows, roots: map<Id, Id>, child: Id, parent: Id) {
    && child in rows && parent in rows && rows[parent].revokedAt.Some?
    && rows[child].owner == rows[parent].owner && rows[child].createdAt <= rows[parent].expiresAt
    && child in roots && parent in roots && roots[child] == roots[parent]
  }

  ghost predicate ParentsOk(rows: Rows, roots: map<Id, Id>) {
    forall child, parent :: IsChild(rows, child, parent) ==> Follows(rows, roots, child, parent)
  }

  ghost predicate OneChild(rows: Rows) {
    forall a, b, parent :: IsChild(rows, a, parent) && IsChild(rows, b, parent) ==> a == b
  }

  ghost predicate OneLive(rows: Rows, roots: map<Id, Id>) {
    forall a, b ::
      (&& a in rows && b in rows && a in roots && b in roots && roots[a] == roots[b]
       && rows[a].revokedAt.None? && rows[b].revokedAt.None?) ==> a == b
  }

  ghost predicate Inv(w: World) {
    && RowsOk(w.rows, w.history.drawn, w.now) && RootsOk(w.rows, w.history.roots, w.history.drawn)
    && ParentsOk(w.rows, w.history.roots) && OneChild(w.rows) && OneLive(w.rows, w.history.roots)
    && UniqueHashes(w.rows)
  }

  /** The same, of the table an effect leaves behind. */
  ghost predicate After(w: World, e: Effect) {
    var rows, roots, drawn := RowsAfter(w, e), RootsAfter(w, e), DrawnAfter(w, e);
    && RowsOk(rows, drawn, w.now) && RootsOk(rows, roots, drawn)
    && ParentsOk(rows, roots) && OneChild(rows) && OneLive(rows, roots) && UniqueHashes(rows)
  }

  lemma RetiredParents(rows: Rows, roots: map<Id, Id>, id: Id, now: Time)
    requires ParentsOk(rows, roots) && OneChild(rows)
    ensures ParentsOk(RevokeRow(rows, id, now), roots) && OneChild(RevokeRow(rows, id, now))
  {
    var after := RevokeRow(rows, id, now);
    forall c, p | IsChild(after, c, p) ensures Follows(after, roots, c, p) {
      assert IsChild(rows, c, p);
    }
    forall a, b, p | IsChild(after, a, p) && IsChild(after, b, p) ensures a == b {
      assert IsChild(rows, a, p) && IsChild(rows, b, p);
    }
  }

  lemma AfterRetire(w: World, id: Id)
    requires Inv(w)
    ensures After(w, Retire(id))
  {
    RetiredParents(w.rows, w.history.roots, id, w.now);
  }

  lemma InsertedRows(rows: Rows, roots: map<Id, Id>, drawn: set<Id>, now: Time, d: Draw, row: Session, root: Id)
    requires RowsOk(rows, drawn, now) && RootsOk(rows, roots, drawn) && UniqueHashes(rows)
    requires d.session !in drawn && d.refresh !in drawn && (root in drawn || root == d.session)
    requires row.refreshHash == Sha256(d.refresh) && row.createdAt == now && row.revokedAt.None?
    requires row.expiresAt == now + REFRESH_TOKEN_TTL
    ensures var drawn' := drawn + {d.session, d.refresh};
      && RowsOk(rows[d.session := row], drawn', now)
      && RootsOk(rows[d.session := row], roots[d.session := root], drawn')
      && UniqueHashes(rows[d.session := row])
  {
  }

  lemma InsertedParents(rows: Rows, roots: map<Id, Id>, id: Id, row: Session, root: Id)
    requires ParentsOk(rows, roots) && OneChild(rows) && id !in rows && id !in roots
    requires row.parent.Some? ==>
      var p := row.parent.value;
      && p in rows && rows[p].revokedAt.Some? && rows[p].owner == row.owner
      && row.createdAt <= rows[p].expiresAt && p in roots && root == roots[p]
      && forall c :: !IsChild(rows, c, p)
    ensures ParentsOk(rows[id := row], roots[id := root]) && OneChild(rows[id := row])
  {
    var rows', roots' := rows[id := row], roots[id := root];
    forall c, p | IsChild(rows', c, p) ensures Follows(rows', roots', c, p) {
      if c != id {
        assert IsChild(rows, c, p) && Follows(rows, roots, c, p);
      }
    }
    forall a, b, p | IsChild(rows', a, p) && IsChild(rows', b, p) ensures a == b {
      assert a != id ==> IsChild(rows, a, p);
      assert b != id ==> IsChild(rows, b, p);
    }
  }

  lemma InsertedLive(rows: Rows, roots: map<Id, Id>, id: Id, row: Session, root: Id)
    requires OneLive(rows, roots) && id !in rows
    requires forall a :: a in rows && a in roots && roots[a] == root ==> rows[a].revokedAt.Some?
    ensures OneLive(rows[id := row], roots[id := root])
  {
  }

  lemma AfterRoot(w: World, d: Draw, row: Session)
    requires Inv(w) && Legitimate(w, Root(d, row))
    ensures After(w, Root(d, row))
  {
    var h := w.history;
    InsertedRows(w.rows, h.roots, h.drawn, w.now, d, row, d.session);
    InsertedParents(w.rows, h.roots, d.session, row, d.session);
    InsertedLive(w.rows, h.roots, d.session, row, d.session);
  }

  lemma NoChildYet(rows: Rows, roots: map<Id, Id>, p: Id, now: Time)
    requires ParentsOk(rows, roots) && p in rows && rows[p].revokedAt.None?
    ensures forall c :: !IsChild(RevokeRow(rows, p, now), c, p)
  {
    forall c ensures !IsChild(RevokeRow(rows, p, now), c, p) {
      assert IsChild(rows, c, p) ==> Follows(rows, roots, c, p);
    }
  }

  lemma AfterChild(w: World, p: Id, d: Draw, row: Session)
    requires Inv(w) && Legitimate(w, Child(p, d, row))
    ensures After(w, Child(p, d, row))
  {
    var h, rows := w.history, RevokeRow(w.rows, p, w.now);
    AfterRetire(w, p);
    assert RootOf(h.roots, d.session, row) == h.roots[p];
    NoChildYet(w.rows, h.roots, p, w.now);
    InsertedRows(rows, h.roots, h.drawn, w.now, d, row, h.roots[p]);
    InsertedParents(rows, h.roots, d.session, row, h.roots[p]);
    InsertedLive(rows, h.roots, d.session, row, h.roots[p]);
  }

  lemma AfterClean(w: World)
    requires Inv(w)
    ensures After(w, Clean)
  {
    var rows := Sweep(w.rows, w.now - SESSION_RETENTION);
    forall c, p | IsChild(rows, c, p) ensures Follows(rows, w.history.roots, c, p) {
      assert IsChild(w.rows, c, p) && Follows(w.rows, w.history.roots, c, p);
    }
    forall a, b, p | IsChild(rows, a, p) && IsChild(rows, b, p) ensures a == b {
      assert IsChild(w.rows, a, p) && IsChild(w.rows, b, p);
    }
  }

  lemma DoesKeeps(w: World, v: World, e: Effect)
    requires Inv(w) && Does(w, v, e)
    ensures Inv(v)
  {
    match e
    case Keep =>
    case Retire(id) => AfterRetire(w, id);
    case Root(d, row) => AfterRoot(w, d, row);
    case Child(p, d, row) => AfterChild(w, p, d, row);
    case Clean => AfterClean(w);
  }

  lemma {:induction false} ServeInv(env: Env, w: World, rs: seq<Request>)
    requires Inv(w)
    ensures Inv(Serve(env, w, rs))
    decreases |rs|
  {
    if rs != [] {
      var e := HandleEffect(env, w, rs[0]);
      DoesKeeps(w, Handle(env, w, rs[0]).world, e);
      ServeInv(env, Handle(env, w, rs[0]).world, rs[1..]);
    }
  }

  lemma ReachableInv(env: Env, w: World)
    requires Reachable(env, w)
    ensures Inv(w)
  {
    var rs :| w == Serve(env, START, rs);
    ServeInv(env, START, rs);
  }

  /** A session is rotated at most once. */
  lemma AtMostOneChild(env: Env, w: World, a: Id, b: Id, parent: Id)
    requires Reachable(env, w) && IsChild(w.rows, a, parent) && IsChild(w.rows, b, parent)
    ensures a == b
  {
    ReachableInv(env, w);
  }

  lemma {:induction false} LineageInFamily(rows: Rows, roots: map<Id, Id>, chain: seq<Id>, i: nat)
    requires ParentsOk(rows, roots) && Lineage(rows, chain) && i < |chain| && chain[0] in roots
    ensures chain[i] in roots && roots[chain[i]] == roots[chain[0]]
  {
    if i > 0 {
      LineageInFamily(rows, roots, chain, i - 1);
      assert IsChild(rows, chain[i - 1], chain[i]) && Follows(rows, roots, chain[i - 1], chain[i]);
    }
  }

  /** Two sessions that share an ancestor, however far back on either side, are not both live. */
  lemma AtMostOneLiveInFamily(env: Env, w: World, p: seq<Id>, q: seq<Id>)
    requires Reachable(env, w) && Lineage(w.rows, p) && Lineage(w.rows, q) && p[|p| - 1] == q[|q| - 1]
    requires w.rows[p[0]].revokedAt.None? && w.rows[q[0]].revokedAt.None?
    ensures p[0] == q[0]
  {
    ReachableInv(env, w);
    LineageInFamily(w.rows, w.history.roots, p, |p| - 1);
    LineageInFamily(w.rows, w.history.roots, q, |q| - 1);
  }

  /** Rotation extends a family's life by one refresh lifetime at a time: k rotations after a
      session was created, its descendant expires no later than k + 1 lifetimes after that. */
  lemma {:induction false} LifetimeByDepth(env: Env, w: World, chain: seq<Id>)
    requires Reachable(env, w) && Lineage(w.rows, chain)
    ensures var k := |chain| - 1;
      && w.rows[chain[0]].expiresAt == w.rows[chain[0]].createdAt + REFRESH_TOKEN_TTL
      && w.rows[chain[0]].expiresAt <= w.rows[chain[k]].createdAt + REFRESH_TOKEN_TTL * (k + 1)
    decreases |chain|
  {
    ReachableInv(env, w);
    if |chain| > 1 {
      var rest := chain[1..];
      forall i | 0 < i < |rest| ensures IsChild(w.rows, rest[i - 1], rest[i]) {
        assert IsChild(w.rows, chain[i], chain[i + 1]);
      }
      LifetimeByDepth(env, w, rest);
      assert IsChild(w.rows, chain[0], chain[1]) && Follows(w.rows, w.history.roots, chain[0], chain[1]);
    }
  }
}
