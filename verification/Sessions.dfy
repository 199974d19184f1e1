// The sessions table: its statements as functions on the rows, and the
// repository object that keeps the rows up to date.

module Sessions {
  import opened Clock
  import opened Types

  type Rows = map<Id, Session>

  /** What the refresh, the refresh grant and the session header check before they trust a row. */
  predicate Usable(s: Session, now: Time) {
    s.revokedAt.None? && now <= s.expiresAt
  }

  /** The WHERE clause of the cleanup statement. */
  predicate Qualifies(s: Session, cutoff: Time) {
    s.expiresAt < cutoff || (s.revokedAt.Some? && s.revokedAt.value < cutoff)
  }

  predicate IsChild(rows: Rows, child: Id, parent: Id) {
    child in rows && rows[child].parent == Some(parent)
  }

  /** The foreign key on parent_session_id. */
  predicate Resolved(rows: Rows) {
    forall id :: id in rows && rows[id].parent.Some? ==> rows[id].parent.value in rows
  }

  /** A kept row would be left pointing at a deleted one, so the statement is refused. */
  predicate Orphans(rows: Rows, cutoff: Time) {
    exists id ::
      && id in rows && !Qualifies(rows[id], cutoff)
      && rows[id].parent.Some? && rows[id].parent.value in rows
      && Qualifies(rows[rows[id].parent.value], cutoff)
  }

  function Kept(rows: Rows, cutoff: Time): (kept: Rows)
    ensures forall id :: id in kept <==> id in rows && !Qualifies(rows[id], cutoff)
    ensures forall id :: id in kept ==> kept[id] == rows[id]
  {
    map id | id in rows && !Qualifies(rows[id], cutoff) :: rows[id]
  }

  function Sweep(rows: Rows, cutoff: Time): Rows {
    if Orphans(rows, cutoff) then rows else Kept(rows, cutoff)
  }

  function RevokeRow(rows: Rows, id: Id, now: Time): Rows {
    if id in rows then rows[id := rows[id].(revokedAt := Some(now))] else rows
  }

  /** The primary key and the self-reference decide whether the insert is accepted. */
  predicate Insertable(rows: Rows, id: Id, s: Session) {
    id !in rows && (s.parent.Some? ==> s.parent.value in rows)
  }

  predicate UniqueHashes(rows: Rows) {
    forall a, b :: a in rows && b in rows && rows[a].refreshHash == rows[b].refreshHash ==> a == b
  }

  ghost function ByHash(rows: Rows, hash: Digest): (found: Option<Id>)
    ensures found.Some? ==> found.value in rows && rows[found.value].refreshHash == hash
    ensures found.None? ==> forall id :: id in rows ==> rows[id].refreshHash != hash
  {
    if id :| id in rows && rows[id].refreshHash == hash then Some(id) else None
  }

  // ----- Cleanup -----

  /** A chain of parent links: each session is followed by its parent. */
  predicate Lineage(rows: Rows, chain: seq<Id>) {
    && |chain| > 0
    && (forall i :: 0 <= i < |chain| ==> chain[i] in rows)
    && (forall i :: 0 < i < |chain| ==> IsChild(rows, chain[i - 1], chain[i]))
  }

  /** Some kept row descends, through any number of rotations, from a row the cleanup would delete. */
  ghost predicate Straddled(rows: Rows, cutoff: Time) {
    exists chain ::
      Lineage(rows, chain) && !Qualifies(rows[chain[0]], cutoff) && Qualifies(rows[chain[|chain| - 1]], cutoff)
  }

  lemma {:induction false} StraddlingChainOrphans(rows: Rows, cutoff: Time, chain: seq<Id>)
    requires Lineage(rows, chain)
    requires !Qualifies(rows[chain[0]], cutoff) && Qualifies(rows[chain[|chain| - 1]], cutoff)
    ensures Orphans(rows, cutoff)
    decreases |chain|
  {
    assert IsChild(rows, chain[0], chain[1]);
    if !Qualifies(rows[chain[1]], cutoff) {
      var rest := chain[1..];
      forall i | 0 < i < |rest| ensures IsChild(rows, rest[i - 1], rest[i]) {
        assert IsChild(rows, chain[i], chain[i + 1]);
      }
      StraddlingChainOrphans(rows, cutoff, rest);
    }
  }

  /** Cleanup is all or nothing, keeps every parent link resolvable, and is refused outright
      exactly when some family straddles the cutoff, however old that family's dead rows are. */
  lemma CleanupDecides(rows: Rows, cutoff: Time)
    requires Resolved(rows)
    ensures Straddled(rows, cutoff) ==> Sweep(rows, cutoff) == rows
    ensures !Straddled(rows, cutoff) ==>
      forall id :: id in Sweep(rows, cutoff) <==> id in rows && !Qualifies(rows[id], cutoff)
    ensures forall id :: id in Sweep(rows, cutoff) ==> id in rows && Sweep(rows, cutoff)[id] == rows[id]
    ensures Resolved(Sweep(rows, cutoff))
  {
    if chain :| Lineage(rows, chain) && !Qualifies(rows[chain[0]], cutoff) && Qualifies(rows[chain[|chain| - 1]], cutoff) {
      StraddlingChainOrphans(rows, cutoff, chain);
    } else if Orphans(rows, cutoff) {
      var id :| && id in rows && !Qualifies(rows[id], cutoff)
                && rows[id].parent.Some? && rows[id].parent.value in rows
                && Qualifies(rows[rows[id].parent.value], cutoff);
      var chain := [id, rows[id].parent.value];
      assert IsChild(rows, chain[0], chain[1]);
      assert Lineage(rows, chain);
    }
  }

  /** A family that is still in use keeps every row of every family in the table, once it has
      an ancestor past the cutoff: no lineage of a usable session is ever cut short. */
  lemma UsableFamilyBlocksCleanup(rows: Rows, now: Time, cutoff: Time, chain: seq<Id>)
    requires cutoff <= now
    requires Lineage(rows, chain) && Usable(rows[chain[0]], now)
    ensures Qualifies(rows[chain[|chain| - 1]], cutoff) ==> Sweep(rows, cutoff) == rows
    ensures forall i :: 0 <= i < |chain| ==> chain[i] in Sweep(rows, cutoff)
  {
    if i :| 0 <= i < |chain| && Qualifies(rows[chain[i]], cutoff) {
      var upTo := chain[..i + 1];
      forall j | 0 < j < |upTo| ensures IsChild(rows, upTo[j - 1], upTo[j]) {
        assert IsChild(rows, chain[j - 1], chain[j]);
      }
      StraddlingChainOrphans(rows, cutoff, upTo);
    }
  }

  // ----- The repository -----

  /** One flag per call says whether the database answers; everything else is decided by the rows. */
  class SessionRepository {
    var rows: Rows

    constructor ()
      ensures rows == map[]
    {
      rows := map[];
    }

    method Create(id: Id, s: Session, up: bool) returns (ok: bool)
      modifies this
      ensures ok <==> up && id !in old(rows) && (s.parent.Some? ==> s.parent.value in old(rows))
      ensures rows == if ok then old(rows)[id := s] else old(rows)
      ensures old(Resolved(rows)) ==> Resolved(rows)
    {
      ok := up && id !in rows && (s.parent.Some? ==> s.parent.value in rows);
      if ok {
        rows := rows[id := s];
      }
    }

    method GetByID(id: Id, up: bool) returns (found: Option<Session>)
      ensures found.Some? <==> up && id in rows
      ensures found.Some? ==> found.value == rows[id]
    {
      found := if up && id in rows then Some(rows[id]) else None;
    }

    method GetByRefreshTokenHash(hash: Digest, up: bool) returns (found: Option<Id>)
      ensures !up ==> found.None?
      ensures found.Some? ==> found.value in rows && rows[found.value].refreshHash == hash
      ensures up && found.None? ==> forall id :: id in rows ==> rows[id].refreshHash != hash
      ensures up && UniqueHashes(rows) ==> found == ByHash(rows, hash)
    {
      found := None;
      if up {
        if id :| id in rows && rows[id].refreshHash == hash {
          found := Some(id);
        }
      }
    }

    method Revoke(id: Id, now: Time, up: bool) returns (ok: bool)
      modifies this
      ensures ok == up
      ensures rows == if up && id in old(rows) then old(rows)[id := old(rows)[id].(revokedAt := Some(now))] else old(rows)
      ensures ok ==> rows == RevokeRow(old(rows), id, now)
    {
      ok := up;
      if up && id in rows {
        rows := rows[id := rows[id].(revokedAt := Some(now))];
      }
    }

    /** Deletes every qualifying row, or none: `ok` is false when the foreign key refuses. */
    method DeleteExpiredOrRevoked(olderThan: Time, up: bool) returns (deleted: nat, ok: bool)
      requires Resolved(rows)
      modifies this
      ensures ok <==> up && !Straddled(old(rows), olderThan)
      ensures ok ==>
        && (forall id :: id in rows <==>
              && id in old(rows) && old(rows)[id].expiresAt >= olderThan
              && (old(rows)[id].revokedAt.Some? ==> old(rows)[id].revokedAt.value >= olderThan))
        && (forall id :: id in rows ==> rows[id] == old(rows)[id])
      ensures !ok ==> rows == old(rows)
      ensures up ==> rows == Sweep(old(rows), olderThan)
      ensures deleted == |old(rows)| - |rows|
      ensures Resolved(rows)
    {
      CleanupDecides(rows, olderThan);
      if !up || Orphans(rows, olderThan) {
        ghost var id :| !up || (&& id in rows && !Qualifies(rows[id], olderThan)
                && rows[id].parent.Some? && rows[id].parent.value in rows
                && Qualifies(rows[rows[id].parent.value], olderThan));
        if up {
          ghost var chain := [id, rows[id].parent.value];
          assert IsChild(rows, chain[0], chain[1]) && Lineage(rows, chain);
        }
        return 0, false;
      }
      var before := rows;
      rows := Kept(rows, olderThan);
      KeptIsSmaller(before, olderThan);
      deleted, ok := |before| - |rows|, true;
    }
  }

  lemma KeptIsSmaller(rows: Rows, cutoff: Time)
    ensures |Kept(rows, cutoff)| <= |rows|
  {
    var kept := Kept(rows, cutoff).Keys;
    assert rows.Keys == kept + (rows.Keys - kept);
  }
}
