// The signing_keys table: its statements, the repository object, and the
// rotator that runs two of them without a transaction.

module Keys {
  import opened Clock
  import opened Types

  datatype Key = Key(algorithm: string, active: bool, createdAt: Time, rotatedAt: Option<Time>)

  type Table = map<Id, Key>

  function DeactivateAll(keys: Table, now: Time): (after: Table)
    ensures after.Keys == keys.Keys
  {
    map k | k in keys :: if keys[k].active then keys[k].(active := false, rotatedAt := Some(now)) else keys[k]
  }

  function NewKey(algorithm: string, createdAt: Time): Key {
    Key(algorithm, true, createdAt, None)
  }

  predicate Published(key: Key, now: Time) {
    key.rotatedAt.None? || key.rotatedAt.value > now - PUBLICATION_WINDOW
  }

  /** Among the active keys, the one ORDER BY created_at DESC LIMIT 1 may return. */
  predicate NewestActive(keys: Table, k: Id) {
    k in keys && keys[k].active && forall j :: j in keys && keys[j].active ==> keys[j].createdAt <= keys[k].createdAt
  }

  predicate ActiveIffNotRotated(keys: Table) {
    forall k :: k in keys ==> (keys[k].active <==> keys[k].rotatedAt.None?)
  }

  predicate AtMostOneActive(keys: Table) {
    forall j, k :: j in keys && k in keys && keys[j].active && keys[k].active ==> j == k
  }

  lemma {:induction false} NewestExists(keys: Table, among: set<Id>) returns (k: Id)
    requires among <= keys.Keys && among != {}
    ensures k in among && forall j :: j in among ==> keys[j].createdAt <= keys[k].createdAt
    decreases among
  {
    k :| k in among;
    if among != {k} {
      var rest := NewestExists(keys, among - {k});
      if keys[k].createdAt < keys[rest].createdAt {
        k := rest;
      }
    }
  }

  // ----- One rotator at a time -----

  /** One run of the rotator. A crash between its two statements leaves `inserted` false. */
  datatype Rotation = Rotation(kid: Id, algorithm: string, generatedAt: Time, deactivatedAt: Time, inserted: bool)

  function Rotate(keys: Table, r: Rotation): Table {
    var swept := DeactivateAll(keys, r.deactivatedAt);
    if r.inserted && r.kid !in keys then swept[r.kid := NewKey(r.algorithm, r.generatedAt)] else swept
  }

  function RotateAll(keys: Table, rotations: seq<Rotation>): Table {
    if rotations == [] then keys
    else Rotate(RotateAll(keys, rotations[..|rotations| - 1]), rotations[|rotations| - 1])
  }

  /** After any number of rotations one after the other, crashed or not: the key that signs is
      the last rotator's, or there is none if that one crashed; a rotation time never changes;
      no key is ever removed. */
  lemma {:induction false} SerialRotations(keys: Table, rotations: seq<Rotation>)
    requires ActiveIffNotRotated(keys)
    ensures var after := RotateAll(keys, rotations);
      && ActiveIffNotRotated(after) && (rotations != [] || AtMostOneActive(keys) ==> AtMostOneActive(after))
      && (forall k :: k in keys ==> k in after)
      && (forall k :: k in keys && keys[k].rotatedAt.Some? ==> after[k] == keys[k])
    ensures rotations != [] ==>
      var after := RotateAll(keys, rotations);
      var last := rotations[|rotations| - 1];
      var unused := last.kid !in RotateAll(keys, rotations[..|rotations| - 1]);
      forall k :: NewestActive(after, k) <==> last.inserted && unused && k == last.kid
    decreases |rotations|
  {
    if rotations != [] {
      SerialRotations(keys, rotations[..|rotations| - 1]);
      RotationLeavesOne(RotateAll(keys, rotations[..|rotations| - 1]), rotations[|rotations| - 1]);
    }
  }

  lemma RotationLeavesOne(keys: Table, r: Rotation)
    requires ActiveIffNotRotated(keys)
    ensures ActiveIffNotRotated(Rotate(keys, r)) && AtMostOneActive(Rotate(keys, r))
    ensures forall k :: k in keys ==> k in Rotate(keys, r)
    ensures forall k :: k in keys && keys[k].rotatedAt.Some? ==> Rotate(keys, r)[k] == keys[k]
    ensures forall k :: NewestActive(Rotate(keys, r), k) <==> r.inserted && r.kid !in keys && k == r.kid
  {
    var after := Rotate(keys, r);
    assert forall k :: k in after && after[k].active ==> k == r.kid && r.inserted && r.kid !in keys;
    if r.inserted && r.kid !in keys {
      assert NewestActive(after, r.kid);
    }
  }

  // ----- The repository -----

  class KeyRepository {
    var keys: Table

    constructor ()
      ensures keys == map[]
    {
      keys := map[];
    }

    method GetActive(up: bool) returns (kid: Option<Id>)
      ensures kid.Some? ==> up && kid.value in keys && keys[kid.value].active
      ensures kid.Some? ==> forall k :: k in keys && keys[k].active ==> keys[k].createdAt <= keys[kid.value].createdAt
      ensures up && kid.None? ==> forall k :: k in keys ==> !keys[k].active
    {
      kid := None;
      var active := set k | k in keys && keys[k].active;
      if up && active != {} {
        ghost var newest := NewestExists(keys, active);
        var k :| k in active && forall j :: j in active ==> keys[j].createdAt <= keys[k].createdAt;
        kid := Some(k);
      } else if up {
        assert forall k :: k in keys && keys[k].active ==> k in active;
      }
    }

    method GetByID(kid: Id, up: bool) returns (key: Option<Key>)
      ensures key.Some? <==> up && kid in keys
      ensures key.Some? ==> key.value == keys[kid]
    {
      key := if up && kid in keys then Some(keys[kid]) else None;
    }

    method Create(kid: Id, key: Key, up: bool) returns (ok: bool)
      modifies this
      ensures ok == (up && kid !in old(keys))
      ensures keys == if ok then old(keys)[kid := key.(rotatedAt := None)] else old(keys)
    {
      ok := up && kid !in keys;
      if ok {
        keys := keys[kid := key.(rotatedAt := None)];
      }
    }

    method Deactivate(now: Time, up: bool) returns (ok: bool)
      modifies this
      ensures ok == up
      ensures !ok ==> keys == old(keys)
      ensures ok ==> keys.Keys == old(keys).Keys && forall k :: k in keys ==>
        keys[k] == if old(keys)[k].active then old(keys)[k].(active := false, rotatedAt := Some(now)) else old(keys)[k]
      ensures ok ==> keys == DeactivateAll(old(keys), now)
    {
      ok := up;
      if up {
        keys := DeactivateAll(keys, now);
      }
    }

    /** The published keys, each once, newest first. */
    method ListPublic(now: Time, up: bool) returns (published: Option<seq<Id>>)
      ensures published.Some? <==> up
      ensures published.Some? ==> forall k :: k in published.value <==>
        k in keys && (keys[k].rotatedAt.None? || now - 7 * DAY < keys[k].rotatedAt.value)
      ensures published.Some? ==> NewestFirst(keys, published.value)
    {
      hide NewestFirst;
      if !up {
        return None;
      }
      var list: seq<Id> := [];
      NothingIsOrdered(keys);
      var rows := set k | k in keys && Published(keys[k], now);
      while rows != {}
        invariant rows <= keys.Keys && rows !! set k | k in list
        invariant forall k :: k in list || k in rows <==> k in keys && Published(keys[k], now)
        invariant NewestFirst(keys, list)
        invariant forall j, k :: j in list && k in rows ==> keys[k].createdAt <= keys[j].createdAt
        decreases rows
      {
        ghost var newest := NewestExists(keys, rows);
        var k :| k in rows && forall j :: j in rows ==> keys[j].createdAt <= keys[k].createdAt;
        OlderLast(keys, list, k);
        list := list + [k];
        rows := rows - {k};
      }
      published := Some(list);
    }
  }

  predicate NewestFirst(keys: Table, list: seq<Id>) {
    && (forall k :: k in list ==> k in keys)
    && (forall i, j :: 0 <= i < j < |list| ==>
          list[i] != list[j] && keys[list[j]].createdAt <= keys[list[i]].createdAt)
  }

  lemma NothingIsOrdered(keys: Table)
    ensures NewestFirst(keys, [])
  {
  }

  lemma OlderLast(keys: Table, list: seq<Id>, k: Id)
    requires NewestFirst(keys, list) && k in keys && k !in list
    requires forall j :: j in list ==> keys[k].createdAt <= keys[j].createdAt
    ensures NewestFirst(keys, list + [k])
  {
  }

  /** The key document: the published keys in their order, without those that cannot be encoded;
      an error if they cannot be listed. */
  method KeyDocument(repo: KeyRepository, encodable: set<Id>, now: Time, up: bool) returns (served: Option<seq<Id>>)
    ensures served.Some? <==> up
    ensures served.Some? ==> forall k :: k in served.value <==>
      k in repo.keys && (repo.keys[k].rotatedAt.None? || now - 7 * DAY < repo.keys[k].rotatedAt.value) && k in encodable
    ensures served.Some? ==> NewestFirst(repo.keys, served.value)
  {
    var published := repo.ListPublic(now, up);
    if published.None? {
      return None;
    }
    var list, document := published.value, [];
    for i := 0 to |list|
      invariant forall k :: k in document <==> k in list[..i] && k in encodable
      invariant NewestFirst(repo.keys, document)
    {
      if list[i] !in encodable {
        continue;
      }
      assert forall k :: k in document ==> k in list[..i];
      OlderLast(repo.keys, document, list[i]);
      document := document + [list[i]];
    }
    assert list[..|list|] == list;
    served := Some(document);
  }

  /** The rotator: generate, deactivate every key, insert the new one; any failure stops it there. */
  method RotateSigningKey(repo: KeyRepository, kid: Id, algorithm: string, generatedAt: Time, now: Time,
                          deactivateUp: bool, createUp: bool)
    returns (ok: bool)
    modifies repo
    ensures !deactivateUp ==> repo.keys == old(repo.keys) && !ok
    ensures deactivateUp ==>
      repo.keys == Rotate(old(repo.keys), Rotation(kid, algorithm, generatedAt, now, createUp))
    ensures ok ==> kid !in old(repo.keys) && kid in repo.keys && repo.keys[kid] == Key(algorithm, true, generatedAt, None)
    ensures ok ==> forall k :: k in repo.keys && repo.keys[k].active ==> k == kid
    ensures forall k :: k in old(repo.keys) ==>
      var was := old(repo.keys)[k];
      k in repo.keys
      && repo.keys[k] == if deactivateUp && was.active then was.(active := false, rotatedAt := Some(now)) else was
    ensures old(ActiveIffNotRotated(repo.keys)) ==> ActiveIffNotRotated(repo.keys)
  {
    ok := repo.Deactivate(now, deactivateUp);
    if ok {
      ok := repo.Create(kid, NewKey(algorithm, generatedAt), createUp);
    }
  }
}
