// Registration, user creation and role management over the directory tables.
// `failsAt` picks the statement, if any, at which the database fails; so what is
// proved of a transaction holds wherever inside it the failure comes.

module Registration {
  import opened Types
  import opened Directory

  const OWNER_ROLE := "tenant_owner"

  const OWNER_PERMISSIONS: seq<string> := [
    "users:create", "users:read", "users:update", "users:delete",
    "roles:create", "roles:read", "roles:update", "roles:delete",
    "tenant:update", "tenant:delete"]

  lemma OwnerPermissionNames()
    ensures Names(|OWNER_PERMISSIONS|) == {
      "users:create", "users:read", "users:update", "users:delete", "roles:create", "roles:read", "roles:update",
      "roles:delete", "tenant:update", "tenant:delete"}
  {
    var names := Names(|OWNER_PERMISSIONS|);
    forall i: nat | i < |OWNER_PERMISSIONS| ensures OWNER_PERMISSIONS[i] in names {
    }
    var p := OWNER_PERMISSIONS;
    assert names == {p[0], p[1], p[2], p[3], p[4], p[5], p[6], p[7], p[8], p[9]};
  }

  lemma OwnerPermissionsDistinct(i: nat, j: nat)
    requires i < j < |OWNER_PERMISSIONS|
    ensures OWNER_PERMISSIONS[i] != OWNER_PERMISSIONS[j]
  {
  }

  /** The committed tables. */
  class Database {
    var tables: Tables

    constructor ()
      ensures tables == EMPTY
    {
      tables := EMPTY;
    }

    method GetIdentityByEmail(email: string, up: bool) returns (found: Option<Id>)
      requires Consistent(tables)
      ensures found == if up then IdentityByEmail(tables, email) else None
    {
      found := None;
      if up {
        if i :| i in tables.identities && tables.identities[i] == email {
          found := Some(i);
        }
      }
    }

    method GetUserByIdentity(identity: Id, up: bool) returns (found: Option<Id>)
      requires Consistent(tables)
      ensures found == if up then UserOf(tables, identity) else None
    {
      found := None;
      if up {
        if u :| u in tables.users && tables.users[u].identity == identity {
          found := Some(u);
        }
      }
    }

    /** The row loop over a user's role rows, of which the first `arriving` arrive: a result that
        breaks off is taken for a shorter one, not for an error. */
    method GetRolesForUser(user: Id, up: bool, arriving: nat) returns (roles: Option<seq<string>>)
      ensures roles.Some? <==> up
      ensures roles.Some? ==> forall name :: name in roles.value ==> name in RolesOf(tables, user)
      ensures roles.Some? && Consistent(tables) ==>
        ((forall name :: name in RolesOf(tables, user) ==> name in roles.value) <==> |RoleRows(tables, user)| <= arriving)
    {
      hide Consistent;
      if !up {
        return None;
      }
      ghost var all := RoleRows(tables, user);
      var list: seq<string>, rest, read := [], RoleRows(tables, user), 0;
      while rest != {} && read < arriving
        invariant rest <= all && read + |rest| == |all| && read <= arriving
        invariant forall ur :: ur in all - rest ==> tables.roles[ur.1].name in list
        invariant forall name :: name in list ==> exists ur :: ur in all - rest && tables.roles[ur.1].name == name
        decreases rest
      {
        var ur :| ur in rest;
        ghost var before := all - rest;
        list := list + [tables.roles[ur.1].name];
        rest, read := rest - {ur}, read + 1;
        assert all - rest == before + {ur};
      }
      roles := Some(list);
      if rest == {} {
        assert all - rest == all;
      } else if Consistent(tables) {
        ghost var ur :| ur in rest;
        MissingRole(tables, user, ur, all - rest, list);
      }
    }

    method GetPermissionsForUser(user: Id, up: bool, arriving: nat) returns (permissions: Option<seq<string>>)
      ensures permissions.Some? <==> up
      ensures permissions.Some? ==>
        && (forall name :: name in permissions.value ==> name in PermissionsOf(tables, user))
        && (forall i, j :: 0 <= i < j < |permissions.value| ==> permissions.value[i] != permissions.value[j])
      ensures permissions.Some? ==>
        ((forall name :: name in PermissionsOf(tables, user) ==> name in permissions.value)
         <==> |PermissionsOf(tables, user)| <= arriving)
    {
      if !up {
        return None;
      }
      var list: seq<string>, rest := [], PermissionsOf(tables, user);
      while rest != {} && |list| < arriving
        invariant |list| + |rest| == |PermissionsOf(tables, user)| && |list| <= arriving
        invariant forall name :: name in PermissionsOf(tables, user) <==> name in list || name in rest
        invariant forall name :: name in list ==> name !in rest
        invariant forall i, j :: 0 <= i < j < |list| ==> list[i] != list[j]
        decreases rest
      {
        var name :| name in rest;
        list, rest := list + [name], rest - {name};
      }
      permissions := Some(list);
    }
  }

  function RoleRows(t: Tables, user: Id): set<(Id, Id)> {
    set ur | ur in t.userRoles && ur.0 == user && ur.1 in t.roles
  }

  /** A user's roles are all of one tenant, so no two of its rows give the same name. */
  lemma MissingRole(t: Tables, user: Id, missing: (Id, Id), read: set<(Id, Id)>, list: seq<string>)
    requires Consistent(t) && missing in RoleRows(t, user) && missing !in read && read <= RoleRows(t, user)
    requires forall name :: name in list ==> exists ur :: ur in read && t.roles[ur.1].name == name
    ensures t.roles[missing.1].name in RolesOf(t, user) && t.roles[missing.1].name !in list
  {
    forall ur | ur in RoleRows(t, user) && t.roles[ur.1].name == t.roles[missing.1].name ensures ur == missing {
      SameNameSameRow(t, user, ur, missing);
    }
  }

  lemma SameNameSameRow(t: Tables, user: Id, a: (Id, Id), b: (Id, Id))
    requires Consistent(t) && a in RoleRows(t, user) && b in RoleRows(t, user) && t.roles[a.1].name == t.roles[b.1].name
    ensures a == b
  {
    assert t.users[a.0].tenant == t.roles[a.1].tenant && t.users[b.0].tenant == t.roles[b.1].tenant;
    assert t.roles[a.1] == t.roles[b.1];
  }

  /** A transaction works on its own copy; once a statement fails, every later one is refused. */
  class Transaction {
    var tables: Tables
    var aborted: bool
    var statements: nat
    const failsAt: Option<nat>

    constructor (tables: Tables, failsAt: Option<nat>)
      ensures this.tables == tables && this.failsAt == failsAt && !aborted
    {
      this.tables, this.failsAt, aborted, statements := tables, failsAt, false, 0;
    }

    predicate Refuses()
      reads this
    {
      aborted || failsAt == Some(statements)
    }

    /** Runs one statement: it takes effect if the database answers and the constraints hold. */
    method Execute(after: Tables, admissible: bool) returns (ok: bool)
      modifies this
      ensures ok == (!old(Refuses()) && admissible)
      ensures aborted == !ok
      ensures tables == if ok then after else old(tables)
    {
      ok := !Refuses() && admissible;
      statements := statements + 1;
      aborted := !ok;
      if ok {
        tables := after;
      }
    }

    /** The end of the transaction: its changes become the committed tables, or are dropped. */
    method Commit(db: Database, up: bool) returns (ok: bool)
      modifies db
      ensures ok == (up && !aborted)
      ensures db.tables == if ok then tables else old(db.tables)
    {
      ok := up && !aborted;
      if ok {
        db.tables := tables;
      }
    }

    /** A query that finds no row is not an error; one the database refuses aborts. */
    method PermissionByName(name: string) returns (found: Option<Id>)
      modifies this
      ensures tables == old(tables) && aborted == old(Refuses())
      ensures found.Some? ==> found.value in tables.permissions && tables.permissions[found.value] == name
      ensures found.None? && !aborted ==> !Taken(tables.permissions, name)
    {
      found, aborted, statements := None, Refuses(), statements + 1;
      if !aborted {
        if p :| p in tables.permissions && tables.permissions[p] == name {
          found := Some(p);
        }
      }
    }

    method RoleByName(tenant: Id, name: string) returns (found: Option<Id>)
      modifies this
      ensures tables == old(tables) && aborted == old(Refuses())
      ensures found.Some? ==> !aborted && found.value in tables.roles && tables.roles[found.value] == Role(tenant, name)
      ensures found.None? && !aborted ==> !Taken(tables.roles, Role(tenant, name))
    {
      found, aborted, statements := None, Refuses(), statements + 1;
      if !aborted {
        if r :| r in tables.roles && tables.roles[r] == Role(tenant, name) {
          found := Some(r);
        }
      }
    }

    method SlugExists(slug: string) returns (ok: bool, taken: bool)
      modifies this
      ensures tables == old(tables) && aborted == old(Refuses()) && ok == !aborted
      ensures ok ==> (taken <==> exists t :: t in tables.tenants && tables.tenants[t] == slug)
    {
      ok, aborted, statements := !Refuses(), Refuses(), statements + 1;
      taken := ok && Taken(tables.tenants, slug);
    }
  }

  // ----- Slugs -----

  const MAX_SLUG_ATTEMPTS: nat := 5

  function Candidate(base: string, i: nat): string
    requires i <= MAX_SLUG_ATTEMPTS
  {
    if i == 0 then base else base + "-" + ['0' + i as char]
  }

  predicate SlugAvailable(t: Tables, base: string) {
    exists i :: 0 <= i <= MAX_SLUG_ATTEMPTS && !Taken(t.tenants, Candidate(base, i))
  }

  /** The first free candidate: the base itself, then base-1 to base-5. */
  ghost predicate FirstFree(t: Tables, base: string, slug: string) {
    exists i :: 0 <= i <= MAX_SLUG_ATTEMPTS && slug == Candidate(base, i) && !Taken(t.tenants, slug)
      && forall j :: 0 <= j < i ==> Taken(t.tenants, Candidate(base, j))
  }

  method GenerateUniqueSlug(tx: Transaction, base: string) returns (slug: Option<string>)
    modifies tx
    ensures tx.tables == old(tx.tables)
    ensures slug.Some? ==> !tx.aborted && FirstFree(tx.tables, base, slug.value)
    ensures slug.Some? ==>
      var taken := set t | t in tx.tables.tenants :: tx.tables.tenants[t];
      && slug.value !in taken
      && slug.value == if base !in taken then base else if base + "-1" !in taken then base + "-1"
                       else if base + "-2" !in taken then base + "-2" else if base + "-3" !in taken then base + "-3"
                       else if base + "-4" !in taken then base + "-4" else base + "-5"
    ensures slug.None? && !tx.aborted ==> !SlugAvailable(tx.tables, base)
    ensures tx.failsAt.None? && !old(tx.aborted) ==> !tx.aborted
  {
    var ok, taken := tx.SlugExists(base);
    if !ok {
      return None;
    }
    if !taken {
      assert base == Candidate(base, 0);
      FirstFreeIs(tx.tables, base, base);
      return Some(base);
    }
    for i := 1 to MAX_SLUG_ATTEMPTS + 1
      invariant tx.tables == old(tx.tables) && !tx.aborted
      invariant forall j :: 0 <= j < i ==> Taken(tx.tables.tenants, Candidate(base, j))
    {
      var candidate := Candidate(base, i);
      ok, taken := tx.SlugExists(candidate);
      if !ok {
        return None;
      }
      if !taken {
        FirstFreeIs(tx.tables, base, candidate);
        return Some(candidate);
      }
    }
    return None;
  }

  lemma Numbered(base: string, i: nat)
    requires i <= MAX_SLUG_ATTEMPTS
    ensures Candidate(base, i) == if i == 0 then base else base + "-" + ["1", "2", "3", "4", "5"][i - 1]
  {
  }

  lemma FirstFreeIs(t: Tables, base: string, slug: string)
    requires FirstFree(t, base, slug)
    ensures
      var taken := set k | k in t.tenants :: t.tenants[k];
      && slug !in taken
      && slug == if base !in taken then base else if base + "-1" !in taken then base + "-1"
                 else if base + "-2" !in taken then base + "-2" else if base + "-3" !in taken then base + "-3"
                 else if base + "-4" !in taken then base + "-4" else base + "-5"
  {
    hide Candidate;
    var taken := set k | k in t.tenants :: t.tenants[k];
    assert forall s :: Taken(t.tenants, s) <==> s in taken;
    Numbered(base, 0);
    Numbered(base, 1);
    Numbered(base, 2);
    Numbered(base, 3);
    Numbered(base, 4);
    Numbered(base, 5);
    DashedNumbers(base);
  }

  lemma DashedNumbers(base: string)
    ensures base + "-" + "1" == base + "-1" && base + "-" + "2" == base + "-2" && base + "-" + "3" == base + "-3"
    ensures base + "-" + "4" == base + "-4" && base + "-" + "5" == base + "-5"
  {
  }

  // ----- Owner permissions -----

  function Names(n: nat): set<string>
    requires n <= |OWNER_PERMISSIONS|
  {
    set i | 0 <= i < n :: OWNER_PERMISSIONS[i]
  }

  /** Identifiers no row has yet. */
  ghost predicate Spare(t: Tables, ids: seq<Id>, from: nat)
    requires from <= |ids|
  {
    && (forall i :: from <= i < |ids| ==> ids[i] !in t.permissions)
    && (forall i, j :: from <= i < j < |ids| ==> ids[i] != ids[j])
  }

  /** The rows that give a role the first n owner permissions. */
  function OwnerPairs(t: Tables, role: Id, n: nat): set<(Id, Id)>
    requires n <= |OWNER_PERMISSIONS|
  {
    set p | p in t.permissions && t.permissions[p] in Names(n) :: (role, p)
  }

  /** From t to u, the first n owner permissions were created where they were missing, under the
      identifiers drawn for them, and granted to the role; nothing else is different. */
  ghost predicate OwnerGrants(t: Tables, u: Tables, role: Id, ids: seq<Id>, n: nat)
    requires n <= |OWNER_PERMISSIONS|
  {
    && u == t.(permissions := u.permissions, rolePermissions := t.rolePermissions + OwnerPairs(u, role, n))
    && Extends(t.permissions, u.permissions)
    && (forall p :: p in u.permissions && p !in t.permissions ==>
          p in ids && u.permissions[p] in Names(n) && !Taken(t.permissions, u.permissions[p]))
  }

  /** The same of one permission, whose row is p. */
  ghost predicate GrantsOne(t: Tables, u: Tables, role: Id, name: string, drawn: Id, p: Id) {
    && u == t.(permissions := u.permissions, rolePermissions := t.rolePermissions + {(role, p)})
    && p in u.permissions && u.permissions[p] == name
    && (u.permissions == t.permissions
        || (p == drawn && p !in t.permissions && !Taken(t.permissions, name) && u.permissions == t.permissions[p := name]))
  }

  lemma OneMoreGrant(t: Tables, u: Tables, v: Tables, role: Id, ids: seq<Id>, i: nat, p: Id)
    requires i < |OWNER_PERMISSIONS| == |ids| && Consistent(v) && Grows(u, v)
    requires OwnerGrants(t, u, role, ids, i) && GrantsOne(u, v, role, OWNER_PERMISSIONS[i], ids[i], p)
    ensures OwnerGrants(t, v, role, ids, i + 1)
  {
    hide Names, OwnerPairs, Unique, Consistent;
    NamesAreUnique(v);
    OneMoreName(i);
    OneMorePair(u, v, role, i, p);
  }

  lemma NamesAreUnique(t: Tables)
    requires Consistent(t)
    ensures Unique(t.permissions)
  {
  }

  lemma OneMoreName(i: nat)
    requires i < |OWNER_PERMISSIONS|
    ensures Names(i + 1) == Names(i) + {OWNER_PERMISSIONS[i]} && OWNER_PERMISSIONS[i] !in Names(i)
  {
    NameNotYetListed(i, {});
    assert {} + Names(i) == Names(i);
  }

  lemma NothingGranted(t: Tables, role: Id, ids: seq<Id>)
    ensures OwnerGrants(t, t, role, ids, 0)
  {
  }

  lemma OneMorePair(u: Tables, v: Tables, role: Id, i: nat, p: Id)
    requires i < |OWNER_PERMISSIONS| && Unique(v.permissions) && Extends(u.permissions, v.permissions)
    requires p in v.permissions && v.permissions[p] == OWNER_PERMISSIONS[i]
    requires forall q :: q in v.permissions && q !in u.permissions ==> q == p
    requires OWNER_PERMISSIONS[i] !in Names(i) && Names(i + 1) == Names(i) + {OWNER_PERMISSIONS[i]}
    ensures OwnerPairs(v, role, i + 1) == OwnerPairs(u, role, i) + {(role, p)}
  {
  }

  /** Finds or creates each owner permission and grants it: the ten come on top of what the role had,
      and the whole is refused if it had one of them already. */
  method BootstrapTenantOwnerPermissions(tx: Transaction, role: Id, ids: seq<Id>) returns (ok: bool)
    requires |ids| == |OWNER_PERMISSIONS| && Consistent(tx.tables)
    modifies tx
    ensures ok ==> !tx.aborted && Consistent(tx.tables) && Grows(old(tx.tables), tx.tables)
    ensures ok ==> OwnerGrants(old(tx.tables), tx.tables, role, ids, |OWNER_PERMISSIONS|)
    ensures ok ==>
      RolePermissionsOf(tx.tables, role) == RolePermissionsOf(old(tx.tables), role) + Names(|OWNER_PERMISSIONS|)
    ensures ok ==> role in old(tx.tables).roles && NoneGranted(old(tx.tables), role, |OWNER_PERMISSIONS|)
    ensures tx.failsAt.None? && !old(tx.aborted) && Spare(old(tx.tables), ids, 0) ==>
      (ok <==> role in old(tx.tables).roles && NoneGranted(old(tx.tables), role, |OWNER_PERMISSIONS|))
  {
    hide Consistent, RolePermissionsOf, Grows, OwnerGrants, GrantsOne;
    GrowsReflexive(tx.tables);
    NothingGranted(tx.tables, role, ids);
    ghost var before := tx.tables;
    ghost var had := RolePermissionsOf(before, role);
    for i := 0 to |OWNER_PERMISSIONS|
      invariant old(tx.aborted) || tx.failsAt.Some? || !tx.aborted
      invariant i > 0 ==> !tx.aborted && role in before.roles
      invariant Consistent(tx.tables) && Grows(before, tx.tables)
      invariant OwnerGrants(before, tx.tables, role, ids, i) && tx.tables.roles == before.roles
      invariant RolePermissionsOf(tx.tables, role) == had + Names(i)
      invariant NoneGranted(before, role, i)
      invariant Spare(before, ids, 0) ==> Spare(tx.tables, ids, i)
    {
      ghost var soFar := tx.tables;
      ghost var p;
      ok, p := GrantByName(tx, role, i, ids, had);
      if !ok {
        return;
      }
      OneMoreGrant(before, soFar, tx.tables, role, ids, i, p);
      GrowsTransitive(before, soFar, tx.tables);
    }
    ok := true;
  }

  /** The role has none of the first n owner permissions. */
  ghost predicate NoneGranted(t: Tables, role: Id, n: nat)
    requires n <= |OWNER_PERMISSIONS|
  {
    forall i :: 0 <= i < n ==> OWNER_PERMISSIONS[i] !in RolePermissionsOf(t, role)
  }

  /** One round of the loop. */
  method GrantByName(tx: Transaction, role: Id, i: nat, ids: seq<Id>, ghost had: set<string>)
    returns (ok: bool, ghost p: Id)
    requires i < |OWNER_PERMISSIONS| == |ids| && Consistent(tx.tables)
    requires RolePermissionsOf(tx.tables, role) == had + Names(i)
    modifies tx
    ensures ok ==> !tx.aborted && Consistent(tx.tables) && Grows(old(tx.tables), tx.tables)
    ensures ok ==> GrantsOne(old(tx.tables), tx.tables, role, OWNER_PERMISSIONS[i], ids[i], p)
    ensures tx.tables.roles == old(tx.tables).roles
    ensures ok ==> RolePermissionsOf(tx.tables, role) == had + Names(i + 1)
    ensures ok ==> role in tx.tables.roles && OWNER_PERMISSIONS[i] !in had
    ensures ok && Spare(old(tx.tables), ids, i) ==> Spare(tx.tables, ids, i + 1)
    ensures tx.failsAt.None? && !old(tx.aborted) && Spare(old(tx.tables), ids, i) ==>
      (ok <==> role in old(tx.tables).roles && OWNER_PERMISSIONS[i] !in had)
  {
    var name := OWNER_PERMISSIONS[i];
    var permission := tx.PermissionByName(name);
    var id := if permission.Some? then permission.value else ids[i];
    p := id;
    if permission.None? {
      ok := tx.Execute(AddPermission(tx.tables, id, name), PermissionInsertable(tx.tables, id, name));
      if !ok {
        return;
      }
      AddPermissionConsistent(old(tx.tables), id, name);
      AddingPermissionGrantsNothing(old(tx.tables), id, name, role);
    }
    ghost var found := tx.tables;
    NameNotYetListed(i, had);
    GrantedIffNamed(found, role, id);
    ok := tx.Execute(Grant(tx.tables, role, id), Grantable(tx.tables, role, id));
    if ok {
      GrantConsistent(found, role, id);
      GrantAddsName(found, role, id);
      GrowsTransitive(old(tx.tables), found, tx.tables);
      assert Names(i + 1) == Names(i) + {name};
    }
  }

  lemma NameNotYetListed(i: nat, had: set<string>)
    requires i < |OWNER_PERMISSIONS|
    ensures OWNER_PERMISSIONS[i] in had + Names(i) <==> OWNER_PERMISSIONS[i] in had
  {
    if OWNER_PERMISSIONS[i] in Names(i) {
      var j :| 0 <= j < i && OWNER_PERMISSIONS[j] == OWNER_PERMISSIONS[i];
      OwnerPermissionsDistinct(j, i);
      assert false;
    }
  }

  lemma GrantedIffNamed(t: Tables, role: Id, id: Id)
    requires UniqueKeys(t) && id in t.permissions
    ensures (role, id) in t.rolePermissions <==> t.permissions[id] in RolePermissionsOf(t, role)
  {
    if t.permissions[id] in RolePermissionsOf(t, role) {
      var rp :| rp in t.rolePermissions && rp.0 == role && rp.1 in t.permissions && t.permissions[rp.1] == t.permissions[id];
      assert rp == (role, id);
    }
  }

  lemma AddingPermissionGrantsNothing(t: Tables, id: Id, name: string, role: Id)
    requires ForeignKeys(t) && id !in t.permissions
    ensures RolePermissionsOf(AddPermission(t, id, name), role) == RolePermissionsOf(t, role)
  {
  }

  lemma GrantAddsName(t: Tables, role: Id, id: Id)
    requires id in t.permissions
    ensures RolePermissionsOf(Grant(t, role, id), role) == RolePermissionsOf(t, role) + {t.permissions[id]}
  {
    assert (role, id) in Grant(t, role, id).rolePermissions;
  }

  // ----- Use cases -----

  datatype Outcome = Done | Conflict | Forbidden | Failed

  /** The random identifiers one call draws. */
  datatype Drawn = Drawn(identity: Id, credential: Id, tenant: Id, user: Id, role: Id, permissions: seq<Id>)

  ghost predicate Unused(t: Tables, ids: Drawn) {
    && ids.identity !in t.identities && ids.credential !in t.credentials && ids.tenant !in t.tenants
    && ids.user !in t.users && ids.role !in t.roles && Spare(t, ids.permissions, 0)
  }

  /** The first free slug became a tenant, with the new identity, its credential and its user in it. */
  ghost predicate Joined(t: Tables, u: Tables, email: string, passwordHash: string, base: string, ids: Drawn) {
    exists slug ::
      && FirstFree(t, base, slug)
      && u == AddMember(AddTenant(t, ids.tenant, slug), ids.identity, email, ids.credential, passwordHash, ids.user,
                        ids.tenant)
  }

  /** From t to u the role became the owner role of its tenant, with the ten permissions, and the
      user its one holder. */
  ghost predicate OwnerRoleGiven(t: Tables, u: Tables, ids: Drawn) {
    && u.userRoles == t.userRoles + {(ids.user, ids.role)}
    && OwnerGrants(AddRole(t, ids.role, Role(ids.tenant, OWNER_ROLE)), u.(userRoles := t.userRoles), ids.role,
                   ids.permissions, |OWNER_PERMISSIONS|)
  }

  /** Everything a registration changes. */
  ghost predicate Registered(t: Tables, u: Tables, email: string, passwordHash: string, base: string, ids: Drawn) {
    exists member :: Joined(t, member, email, passwordHash, base, ids) && OwnerRoleGiven(member, u, ids)
  }

  /** Identity, credential, tenant and user: the first four inserts of a registration. */
  method InsertOwner(tx: Transaction, email: string, passwordHash: string, base: string, ids: Drawn)
    returns (outcome: Outcome)
    requires Consistent(tx.tables) && !tx.aborted
    modifies tx
    ensures outcome.Done? ==> Joined(old(tx.tables), tx.tables, email, passwordHash, base, ids)
    ensures outcome.Done? ==> !tx.aborted && Consistent(tx.tables) && Grows(old(tx.tables), tx.tables)
    ensures outcome.Done? ==> ids.user !in old(tx.tables).users
    ensures tx.failsAt.None? && Unused(old(tx.tables), ids) ==>
      (outcome.Done? <==> !Taken(old(tx.tables).identities, email) && SlugAvailable(old(tx.tables), base))
    ensures tx.failsAt.None? && Taken(old(tx.tables).identities, email) ==> outcome.Conflict?
  {
    ghost var before := tx.tables;
    var t := tx.tables;
    var unique := IdentityInsertable(t, ids.identity, email);
    var refused := tx.Refuses();
    var ok := tx.Execute(AddIdentity(t, ids.identity, email), unique);
    if !ok {
      return if refused then Failed else Conflict;
    }
    var c := Credential(ids.identity, passwordHash);
    ok := tx.Execute(AddCredential(tx.tables, ids.credential, c), CredentialInsertable(tx.tables, ids.credential, c));
    if !ok {
      return Failed;
    }
    var slug := GenerateUniqueSlug(tx, base);
    if slug.None? {
      return Failed;
    }
    ok := tx.Execute(AddTenant(tx.tables, ids.tenant, slug.value), TenantInsertable(tx.tables, ids.tenant, slug.value));
    if !ok {
      return Failed;
    }
    var user := User(ids.tenant, ids.identity, email);
    ok := tx.Execute(AddUser(tx.tables, ids.user, user), UserInsertable(tx.tables, ids.user, user));
    if !ok {
      return Failed;
    }
    outcome := Done;
    AddTenantConsistent(before, ids.tenant, slug.value);
    var withTenant := AddTenant(before, ids.tenant, slug.value);
    AddMemberConsistent(withTenant, ids.identity, email, ids.credential, passwordHash, ids.user, ids.tenant);
    GrowsTransitive(before, withTenant, tx.tables);
  }

  lemma OwnerRoleFits(t: Tables, ids: Drawn)
    requires Consistent(t) && ids.user in t.users && t.users[ids.user].tenant == ids.tenant
    requires forall r :: r in t.roles ==> t.roles[r].tenant != ids.tenant
    ensures RoleInsertable(t, ids.role, Role(ids.tenant, OWNER_ROLE)) <==> ids.role !in t.roles
  {
  }

  lemma NewRoleHasNone(t: Tables, id: Id, role: Role)
    requires Consistent(t) && RoleInsertable(t, id, role)
    ensures RolePermissionsOf(AddRole(t, id, role), id) == {}
    ensures NoneGranted(AddRole(t, id, role), id, |OWNER_PERMISSIONS|)
  {
  }

  /** The owner role, its permissions and its one holder: the rest of a registration. */
  method GiveOwnerRole(tx: Transaction, ids: Drawn) returns (ok: bool)
    requires Consistent(tx.tables) && |ids.permissions| == |OWNER_PERMISSIONS|
    requires ids.user in tx.tables.users && tx.tables.users[ids.user].tenant == ids.tenant
    requires forall ur :: ur in tx.tables.userRoles ==> ur.0 != ids.user
    requires forall r :: r in tx.tables.roles ==> tx.tables.roles[r].tenant != ids.tenant
    modifies tx
    ensures ok ==> !tx.aborted && Consistent(tx.tables) && Grows(old(tx.tables), tx.tables)
    ensures ok ==> OwnerRoleGiven(old(tx.tables), tx.tables, ids)
    ensures ok ==> RolesOf(tx.tables, ids.user) == {OWNER_ROLE}
    ensures ok ==> PermissionsOf(tx.tables, ids.user) == Names(|OWNER_PERMISSIONS|)
    ensures (tx.failsAt.None? && !old(tx.aborted) && ids.role !in old(tx.tables).roles
      && Spare(old(tx.tables), ids.permissions, 0)) ==> ok
  {
    hide Consistent, Grows, RolePermissionsOf, Names, NoneGranted;
    ghost var before := tx.tables;
    var role := Role(ids.tenant, OWNER_ROLE);
    OwnerRoleFits(before, ids);
    ok := tx.Execute(AddRole(tx.tables, ids.role, role), RoleInsertable(tx.tables, ids.role, role));
    if !ok {
      return;
    }
    AddRoleConsistent(before, ids.role, role);
    ghost var withRole := tx.tables;
    NewRoleHasNone(before, ids.role, role);
    ok := BootstrapTenantOwnerPermissions(tx, ids.role, ids.permissions);
    if !ok {
      return;
    }
    ghost var granted := tx.tables;
    ok := tx.Execute(Assign(tx.tables, ids.user, ids.role), Assignable(tx.tables, ids.user, ids.role));
    if ok {
      AssignConsistent(granted, ids.user, ids.role);
      FirstRole(granted, ids.user, ids.role);
      GrowsTransitive(before, withRole, granted);
      GrowsTransitive(before, granted, tx.tables);
    }
  }

  /** The owner of a new tenant has no role yet, and the tenant has none. */
  lemma OwnerIsNew(t: Tables, u: Tables, email: string, passwordHash: string, base: string, ids: Drawn)
    requires Consistent(t) && Grows(t, u) && ids.user !in t.users && Joined(t, u, email, passwordHash, base, ids)
    ensures ids.user in u.users && u.users[ids.user] == User(ids.tenant, ids.identity, email)
    ensures u.identities == t.identities[ids.identity := email]
    ensures u.roles == t.roles && u.permissions == t.permissions
    ensures forall ur :: ur in u.userRoles ==> ur.0 != ids.user
    ensures forall r :: r in u.roles ==> u.roles[r].tenant != ids.tenant
    ensures Spare(t, ids.permissions, 0) ==> Spare(u, ids.permissions, 0)
  {
  }

  /** The rows of a registration, table by table. */
  lemma OwnerRows(t: Tables, member: Tables, u: Tables, email: string, passwordHash: string, base: string, ids: Drawn)
    requires Joined(t, member, email, passwordHash, base, ids) && OwnerRoleGiven(member, u, ids)
    ensures u.identities == t.identities[ids.identity := email]
    ensures u.credentials == t.credentials[ids.credential := Credential(ids.identity, passwordHash)]
    ensures u.users == t.users[ids.user := User(ids.tenant, ids.identity, email)]
    ensures u.roles == t.roles[ids.role := Role(ids.tenant, "tenant_owner")]
    ensures u.userRoles == t.userRoles + {(ids.user, ids.role)}
    ensures u.tenants.Keys == t.tenants.Keys + {ids.tenant}
  {
    hide FirstFree, Names;
  }

  /** Rows were added for the user and for the role, and grants for the role only. */
  ghost predicate AddsOnly(t: Tables, u: Tables, user: Id, role: Id) {
    && Extends(t.users, u.users) && Extends(t.roles, u.roles) && Extends(t.permissions, u.permissions)
    && t.rolePermissions <= u.rolePermissions && u.userRoles == t.userRoles + {(user, role)}
    && (forall rp :: rp in u.rolePermissions ==> rp in t.rolePermissions || rp.0 == role)
  }

  lemma RegisteredAddsOnly(t: Tables, u: Tables, email: string, passwordHash: string, base: string, ids: Drawn)
    requires Registered(t, u, email, passwordHash, base, ids) && ids.user !in t.users && ids.role !in t.roles
    ensures AddsOnly(t, u, ids.user, ids.role)
  {
    hide FirstFree, Names;
  }

  /** What others have is as it was. */
  lemma RegistrationLeavesOthersAlone(t: Tables, u: Tables, email: string, passwordHash: string, base: string, ids: Drawn,
                                      user: Id)
    requires Consistent(t) && Registered(t, u, email, passwordHash, base, ids)
    requires user in t.users && ids.user !in t.users && ids.role !in t.roles
    ensures u.users[user] == t.users[user] && RolesOf(u, user) == RolesOf(t, user)
    ensures PermissionsOf(u, user) == PermissionsOf(t, user)
  {
    hide Registered, UniqueKeys, Membership;
    RegisteredAddsOnly(t, u, email, passwordHash, base, ids);
    forall role | role in t.roles ensures RolePermissionsOf(u, role) == RolePermissionsOf(t, role) {
      OldRoleKeeps(t, u, ids.role, role);
    }
    hide RolePermissionsOf;
    assert forall ur :: ur in u.userRoles && ur.0 == user <==> ur in t.userRoles && ur.0 == user;
  }

  lemma OldRoleKeeps(t: Tables, u: Tables, added: Id, role: Id)
    requires ForeignKeys(t) && Extends(t.permissions, u.permissions) && role != added
    requires t.rolePermissions <= u.rolePermissions
    requires forall rp :: rp in u.rolePermissions ==> rp in t.rolePermissions || rp.0 == added
    ensures RolePermissionsOf(u, role) == RolePermissionsOf(t, role)
  {
  }

  /** Registration is all or nothing, wherever it fails; when it succeeds, it has made exactly its
      own rows, and the new owner has one role with exactly the ten permissions. */
  method Register(db: Database, email: string, passwordHash: string, base: string, ids: Drawn,
                  failsAt: Option<nat>, commitUp: bool)
    returns (outcome: Outcome)
    requires Consistent(db.tables) && |ids.permissions| == |OWNER_PERMISSIONS|
    modifies db
    ensures !outcome.Done? ==> db.tables == old(db.tables)
    ensures Consistent(db.tables) && Grows(old(db.tables), db.tables)
    ensures outcome.Done? ==>
      && Registered(old(db.tables), db.tables, email, passwordHash, base, ids)
      && RolesOf(db.tables, ids.user) == {"tenant_owner"}
      && PermissionsOf(db.tables, ids.user) == {
           "users:create", "users:read", "users:update", "users:delete", "roles:create", "roles:read", "roles:update",
           "roles:delete", "tenant:update", "tenant:delete"}
      && ids.user !in old(db.tables).users
    ensures outcome.Done? ==>
      && db.tables.identities == old(db.tables).identities[ids.identity := email]
      && db.tables.credentials == old(db.tables).credentials[ids.credential := Credential(ids.identity, passwordHash)]
      && db.tables.users == old(db.tables).users[ids.user := User(ids.tenant, ids.identity, email)]
      && db.tables.roles == old(db.tables).roles[ids.role := Role(ids.tenant, "tenant_owner")]
      && db.tables.userRoles == old(db.tables).userRoles + {(ids.user, ids.role)}
      && db.tables.tenants.Keys == old(db.tables).tenants.Keys + {ids.tenant}
    ensures failsAt.None? && commitUp && Unused(old(db.tables), ids) ==>
      (outcome.Done? <==> !Taken(old(db.tables).identities, email) && SlugAvailable(old(db.tables), base))
    ensures failsAt.None? && Taken(old(db.tables).identities, email) ==> outcome.Conflict?
  {
    hide RolePermissionsOf, PermissionsOf, RolesOf, Names, Consistent, Grows, Taken, SlugAvailable, Joined, OwnerRoleGiven;
    GrowsReflexive(db.tables);
    var tx := new Transaction(db.tables, failsAt);
    outcome := InsertOwner(tx, email, passwordHash, base, ids);
    if !outcome.Done? {
      return;
    }
    ghost var member := tx.tables;
    OwnerIsNew(db.tables, member, email, passwordHash, base, ids);
    var ok := GiveOwnerRole(tx, ids);
    if !ok {
      return Failed;
    }
    GrowsTransitive(db.tables, member, tx.tables);
    OwnerPermissionNames();
    OwnerRows(db.tables, member, tx.tables, email, passwordHash, base, ids);
    ok := tx.Commit(db, commitUp);
    if !ok {
      return Failed;
    }
  }

  predicate UsernameTaken(t: Tables, tenant: Id, username: string) {
    exists u :: u in t.users && t.users[u].tenant == tenant && t.users[u].username == username
  }

  /** A user joins an existing tenant with one of that tenant's roles, or nothing happens. */
  method CreateUser(db: Database, tenant: Id, email: string, passwordHash: string, roleName: string, ids: Drawn,
                    failsAt: Option<nat>, commitUp: bool)
    returns (outcome: Outcome, created: Option<Id>)
    requires Consistent(db.tables)
    modifies db
    ensures outcome.Done? <==> created == Some(ids.user)
    ensures !outcome.Done? ==> created.None? && db.tables == old(db.tables)
    ensures Consistent(db.tables) && Grows(old(db.tables), db.tables)
    ensures outcome.Done? ==> exists role ::
      && role in old(db.tables).roles && old(db.tables).roles[role] == Role(tenant, roleName)
      && db.tables == Assign(AddMember(old(db.tables), ids.identity, email, ids.credential, passwordHash,
                                       ids.user, tenant), ids.user, role)
      && RolesOf(db.tables, ids.user) == {roleName}
      && PermissionsOf(db.tables, ids.user) == RolePermissionsOf(old(db.tables), role)
      && db.tables == old(db.tables).(
           identities := old(db.tables).identities[ids.identity := email],
           credentials := old(db.tables).credentials[ids.credential := Credential(ids.identity, passwordHash)],
           users := old(db.tables).users[ids.user := User(tenant, ids.identity, email)],
           userRoles := old(db.tables).userRoles + {(ids.user, role)})
    ensures failsAt.None? && commitUp && Unused(old(db.tables), ids) ==>
      (outcome.Done? <==> !Taken(old(db.tables).identities, email) && !UsernameTaken(old(db.tables), tenant, email)
                          && Taken(old(db.tables).roles, Role(tenant, roleName)))
    ensures failsAt.None? && Taken(old(db.tables).identities, email) ==> outcome.Conflict?
  {
    created := None;
    ghost var before := db.tables;
    var tx := new Transaction(db.tables, failsAt);
    var unique := IdentityInsertable(tx.tables, ids.identity, email);
    var refused := tx.Refuses();
    var ok := tx.Execute(AddIdentity(tx.tables, ids.identity, email), unique);
    if !ok {
      return if refused then Failed else Conflict, None;
    }
    var c := Credential(ids.identity, passwordHash);
    ok := tx.Execute(AddCredential(tx.tables, ids.credential, c), CredentialInsertable(tx.tables, ids.credential, c));
    if !ok {
      return Failed, None;
    }
    var user := User(tenant, ids.identity, email);
    ok := tx.Execute(AddUser(tx.tables, ids.user, user), UserInsertable(tx.tables, ids.user, user));
    if !ok {
      return Failed, None;
    }
    ghost var member := tx.tables;
    AddMemberConsistent(before, ids.identity, email, ids.credential, passwordHash, ids.user, tenant);
    var role := tx.RoleByName(tenant, roleName);
    if role.None? {
      return Failed, None;
    }
    ok := tx.Execute(Assign(tx.tables, ids.user, role.value), Assignable(tx.tables, ids.user, role.value));
    if !ok {
      return Failed, None;
    }
    AssignConsistent(member, ids.user, role.value);
    FirstRole(member, ids.user, role.value);
    GrowsTransitive(before, member, tx.tables);
    assert RolePermissionsOf(member, role.value) == RolePermissionsOf(before, role.value);
    ok := tx.Commit(db, commitUp);
    if !ok {
      return Failed, None;
    }
    outcome, created := Done, Some(ids.user);
  }

  /** A role is created unless the tenant has one of that name. A lookup that fails is taken for
      one that found nothing, and the insert is left to the constraint. */
  method CreateRole(db: Database, id: Id, tenant: Id, name: string, lookupUp: bool, insertUp: bool)
    returns (outcome: Outcome)
    requires Consistent(db.tables)
    modifies db
    ensures outcome.Done? <==>
      && insertUp && id !in old(db.tables).roles && tenant in old(db.tables).tenants
      && (forall r :: r in old(db.tables).roles ==> old(db.tables).roles[r] != Role(tenant, name))
    ensures outcome.Conflict? <==>
      lookupUp && exists r :: r in old(db.tables).roles && old(db.tables).roles[r] == Role(tenant, name)
    ensures db.tables == if outcome.Done?
      then old(db.tables).(roles := old(db.tables).roles[id := Role(tenant, name)]) else old(db.tables)
    ensures Consistent(db.tables) && Grows(old(db.tables), db.tables)
  {
    var role := Role(tenant, name);
    if lookupUp && Taken(db.tables.roles, role) {
      return Conflict;
    }
    if !insertUp || !RoleInsertable(db.tables, id, role) {
      return Failed;
    }
    AddRoleConsistent(db.tables, id, role);
    db.tables := AddRole(db.tables, id, role);
    outcome := Done;
  }

  /** A permission goes to a role of the caller's own tenant, by name, at most once. */
  method AssignPermission(db: Database, tenant: Id, role: Id, name: string, up: bool) returns (outcome: Outcome)
    requires Consistent(db.tables)
    modifies db
    ensures role in old(db.tables).roles && old(db.tables).roles[role].tenant != tenant && up ==> outcome.Forbidden?
    ensures outcome.Done? ==>
      && role in old(db.tables).roles && old(db.tables).roles[role].tenant == tenant
      && name !in RolePermissionsOf(old(db.tables), role)
      && RolePermissionsOf(db.tables, role) == RolePermissionsOf(old(db.tables), role) + {name}
      && db.tables == old(db.tables).(rolePermissions := db.tables.rolePermissions)
      && (exists p :: p in old(db.tables).permissions && old(db.tables).permissions[p] == name
            && (role, p) !in old(db.tables).rolePermissions
            && db.tables.rolePermissions == old(db.tables).rolePermissions + {(role, p)})
    ensures !outcome.Done? ==> db.tables == old(db.tables)
    ensures outcome.Done? <==>
      && up && role in old(db.tables).roles && old(db.tables).roles[role].tenant == tenant
      && Taken(old(db.tables).permissions, name) && name !in RolePermissionsOf(old(db.tables), role)
    ensures Consistent(db.tables) && Grows(old(db.tables), db.tables)
  {
    var t := db.tables;
    if !up || role !in t.roles {
      return Failed;
    }
    if t.roles[role].tenant != tenant {
      return Forbidden;
    }
    if permission :| permission in t.permissions && t.permissions[permission] == name {
      GrantedIffNamed(t, role, permission);
      if !Grantable(t, role, permission) {
        return Failed;
      }
      GrantConsistent(t, role, permission);
      GrantAddsName(t, role, permission);
      db.tables := Grant(t, role, permission);
      outcome := Done;
    } else {
      outcome := Failed;
    }
  }
}
