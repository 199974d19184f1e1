// Tenants, identities, users, roles and permissions: the tables with the
// constraints the migrations declare, and the joins that give a principal its
// roles and permissions.

module Directory {
  import opened Types

  datatype Credential = Credential(identity: Id, passwordHash: string)
  datatype User = User(tenant: Id, identity: Id, username: string)
  datatype Role = Role(tenant: Id, name: string)

  datatype Tables = Tables(
    tenants: map<Id, string>,          // id to slug
    identities: map<Id, string>,       // id to primary e-mail
    credentials: map<Id, Credential>,
    users: map<Id, User>,
    roles: map<Id, Role>,
    permissions: map<Id, string>,      // id to name
    rolePermissions: set<(Id, Id)>,
    userRoles: set<(Id, Id)>)

  const EMPTY := Tables(map[], map[], map[], map[], map[], map[], {}, {})

  predicate Unique<V(==)>(m: map<Id, V>) {
    forall a, b :: a in m && b in m && m[a] == m[b] ==> a == b
  }

  function OwnerOf(t: Tables, user: Id): Owner
    requires user in t.users
  {
    Owner(t.users[user].tenant, t.users[user].identity, user)
  }

  /** A user row exists and says the same tenant and identity. */
  predicate Owned(t: Tables, o: Owner) {
    o.user in t.users && OwnerOf(t, o.user) == o
  }

  ghost function UserOf(t: Tables, identity: Id): Option<Id> {
    if u :| u in t.users && t.users[u].identity == identity then Some(u) else None
  }

  ghost function IdentityByEmail(t: Tables, email: string): Option<Id> {
    if i :| i in t.identities && t.identities[i] == email then Some(i) else None
  }

  // ----- The joins -----

  function RolesOf(t: Tables, user: Id): set<string> {
    set ur | ur in t.userRoles && ur.0 == user && ur.1 in t.roles :: t.roles[ur.1].name
  }

  function RolePermissionsOf(t: Tables, role: Id): set<string> {
    set rp | rp in t.rolePermissions && rp.0 == role && rp.1 in t.permissions :: t.permissions[rp.1]
  }

  function PermissionsOf(t: Tables, user: Id): set<string> {
    set ur, name | ur in t.userRoles && ur.0 == user && name in RolePermissionsOf(t, ur.1) :: name
  }

  /** The two joins, row by row. */
  lemma JoinsByRow(t: Tables, user: Id, name: string)
    ensures name in RolesOf(t, user) <==>
      exists role :: (user, role) in t.userRoles && role in t.roles && t.roles[role].name == name
    ensures name in PermissionsOf(t, user) <==>
      exists role, p :: (user, role) in t.userRoles && (role, p) in t.rolePermissions && p in t.permissions && t.permissions[p] == name
  {
    if name in RolesOf(t, user) {
      var ur :| ur in t.userRoles && ur.0 == user && ur.1 in t.roles && t.roles[ur.1].name == name;
      assert ur == (user, ur.1);
    }
    if name in PermissionsOf(t, user) {
      var ur :| ur in t.userRoles && ur.0 == user && name in RolePermissionsOf(t, ur.1);
      var rp :| rp in t.rolePermissions && rp.0 == ur.1 && rp.1 in t.permissions && t.permissions[rp.1] == name;
      assert ur == (user, ur.1) && rp == (ur.1, rp.1);
    }
    if role, p :| (user, role) in t.userRoles && (role, p) in t.rolePermissions && p in t.permissions && t.permissions[p] == name {
      assert (role, p).0 == role && name in RolePermissionsOf(t, role);
    }
  }

  // ----- Constraints -----

  ghost predicate ForeignKeys(t: Tables) {
    && (forall c :: c in t.credentials ==> t.credentials[c].identity in t.identities)
    && (forall u :: u in t.users ==> t.users[u].tenant in t.tenants && t.users[u].identity in t.identities)
    && (forall r :: r in t.roles ==> t.roles[r].tenant in t.tenants)
    && (forall rp :: rp in t.rolePermissions ==> rp.0 in t.roles && rp.1 in t.permissions)
    && (forall ur :: ur in t.userRoles ==> ur.0 in t.users && ur.1 in t.roles)
  }

  ghost predicate UniqueKeys(t: Tables) {
    Unique(t.tenants) && Unique(t.identities) && Unique(t.roles) && Unique(t.permissions)
  }

  /** What no constraint declares, but every operation keeps: one user to an identity, and roles
      held only inside the user's own tenant. */
  ghost predicate Membership(t: Tables) {
    && (forall i :: i in t.identities ==> exists u :: u in t.users && t.users[u].identity == i)
    && (forall u, v :: u in t.users && v in t.users && t.users[u].identity == t.users[v].identity ==> u == v)
    && (forall ur :: ur in t.userRoles && ur.0 in t.users && ur.1 in t.roles ==>
          t.users[ur.0].tenant == t.roles[ur.1].tenant)
  }

  ghost predicate Consistent(t: Tables) {
    ForeignKeys(t) && UniqueKeys(t) && Membership(t)
  }

  ghost predicate Extends<V>(m: map<Id, V>, n: map<Id, V>) {
    forall k :: k in m ==> k in n && n[k] == m[k]
  }

  /** Rows are only ever added: none is removed, renamed or moved. */
  ghost predicate Grows(t: Tables, u: Tables) {
    && Extends(t.tenants, u.tenants) && Extends(t.identities, u.identities) && Extends(t.credentials, u.credentials)
    && Extends(t.users, u.users) && Extends(t.roles, u.roles) && Extends(t.permissions, u.permissions)
    && t.rolePermissions <= u.rolePermissions && t.userRoles <= u.userRoles
  }

  lemma GrowsReflexive(t: Tables)
    ensures Grows(t, t)
  {
  }

  lemma GrowsTransitive(t: Tables, u: Tables, v: Tables)
    requires Grows(t, u) && Grows(u, v)
    ensures Grows(t, v)
  {
  }

  /** So no grant is ever taken back: what a user had stays a subset of what it has. */
  lemma GrantsGrow(t: Tables, u: Tables, user: Id)
    requires Grows(t, u)
    ensures RolesOf(t, user) <= RolesOf(u, user)
    ensures PermissionsOf(t, user) <= PermissionsOf(u, user)
  {
    forall name | name in RolesOf(t, user) ensures name in RolesOf(u, user) {
      var ur :| ur in t.userRoles && ur.0 == user && ur.1 in t.roles && t.roles[ur.1].name == name;
      assert ur in u.userRoles && u.roles[ur.1].name == name;
    }
    forall name | name in PermissionsOf(t, user) ensures name in PermissionsOf(u, user) {
      var ur :| ur in t.userRoles && ur.0 == user && name in RolePermissionsOf(t, ur.1);
      var rp :| rp in t.rolePermissions && rp.0 == ur.1 && rp.1 in t.permissions && t.permissions[rp.1] == name;
      assert rp in u.rolePermissions && u.permissions[rp.1] == name;
      assert ur in u.userRoles && name in RolePermissionsOf(u, ur.1);
    }
  }

  lemma OwnedStays(t: Tables, u: Tables, o: Owner)
    requires Grows(t, u) && Owned(t, o)
    ensures Owned(u, o)
  {
  }

  // ----- Rows an operation adds -----

  function AddIdentity(t: Tables, id: Id, email: string): Tables { t.(identities := t.identities[id := email]) }
  function AddCredential(t: Tables, id: Id, c: Credential): Tables { t.(credentials := t.credentials[id := c]) }
  function AddTenant(t: Tables, id: Id, slug: string): Tables { t.(tenants := t.tenants[id := slug]) }
  function AddUser(t: Tables, id: Id, user: User): Tables { t.(users := t.users[id := user]) }
  function AddRole(t: Tables, id: Id, role: Role): Tables { t.(roles := t.roles[id := role]) }
  function AddPermission(t: Tables, id: Id, name: string): Tables { t.(permissions := t.permissions[id := name]) }
  function Grant(t: Tables, role: Id, permission: Id): Tables {
    t.(rolePermissions := t.rolePermissions + {(role, permission)})
  }
  function Assign(t: Tables, user: Id, role: Id): Tables { t.(userRoles := t.userRoles + {(user, role)}) }

  predicate Taken<V(==)>(m: map<Id, V>, v: V) {
    exists k :: k in m && m[k] == v
  }

  predicate IdentityInsertable(t: Tables, id: Id, email: string) {
    id !in t.identities && !Taken(t.identities, email)
  }

  predicate CredentialInsertable(t: Tables, id: Id, c: Credential) {
    id !in t.credentials && c.identity in t.identities
  }

  predicate TenantInsertable(t: Tables, id: Id, slug: string) {
    id !in t.tenants && !Taken(t.tenants, slug)
  }

  predicate UserInsertable(t: Tables, id: Id, user: User) {
    && id !in t.users && user.tenant in t.tenants && user.identity in t.identities
    && (forall u :: u in t.users && t.users[u].tenant == user.tenant ==>
          t.users[u].identity != user.identity && t.users[u].username != user.username)
  }

  predicate RoleInsertable(t: Tables, id: Id, role: Role) {
    id !in t.roles && role.tenant in t.tenants && !Taken(t.roles, role)
  }

  predicate PermissionInsertable(t: Tables, id: Id, name: string) {
    id !in t.permissions && !Taken(t.permissions, name)
  }

  predicate Grantable(t: Tables, role: Id, permission: Id) {
    (role, permission) !in t.rolePermissions && role in t.roles && permission in t.permissions
  }

  predicate Assignable(t: Tables, user: Id, role: Id) {
    (user, role) !in t.userRoles && user in t.users && role in t.roles
  }

  // ----- Every row added keeps the tables consistent -----

  /** A new identity comes with its credential and its one user. */
  function AddMember(t: Tables, identity: Id, email: string, credential: Id, passwordHash: string,
                     user: Id, tenant: Id): Tables
  {
    AddUser(AddCredential(AddIdentity(t, identity, email), credential, Credential(identity, passwordHash)),
            user, User(tenant, identity, email))
  }

  lemma AddMemberConsistent(t: Tables, identity: Id, email: string, credential: Id, passwordHash: string,
                            user: Id, tenant: Id)
    requires Consistent(t) && IdentityInsertable(t, identity, email) && credential !in t.credentials
    requires user !in t.users && tenant in t.tenants
    ensures var u := AddMember(t, identity, email, credential, passwordHash, user, tenant);
      Consistent(u) && Grows(t, u)
  {
    AddMemberMembership(t, identity, email, credential, passwordHash, user, tenant);
    AddMemberKeys(t, identity, email, credential, passwordHash, user, tenant);
    AddMemberGrows(t, identity, email, credential, passwordHash, user, tenant);
  }

  lemma AddMemberGrows(t: Tables, identity: Id, email: string, credential: Id, passwordHash: string,
                       user: Id, tenant: Id)
    requires identity !in t.identities && credential !in t.credentials && user !in t.users
    ensures Grows(t, AddMember(t, identity, email, credential, passwordHash, user, tenant))
  {
  }

  lemma AddMemberKeys(t: Tables, identity: Id, email: string, credential: Id, passwordHash: string,
                      user: Id, tenant: Id)
    requires ForeignKeys(t) && UniqueKeys(t) && IdentityInsertable(t, identity, email) && tenant in t.tenants
    ensures var u := AddMember(t, identity, email, credential, passwordHash, user, tenant);
      ForeignKeys(u) && UniqueKeys(u)
  {
  }

  lemma AddMemberMembership(t: Tables, identity: Id, email: string, credential: Id, passwordHash: string,
                            user: Id, tenant: Id)
    requires ForeignKeys(t) && Membership(t) && identity !in t.identities && user !in t.users
    ensures Membership(AddMember(t, identity, email, credential, passwordHash, user, tenant))
  {
    var u := AddMember(t, identity, email, credential, passwordHash, user, tenant);
    forall i | i in u.identities ensures exists v :: v in u.users && u.users[v].identity == i {
      if i == identity {
        assert user in u.users;
      } else {
        var v :| v in t.users && t.users[v].identity == i;
        assert v in u.users;
      }
    }
  }

  lemma AssignConsistent(t: Tables, user: Id, role: Id)
    requires Consistent(t) && Assignable(t, user, role) && t.users[user].tenant == t.roles[role].tenant
    ensures var u := Assign(t, user, role); Consistent(u) && Grows(t, u)
  {
  }

  lemma FirstRole(t: Tables, user: Id, role: Id)
    requires role in t.roles && forall ur :: ur in t.userRoles ==> ur.0 != user
    ensures var u := Assign(t, user, role);
      RolesOf(u, user) == {t.roles[role].name} && PermissionsOf(u, user) == RolePermissionsOf(t, role)
  {
    var u := Assign(t, user, role);
    assert (user, role) in u.userRoles;
    assert RolePermissionsOf(u, role) == RolePermissionsOf(t, role);
  }

  lemma AddTenantConsistent(t: Tables, id: Id, slug: string)
    requires Consistent(t) && TenantInsertable(t, id, slug)
    ensures Consistent(AddTenant(t, id, slug)) && Grows(t, AddTenant(t, id, slug))
  {
    assert Membership(AddTenant(t, id, slug)) by {
      forall i | i in t.identities ensures exists u :: u in t.users && t.users[u].identity == i {
      }
    }
  }

  lemma AddRoleConsistent(t: Tables, id: Id, role: Role)
    requires Consistent(t) && RoleInsertable(t, id, role)
    ensures Consistent(AddRole(t, id, role)) && Grows(t, AddRole(t, id, role))
  {
  }

  lemma AddPermissionConsistent(t: Tables, id: Id, name: string)
    requires Consistent(t) && PermissionInsertable(t, id, name)
    ensures Consistent(AddPermission(t, id, name)) && Grows(t, AddPermission(t, id, name))
  {
  }

  lemma GrantConsistent(t: Tables, role: Id, permission: Id)
    requires Consistent(t) && Grantable(t, role, permission)
    ensures Consistent(Grant(t, role, permission)) && Grows(t, Grant(t, role, permission))
  {
  }
}
