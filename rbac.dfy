/** The permission evaluator, the static permission catalog and the role
    store of backend/src/services/rbacService.ts. */
module Rbac {
  import opened Common

  /** A grant: the verbs allowed on one resource; "*" allows every verb. */
  datatype Permission = Permission(resource: string, actions: seq<string>)

  /** A row of the roles table; its permission column may be null. */
  datatype RoleRow = RoleRow(id: nat, name: string, description: string, permissions: Option<seq<Permission>>)

  /** A role as the service returns it. */
  datatype Role = Role(id: nat, name: string, description: string, permissions: seq<Permission>)

  /** The columns of a user that the evaluator reads. */
  datatype UserRow = UserRow(role: string, isActive: bool)

  /** What the evaluator sees of the database. When `reachable` is false
      every query throws. */
  datatype Directory = Directory(users: map<string, UserRow>, roles: seq<RoleRow>, reachable: bool)

  /** A seed role: name, description and permissions. */
  datatype RoleTemplate = RoleTemplate(name: string, description: string, permissions: seq<Permission>)

  const Wildcard: string := "*"

  /** Roles that are granted everything whatever their stored permissions. */
  predicate IsSuperRole(role: string) {
    role == "admin" || role == "super_admin"
  }

  /** `p` grants `action` on `resource`. */
  predicate Matches(p: Permission, resource: string, action: string) {
    p.resource == resource && (action in p.actions || Wildcard in p.actions)
  }

  // ---------------------------------------------------------------- lookups

  /** The role of the user when the user exists and is active
      (`SELECT role FROM users WHERE id = $1 AND is_active = TRUE`). */
  function ActiveRole(d: Directory, userId: string): (r: Option<string>)
    requires d.reachable
    ensures r.Some? <==> userId in d.users && d.users[userId].isActive
    ensures r.Some? ==> r.value == d.users[userId].role
  {
    if userId in d.users && d.users[userId].isActive then Some(d.users[userId].role) else None
  }

  /** Position of the first row named `name` (`SELECT ... FROM roles WHERE name = $1`,
      of which the first row is read). */
  function FindRole(roles: seq<RoleRow>, name: string): (r: Option<nat>)
    ensures r.Some? ==> r.value < |roles| && roles[r.value].name == name
    ensures r.Some? ==> forall j :: 0 <= j < r.value ==> roles[j].name != name
    ensures r.None? ==> forall j :: 0 <= j < |roles| ==> roles[j].name != name
  {
    if roles == [] then None
    else if roles[0].name == name then Some(0)
    else match FindRole(roles[1..], name)
      case None => None
      case Some(i) => Some(i + 1)
  }

  /** `permissions.some(...)`: some entry grants the action on the resource. */
  function Grants(perms: seq<Permission>, resource: string, action: string): (b: bool)
    ensures b <==> exists i :: 0 <= i < |perms| && Matches(perms[i], resource, action)
  {
    if perms == [] then false
    else Matches(perms[0], resource, action) || Grants(perms[1..], resource, action)
  }

  // ---------------------------------------------------------------- evaluator

  /** hasPermission: fail-closed decision for one (resource, action). */
  function HasPermission(d: Directory, userId: string, resource: string, action: string): (b: bool)
    ensures b ==> d.reachable && userId in d.users && d.users[userId].isActive
  {
    if !d.reachable then false
    else match ActiveRole(d, userId)
      case None => false
      case Some(role) =>
        if IsSuperRole(role) then true
        else match FindRole(d.roles, role)
          case None => false
          case Some(i) => Grants(d.roles[i].permissions.GetOr([]), resource, action)
  }

  /** The permissions stored for the role of an active, non-super user whose role has a row. */
  function StoredPermissions(d: Directory, userId: string): seq<Permission>
    requires d.reachable && userId in d.users && FindRole(d.roles, d.users[userId].role).Some?
  {
    d.roles[FindRole(d.roles, d.users[userId].role).value].permissions.GetOr([])
  }

  /** A missing or inactive user, or an unreachable database, is denied everything. */
  lemma FailClosed(d: Directory, userId: string, resource: string, action: string)
    requires !d.reachable || userId !in d.users || !d.users[userId].isActive
    ensures !HasPermission(d, userId, resource, action)
  {
  }

  /** An active admin or super_admin is granted everything, with or without a role row. */
  lemma SuperRoleBypass(d: Directory, userId: string, resource: string, action: string)
    requires d.reachable && userId in d.users && d.users[userId].isActive
    requires IsSuperRole(d.users[userId].role)
    ensures HasPermission(d, userId, resource, action)
  {
  }

  /** A non-super user whose role has no row is denied everything. */
  lemma UnknownRoleDenied(d: Directory, userId: string, resource: string, action: string)
    requires userId in d.users && !IsSuperRole(d.users[userId].role)
    requires forall j :: 0 <= j < |d.roles| ==> d.roles[j].name != d.users[userId].role
    ensures !HasPermission(d, userId, resource, action)
  {
  }

  /** For an active ordinary user with a role row, access is granted exactly
      when some stored entry names the resource and lists the action or "*". */
  lemma GrantedIffMatchingEntry(d: Directory, userId: string, resource: string, action: string)
    requires d.reachable && userId in d.users && d.users[userId].isActive
    requires !IsSuperRole(d.users[userId].role)
    requires FindRole(d.roles, d.users[userId].role).Some?
    ensures HasPermission(d, userId, resource, action) <==>
      exists p :: p in StoredPermissions(d, userId) && Matches(p, resource, action)
  {
    var perms := StoredPermissions(d, userId);
    if HasPermission(d, userId, resource, action) {
      var i :| 0 <= i < |perms| && Matches(perms[i], resource, action);
      assert perms[i] in perms;
    }
  }

  /** An entry that lists "*" among its actions, alone or with others,
      grants every action on its own resource. */
  lemma WildcardGrantsEveryAction(d: Directory, userId: string, resource: string, action: string)
    requires d.reachable && userId in d.users && d.users[userId].isActive
    requires FindRole(d.roles, d.users[userId].role).Some?
    requires exists p :: p in StoredPermissions(d, userId) && p.resource == resource && Wildcard in p.actions
    ensures HasPermission(d, userId, resource, action)
  {
    var perms := StoredPermissions(d, userId);
    var p :| p in perms && p.resource == resource && Wildcard in p.actions;
    var i :| 0 <= i < |perms| && perms[i] == p;
    assert Matches(perms[i], resource, action);
  }

  /** ... and nothing on any other resource: an ordinary user is granted a
      resource only through an entry naming that resource. */
  lemma GrantNeedsEntryForResource(d: Directory, userId: string, resource: string, action: string)
    requires HasPermission(d, userId, resource, action)
    requires !IsSuperRole(d.users[userId].role)
    ensures exists p :: p in StoredPermissions(d, userId) && p.resource == resource
  {
    var perms := StoredPermissions(d, userId);
    var i :| 0 <= i < |perms| && Matches(perms[i], resource, action);
    assert perms[i] in perms;
  }

  // ---------------------------------------------------------------- catalog

  /** getAllPermissions: the fixed catalog of resources and their verbs. */
  function AllPermissions(): (r: seq<Permission>)
    ensures |r| == 25
    ensures forall i :: 0 <= i < |r| ==> r[i].actions != []
  {
    var crud := ["create", "read", "update", "delete"];
    [ Permission("production", crud + ["approve"]),
      Permission("formulas", crud + ["approve"]),
      Permission("production_orders", crud + ["approve"]),
      Permission("quality", crud + ["approve"]),
      Permission("quality_controls", crud),
      Permission("non_conformities", crud + ["resolve"]),
      Permission("inventory", crud),
      Permission("stock_movements", ["create", "read", "update"]),
      Permission("sales", crud + ["approve"]),
      Permission("quotes", crud + ["approve"]),
      Permission("orders", crud + ["approve"]),
      Permission("customers", crud),
      Permission("costs", ["read", "update"]),
      Permission("reports", ["read", "export"]),
      Permission("maintenance", crud),
      Permission("equipment", crud),
      Permission("deliveries", crud),
      Permission("vehicles", crud),
      Permission("agropole", crud),
      Permission("sites", crud),
      Permission("parcels", crud),
      Permission("users", crud),
      Permission("roles", crud),
      Permission("entities", crud),
      Permission("settings", ["read", "update"]) ]
  }

  /** No resource appears twice in the catalog. */
  lemma CatalogResourcesDistinct()
    ensures |AllPermissions()| == 25
    ensures ResourcesDistinct(AllPermissions())
  {
    var ps := AllPermissions();
    forall i, j | 0 <= i < j < |ps| ensures ps[i].resource != ps[j].resource {
      if i < 5 { CatalogRows0To4Distinct(i, j); }
      else if i < 10 { CatalogRows5To9Distinct(i, j); }
      else if i < 15 { CatalogRows10To14Distinct(i, j); }
      else { CatalogRows15To24Distinct(i, j); }
    }
  }

  // The catalog's 300 pairs of resources, compared a few rows at a time.

  lemma CatalogRows0To4Distinct(i: nat, j: nat)
    requires i < 5 && i < j < 25
    ensures AllPermissions()[i].resource != AllPermissions()[j].resource
  {
  }

  lemma CatalogRows5To9Distinct(i: nat, j: nat)
    requires 5 <= i < 10 && i < j < 25
    ensures AllPermissions()[i].resource != AllPermissions()[j].resource
  {
  }

  lemma CatalogRows10To14Distinct(i: nat, j: nat)
    requires 10 <= i < 15 && i < j < 25
    ensures AllPermissions()[i].resource != AllPermissions()[j].resource
  {
  }

  lemma CatalogRows15To24Distinct(i: nat, j: nat)
    requires 15 <= i < j < 25
    ensures AllPermissions()[i].resource != AllPermissions()[j].resource
  {
  }

  /** getUserPermissions: the catalog for super-roles, otherwise the stored
      list; empty for a missing user or role, or when a query fails. */
  function GetUserPermissions(d: Directory, userId: string): (r: seq<Permission>)
    ensures r != [] ==> d.reachable && userId in d.users && d.users[userId].isActive
  {
    if !d.reachable then []
    else match ActiveRole(d, userId)
      case None => []
      case Some(role) =>
        if IsSuperRole(role) then AllPermissions()
        else match FindRole(d.roles, role)
          case None => []
          case Some(i) => d.roles[i].permissions.GetOr([])
  }

  /** For an ordinary user the listed permissions are exactly what the
      evaluator consults: a pair is granted iff some listed entry matches. */
  lemma ListedPermissionsDecide(d: Directory, userId: string, resource: string, action: string)
    requires d.reachable && userId in d.users && d.users[userId].isActive
    requires !IsSuperRole(d.users[userId].role)
    ensures HasPermission(d, userId, resource, action) <==>
      Grants(GetUserPermissions(d, userId), resource, action)
  {
  }

  /** A super-role user is listed the catalog, not its stored entries, and is
      granted pairs the catalog does not list ("production:export"). */
  lemma SuperRoleListIsCatalog(d: Directory, userId: string)
    requires d.reachable && userId in d.users && d.users[userId].isActive
    requires IsSuperRole(d.users[userId].role)
    ensures GetUserPermissions(d, userId) == AllPermissions()
    ensures HasPermission(d, userId, "production", "export")
    ensures !Grants(GetUserPermissions(d, userId), "production", "export")
  {
    var c := AllPermissions();
    forall i | 0 <= i < |c| ensures !Matches(c[i], "production", "export") {
      assert c[0].actions == ["create", "read", "update", "delete", "approve"];
    }
  }

  /** A missing or inactive user is listed nothing. */
  lemma NoListForInactive(d: Directory, userId: string)
    requires userId !in d.users || !d.users[userId].isActive
    ensures GetUserPermissions(d, userId) == []
  {
  }

  // ---------------------------------------------------------------- seeding

  /** The catalog with every action list replaced by the wildcard. */
  function Wildcarded(ps: seq<Permission>): seq<Permission> {
    seq(|ps|, i requires 0 <= i < |ps| => Permission(ps[i].resource, [Wildcard]))
  }


  /** The six templates of initializeDefaultRoles, in seeding order. */
  function DefaultRoles(): (r: seq<RoleTemplate>)
    ensures |r| == 6 && r[0].name == "super_admin" && r[1].name == "admin"
    ensures forall i, j :: 0 <= i < j < |r| ==> r[i].name != r[j].name
  {
    [ SuperAdminTemplate(), AdminTemplate(), ProductionManagerTemplate(),
      QualityControllerTemplate(), SalesManagerTemplate(), OperatorTemplate() ]
  }

  function SuperAdminTemplate(): RoleTemplate {
    RoleTemplate("super_admin", "Super administrateur avec tous les accès", Wildcarded(AllPermissions()))
  }

  function AdminTemplate(): RoleTemplate {
    RoleTemplate("admin", "Administrateur", Wildcarded(AllPermissions()))
  }

  function ProductionManagerTemplate(): RoleTemplate {
    RoleTemplate("production_manager", "Responsable de production",
      [ Permission("production", ["*"]),
        Permission("formulas", ["*"]),
        Permission("production_orders", ["*"]),
        Permission("quality", ["read", "update"]),
        Permission("inventory", ["read"]),
        Permission("reports", ["read", "export"]) ])
  }

  function QualityControllerTemplate(): RoleTemplate {
    RoleTemplate("quality_controller", "Contrôleur qualité",
      [ Permission("quality", ["*"]),
        Permission("quality_controls", ["*"]),
        Permission("non_conformities", ["*"]),
        Permission("production", ["read"]),
        Permission("reports", ["read", "export"]) ])
  }

  function SalesManagerTemplate(): RoleTemplate {
    RoleTemplate("sales_manager", "Responsable commercial",
      [ Permission("sales", ["*"]),
        Permission("quotes", ["*"]),
        Permission("orders", ["*"]),
        Permission("customers", ["*"]),
        Permission("deliveries", ["read"]),
        Permission("reports", ["read", "export"]) ])
  }

  function OperatorTemplate(): RoleTemplate {
    RoleTemplate("operator", "Opérateur de production",
      [ Permission("production", ["read", "update"]),
        Permission("production_orders", ["read", "update"]),
        Permission("quality_controls", ["create", "read"]),
        Permission("inventory", ["read"]) ])
  }

  predicate ResourcesDistinct(ps: seq<Permission>) {
    forall i, j :: 0 <= i < j < |ps| ==> ps[i].resource != ps[j].resource
  }

  /** Replacing the actions keeps resources distinct. */
  lemma WildcardedKeepsDistinct(ps: seq<Permission>)
    requires ResourcesDistinct(ps)
    ensures ResourcesDistinct(Wildcarded(ps))
  {
  }

  /** The seeded super_admin and admin roles hold exactly one wildcard entry
      per catalog resource, in catalog order. */
  lemma SuperTemplatesWildcardCatalog(k: nat)
    requires k < 2
    ensures DefaultRoles()[k].name == (if k == 0 then "super_admin" else "admin")
    ensures DefaultRoles()[k].permissions == Wildcarded(AllPermissions())
    ensures ResourcesDistinct(DefaultRoles()[k].permissions)
  {
    CatalogResourcesDistinct();
    WildcardedKeepsDistinct(AllPermissions());
    if k == 0 {
      assert DefaultRoles()[0] == SuperAdminTemplate();
    } else {
      assert DefaultRoles()[1] == AdminTemplate();
    }
  }

  /** One template: create its role only when no role has its name. */
  function SeedOne(roles: seq<RoleRow>, t: RoleTemplate): seq<RoleRow> {
    if FindRole(roles, t.name).Some? then roles
    else roles + [RoleRow(|roles|, t.name, t.description, Some(t.permissions))]
  }

  /** The roles table after seeding the templates `ts` in order. */
  function SeedFrom(roles: seq<RoleRow>, ts: seq<RoleTemplate>): (r: seq<RoleRow>)
    ensures |roles| <= |r| <= |roles| + |ts|
    decreases |ts|
  {
    if ts == [] then roles else SeedFrom(SeedOne(roles, ts[0]), ts[1..])
  }

  predicate HasName(roles: seq<RoleRow>, name: string) {
    exists i :: 0 <= i < |roles| && roles[i].name == name
  }

  /** Seeding never changes or removes an existing row, edited or not. */
  lemma {:induction false} SeedKeepsExisting(roles: seq<RoleRow>, ts: seq<RoleTemplate>)
    ensures roles <= SeedFrom(roles, ts)
    decreases |ts|
  {
    if ts != [] {
      SeedKeepsExisting(SeedOne(roles, ts[0]), ts[1..]);
    }
  }

  /** After seeding every template name has a role. */
  lemma {:induction false} SeedCovers(roles: seq<RoleRow>, ts: seq<RoleTemplate>)
    ensures forall t :: t in ts ==> HasName(SeedFrom(roles, ts), t.name)
    decreases |ts|
  {
    if ts != [] {
      var next := SeedOne(roles, ts[0]);
      assert HasName(next, ts[0].name) by {
        var f := FindRole(roles, ts[0].name);
        if f.None? {
          assert next[|roles|].name == ts[0].name;
        }
      }
      SeedCovers(next, ts[1..]);
      SeedKeepsExisting(next, ts[1..]);
      var r := SeedFrom(roles, ts);
      assert r == SeedFrom(next, ts[1..]);
      var i :| 0 <= i < |next| && next[i].name == ts[0].name;
      assert r[i] == next[i];
      forall t | t in ts ensures HasName(r, t.name) {
        if t != ts[0] {
          assert t in ts[1..];
        }
      }
    }
  }

  /** Seeding templates whose names all exist already changes nothing. */
  lemma {:induction false} SeedNoOpWhenPresent(roles: seq<RoleRow>, ts: seq<RoleTemplate>)
    requires forall t :: t in ts ==> HasName(roles, t.name)
    ensures SeedFrom(roles, ts) == roles
    decreases |ts|
  {
    if ts != [] {
      assert HasName(roles, ts[0].name);
      assert SeedOne(roles, ts[0]) == roles;
      forall t | t in ts[1..] ensures HasName(roles, t.name) {
        assert t in ts;
      }
      SeedNoOpWhenPresent(roles, ts[1..]);
    }
  }

  /** initializeDefaultRoles run twice gives the roles of running it once. */
  lemma SeedIdempotent(roles: seq<RoleRow>, ts: seq<RoleTemplate>)
    ensures SeedFrom(SeedFrom(roles, ts), ts) == SeedFrom(roles, ts)
  {
    SeedCovers(roles, ts);
    SeedNoOpWhenPresent(SeedFrom(roles, ts), ts);
  }

  predicate NamesUnique(roles: seq<RoleRow>) {
    forall i, j :: 0 <= i < j < |roles| ==> roles[i].name != roles[j].name
  }

  /** Seeding adds no second row for a name: distinct names stay distinct. */
  lemma {:induction false} SeedKeepsNamesUnique(roles: seq<RoleRow>, ts: seq<RoleTemplate>)
    requires NamesUnique(roles)
    ensures NamesUnique(SeedFrom(roles, ts))
    decreases |ts|
  {
    if ts != [] {
      var next := SeedOne(roles, ts[0]);
      assert NamesUnique(next);
      SeedKeepsNamesUnique(next, ts[1..]);
    }
  }

  // ---------------------------------------------------------------- role store

  /** Role names by character code (the `ORDER BY name` of getAllRoles). */
  predicate RoleNameLe(a: Role, b: Role) {
    StrLe(a.name, b.name)
  }

  lemma RoleNameLeTotal()
    ensures Total(RoleNameLe)
  {
    forall a: Role, b: Role ensures RoleNameLe(a, b) || RoleNameLe(b, a) {
      StrLeTotal(a.name, b.name);
    }
  }

  /** The roles of a table as returned, null permission lists read as empty. */
  function RoleViews(rows: seq<RoleRow>): (r: seq<Role>)
    ensures |r| == |rows|
    ensures forall i :: 0 <= i < |rows| ==>
      r[i] == Role(rows[i].id, rows[i].name, rows[i].description, rows[i].permissions.GetOr([]))
  {
    if rows == [] then []
    else [Role(rows[0].id, rows[0].name, rows[0].description, rows[0].permissions.GetOr([]))] + RoleViews(rows[1..])
  }

  datatype RbacError = RoleNotFound

  /** The roles table. A new row's id is its position: roles are never deleted. */
  class RoleStore {
    var roles: seq<RoleRow>

    ghost predicate Valid()
      reads this
    {
      forall i :: 0 <= i < |roles| ==> roles[i].id == i
    }

    constructor ()
      ensures Valid() && roles == []
    {
      roles := [];
    }

    /** createRole: inserts a row; no check that the name is free. */
    method CreateRole(name: string, description: string, permissions: seq<Permission>) returns (role: Role)
      requires Valid()
      modifies this
      ensures Valid()
      ensures roles == old(roles) + [RoleRow(|old(roles)|, name, description, Some(permissions))]
      ensures role == Role(|old(roles)|, name, description, permissions)
    {
      role := Role(|roles|, name, description, permissions);
      roles := roles + [RoleRow(|roles|, name, description, Some(permissions))];
    }

    /** updateRole: replaces name, description and permissions of one row;
        an unknown id reads no row and fails. */
    method UpdateRole(id: nat, name: string, description: string, permissions: seq<Permission>)
      returns (r: Result<Role, RbacError>)
      requires Valid()
      modifies this
      ensures Valid()
      ensures id < |old(roles)| ==>
        roles == old(roles)[id := RoleRow(id, name, description, Some(permissions))] &&
        r == Ok(Role(id, name, description, permissions))
      ensures id >= |old(roles)| ==> roles == old(roles) && r == Err(RoleNotFound)
    {
      if id < |roles| {
        roles := roles[id := RoleRow(id, name, description, Some(permissions))];
        r := Ok(Role(id, name, description, permissions));
      } else {
        r := Err(RoleNotFound);
      }
    }

    /** getAllRoles: every role, ordered by name. */
    function GetAllRoles(): (rs: seq<Role>)
      reads this
      ensures multiset(rs) == multiset(RoleViews(roles))
      ensures Sorted(rs, RoleNameLe)
    {
      RoleNameLeTotal();
      SortBySorted(RoleViews(roles), RoleNameLe);
      SortBy(RoleViews(roles), RoleNameLe)
    }

    /** initializeDefaultRoles: creates each template role whose name is absent. */
    method InitializeDefaultRoles()
      requires Valid()
      modifies this
      ensures Valid()
      ensures roles == SeedFrom(old(roles), DefaultRoles())
    {
      SeedTemplates(DefaultRoles());
    }

    /** The loop of initializeDefaultRoles over any template list. */
    method SeedTemplates(templates: seq<RoleTemplate>)
      requires Valid()
      modifies this
      ensures Valid()
      ensures roles == SeedFrom(old(roles), templates)
    {
      var i := 0;
      while i < |templates|
        invariant 0 <= i <= |templates|
        invariant Valid()
        invariant SeedFrom(roles, templates[i..]) == SeedFrom(old(roles), templates)
      {
        var t := templates[i];
        assert templates[i..][0] == t && templates[i..][1..] == templates[i + 1..];
        var existing := FindRole(roles, t.name);
        if existing.None? {
          var created := CreateRole(t.name, t.description, t.permissions);
        }
        i := i + 1;
      }
    }
  }

  /** Seeding twice leaves the store as seeding once left it. */
  method SeedTwice(store: RoleStore)
    requires store.Valid()
    modifies store
    ensures store.roles == SeedFrom(old(store.roles), DefaultRoles())
  {
    store.InitializeDefaultRoles();
    ghost var once := store.roles;
    store.InitializeDefaultRoles();
    SeedIdempotent(old(store.roles), DefaultRoles());
    assert store.roles == once;
  }
}
