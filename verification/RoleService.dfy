/** The role service of internal/rbac/roleService.go over its tables, with the permission tokens
    that internal/auth/authService.go issues at login. */
module RoleService {
  import opened Text
  import opened Policy

  datatype Role = Role(institution: string, system: bool, name: string)
  datatype User = User(institution: string, sysAdmin: bool)
  datatype Grant = Grant(role: string, code: string)
  datatype Assignment = Assignment(user: string, role: string)

  /** The users and the permission catalogue are not changed here. */
  datatype Directory = Directory(users: map<string, User>, catalog: set<string>)

  datatype Tables = Tables(roles: map<string, Role>, grants: set<Grant>, assignments: set<Assignment>)

  datatype Actor = Actor(user: string, institution: string, sysAdmin: bool, permissions: seq<string>)

  /** What the delegation service answers for this actor. */
  datatype Delegated = Delegated(roles: bool, permissions: bool, users: bool)

  datatype Op =
    | CreateRole(name: string, newId: string)
    | AssignPermission(role: string, code: string)
    | RemovePermission(role: string, code: string)
    | AssignRole(user: string, role: string)
    | UnassignRole(user: string, role: string)
    | UpdateRole(role: string, name: string)
    | DeleteRole(role: string)

  // ---- who may do what ----

  predicate Delegate(perms: seq<string>) { Grants(perms, LOCAL) || Grants(perms, ROLES) }

  predicate Global(code: string) { code == SUPER || code == TENANTS }

  predicate MayShape(a: Actor, d: Delegated) {
    a.sysAdmin || ((Delegate(a.permissions) || d.roles) && Grants(a.permissions, CREATE))
  }

  predicate MayEquip(a: Actor, d: Delegated) {
    || a.sysAdmin
    || ((Delegate(a.permissions) || (d.roles && d.permissions)) && Grants(a.permissions, EQUIP))
  }

  predicate MayStaff(a: Actor, d: Delegated) {
    || a.sysAdmin
    || ((Grants(a.permissions, LOCAL) || Grants(a.permissions, USERS) || d.users) && Grants(a.permissions, STAFF))
  }

  /** What is not allowed to the actor cannot be handed on, except by a delegate, and never if
      it is a global permission. */
  predicate MayHandOn(a: Actor, code: string) {
    a.sysAdmin || Grants(a.permissions, code) || (Delegate(a.permissions) && !Global(code))
  }

  predicate Owns(t: Tables, a: Actor, rid: string)
    requires rid in t.roles
  {
    a.sysAdmin || (!t.roles[rid].system && Trim(t.roles[rid].institution) == Trim(a.institution))
  }

  predicate Near(dir: Directory, a: Actor, uid: string) {
    a.sysAdmin || (uid in dir.users && Trim(dir.users[uid].institution) == Trim(a.institution))
  }

  /** Names are unique within an institution; roles of no institution are not compared. */
  predicate NameTaken(t: Tables, institution: string, name: string, except: string) {
    institution != "" && exists r <- t.roles :: r != except && t.roles[r].institution == institution && t.roles[r].name == name
  }

  // ---- what each operation decides, and what that makes of the tables ----

  datatype Change =
    | NewRole(id: string, row: Role)
    | AddGrant(grant: Grant)
    | DropGrant(grant: Grant)
    | AddMember(member: Assignment)
    | DropMember(member: Assignment)
    | Rename(id: string, name: string)
    | DropRole(id: string)

  datatype Refusal = BadRequest | Forbidden | NoInstitution | Escalation | NotUnique | NoSuchRole | NoSuchUser | UnknownPermission | SystemRole

  datatype Decision = Yes(change: Change) | No(why: Refusal)

  function Effect(t: Tables, change: Change): Tables {
    match change
    case NewRole(id, row) => t.(roles := t.roles[id := row])
    case AddGrant(g) => t.(grants := t.grants + {g})
    case DropGrant(g) => t.(grants := t.grants - {g})
    case AddMember(x) => t.(assignments := t.assignments + {x})
    case DropMember(x) => t.(assignments := t.assignments - {x})
    case Rename(id, n) => if id in t.roles then t.(roles := t.roles[id := t.roles[id].(name := n)]) else t
    case DropRole(id) =>   // its grants and memberships go with it
      Tables(t.roles - {id}, set g | g in t.grants && g.role != id, set x | x in t.assignments && x.role != id)
  }

  function Decide(dir: Directory, t: Tables, a: Actor, d: Delegated, op: Op): Decision {
    match op
    case CreateRole(name, id) => Created(t, a, MayShape(a, d), Lower(Trim(name)), id)
    case AssignPermission(r, code) => Equipped(dir, t, a, MayEquip(a, d), MayHandOn(a, Canon(code)), Trim(r), Canon(code))
    case RemovePermission(r, code) => Stripped(t, a, MayEquip(a, d), Trim(r), Canon(code))
    case AssignRole(u, r) => Staffed(dir, t, a, MayStaff(a, d), Trim(u), Trim(r))
    case UnassignRole(u, r) => Released(dir, t, a, MayStaff(a, d), Trim(u), Trim(r))
    case UpdateRole(r, name) => Renamed(t, a, MayShape(a, d), Trim(r), Lower(Trim(name)))
    case DeleteRole(r) => Deleted(t, a, MayShape(a, d), Trim(r))
  }

  function Created(t: Tables, a: Actor, may: bool, n: string, id: string): Decision {
    if n == "" || |n| > 64 then No(BadRequest)
    else if !may then No(Forbidden)
    else if !a.sysAdmin && Trim(a.institution) == "" then No(NoInstitution)
    else if Trim(a.institution) != a.institution then No(BadRequest)
    else if id in t.roles || NameTaken(t, a.institution, n, id) then No(NotUnique)
    else Yes(NewRole(id, Role(a.institution, false, n)))
  }

  function Equipped(dir: Directory, t: Tables, a: Actor, may: bool, mayHandOn: bool, rid: string, code: string): Decision {
    if rid == "" || code == "" then No(BadRequest)
    else if !may then No(Forbidden)
    else if !mayHandOn then No(Escalation)
    else if rid !in t.roles then No(NoSuchRole)
    else if !Owns(t, a, rid) then No(Forbidden)
    else if code !in dir.catalog then No(UnknownPermission)
    else Yes(AddGrant(Grant(rid, code)))
  }

  function Stripped(t: Tables, a: Actor, may: bool, rid: string, code: string): Decision {
    if rid == "" || code == "" then No(BadRequest)
    else if !may then No(Forbidden)
    else if rid !in t.roles then No(NoSuchRole)
    else if !Owns(t, a, rid) then No(Forbidden)
    else Yes(DropGrant(Grant(rid, code)))
  }

  function Staffed(dir: Directory, t: Tables, a: Actor, may: bool, uid: string, rid: string): Decision {
    if uid == "" || rid == "" then No(BadRequest)
    else if !may then No(Forbidden)
    else if rid !in t.roles then No(NoSuchRole)
    else if !Owns(t, a, rid) then No(Forbidden)
    else if uid !in dir.users then No(NoSuchUser)
    else if !Near(dir, a, uid) then No(Forbidden)
    else Yes(AddMember(Assignment(uid, rid)))
  }

  function Released(dir: Directory, t: Tables, a: Actor, may: bool, uid: string, rid: string): Decision {
    if uid == "" || rid == "" then No(BadRequest)
    else if !may then No(Forbidden)
    else if rid !in t.roles then No(NoSuchRole)
    else if !Owns(t, a, rid) then No(Forbidden)
    else if !a.sysAdmin && uid !in dir.users then No(NoSuchUser)
    else if !Near(dir, a, uid) then No(Forbidden)
    else Yes(DropMember(Assignment(uid, rid)))
  }

  function Renamed(t: Tables, a: Actor, may: bool, rid: string, n: string): Decision {
    if rid == "" || n == "" then No(BadRequest)
    else if !may then No(Forbidden)
    else if rid !in t.roles then No(NoSuchRole)
    else if t.roles[rid].system then No(SystemRole)
    else if !Owns(t, a, rid) then No(Forbidden)
    else if NameTaken(t, t.roles[rid].institution, n, rid) then No(NotUnique)
    else Yes(Rename(rid, n))
  }

  function Deleted(t: Tables, a: Actor, may: bool, rid: string): Decision {
    if rid == "" then No(BadRequest)
    else if !may then No(Forbidden)
    else if rid !in t.roles then No(NoSuchRole)
    else if t.roles[rid].system then No(SystemRole)
    else if !Owns(t, a, rid) then No(Forbidden)
    else Yes(DropRole(rid))
  }

  function After(dir: Directory, t: Tables, a: Actor, d: Delegated, op: Op): Tables {
    Outcome(t, Decide(dir, t, a, d, op))
  }

  /** An error leaves the tables as they were. */
  function Outcome(t: Tables, decided: Decision): Tables {
    if decided.Yes? then Effect(t, decided.change) else t
  }

  // ---- the service object ----

  /** Each operation is one transaction: an error leaves the tables as they were. */
  class RoleService {
    const dir: Directory
    var roles: map<string, Role>
    var grants: set<Grant>
    var assignments: set<Assignment>

    ghost function Model(): Tables reads this { Tables(roles, grants, assignments) }

    /** The answer is the decision, and its change is made and no other. */
    ghost predicate Did(before: Tables, r: Decision, decided: Decision)
      reads this
    {
      r == decided && Model() == Outcome(before, decided)
    }

    constructor (dir: Directory, t: Tables)
      ensures this.dir == dir && Model() == t
    {
      this.dir := dir;
      roles, grants, assignments := t.roles, t.grants, t.assignments;
    }

    method CanManageRoles(a: Actor, d: Delegated) returns (can: bool)
      ensures can == (Delegate(a.permissions) || d.roles)
    {
      var local := Allowed(a.permissions, LOCAL);
      if local { return true; }
      var managed := Allowed(a.permissions, ROLES);
      if managed { return true; }
      return d.roles;
    }

    method CanManagePermissions(a: Actor, d: Delegated) returns (can: bool)
      ensures can == (Delegate(a.permissions) || d.permissions)
    {
      var local := Allowed(a.permissions, LOCAL);
      if local { return true; }
      var managed := Allowed(a.permissions, ROLES);
      if managed { return true; }
      return d.permissions;
    }

    method CanManageUsers(a: Actor, d: Delegated) returns (can: bool)
      ensures can == (Grants(a.permissions, LOCAL) || Grants(a.permissions, USERS) || d.users)
    {
      var local := Allowed(a.permissions, LOCAL);
      if local { return true; }
      var managed := Allowed(a.permissions, USERS);
      if managed { return true; }
      return d.users;
    }

    method MayShapeRoles(a: Actor, d: Delegated) returns (may: bool)
      ensures may == MayShape(a, d)
    {
      if a.sysAdmin { return true; }
      var can := CanManageRoles(a, d);
      var allowed := Allowed(a.permissions, CREATE);
      return can && allowed;
    }

    method MayEquipRoles(a: Actor, d: Delegated) returns (may: bool)
      ensures may == MayEquip(a, d)
    {
      if a.sysAdmin { return true; }
      var can := CanManageRoles(a, d);
      var canPerms := CanManagePermissions(a, d);
      var allowed := Allowed(a.permissions, EQUIP);
      return can && canPerms && allowed;
    }

    method MayStaffRoles(a: Actor, d: Delegated) returns (may: bool)
      ensures may == MayStaff(a, d)
    {
      if a.sysAdmin { return true; }
      var can := CanManageUsers(a, d);
      var allowed := Allowed(a.permissions, STAFF);
      return can && allowed;
    }

    // Each operation checks what the actor may do, and then runs one transaction.

    method CreateNewRole(a: Actor, d: Delegated, name: string, newId: string) returns (r: Decision)
      modifies this
      ensures Did(old(Model()), r, Decide(dir, old(Model()), a, d, CreateRole(name, newId)))
    {
      var may := MayShapeRoles(a, d);
      r := InsertRole(a, may, Lower(Trim(name)), newId);
    }

    method AssignPermissionToRole(a: Actor, d: Delegated, roleID: string, permissionCode: string) returns (r: Decision)
      modifies this
      ensures Did(old(Model()), r, Decide(dir, old(Model()), a, d, AssignPermission(roleID, permissionCode)))
    {
      var code := Canon(permissionCode);
      UpperTrimIdempotent(permissionCode);
      var mayHandOn := MayHandOnCode(a, code);
      var may := MayEquipRoles(a, d);
      r := InsertGrant(a, may, mayHandOn, Trim(roleID), code);
    }

    method RemovePermissionFromRole(a: Actor, d: Delegated, roleID: string, permissionCode: string) returns (r: Decision)
      modifies this
      ensures Did(old(Model()), r, Decide(dir, old(Model()), a, d, RemovePermission(roleID, permissionCode)))
    {
      var may := MayEquipRoles(a, d);
      r := DeleteGrant(a, may, Trim(roleID), Canon(permissionCode));
    }

    method AssignRoleToUser(a: Actor, d: Delegated, userID: string, roleID: string) returns (r: Decision)
      modifies this
      ensures Did(old(Model()), r, Decide(dir, old(Model()), a, d, AssignRole(userID, roleID)))
    {
      var may := MayStaffRoles(a, d);
      r := InsertMember(a, may, Trim(userID), Trim(roleID));
    }

    method UnassignRoleFromUser(a: Actor, d: Delegated, userID: string, roleID: string) returns (r: Decision)
      modifies this
      ensures Did(old(Model()), r, Decide(dir, old(Model()), a, d, UnassignRole(userID, roleID)))
    {
      var may := MayStaffRoles(a, d);
      r := DeleteMember(a, may, Trim(userID), Trim(roleID));
    }

    method UpdateRoleName(a: Actor, d: Delegated, roleID: string, name: string) returns (r: Decision)
      modifies this
      ensures Did(old(Model()), r, Decide(dir, old(Model()), a, d, UpdateRole(roleID, name)))
    {
      var may := MayShapeRoles(a, d);
      r := RenameRow(a, may, Trim(roleID), Lower(Trim(name)));
    }

    method DeleteRoleById(a: Actor, d: Delegated, roleID: string) returns (r: Decision)
      modifies this
      ensures Did(old(Model()), r, Decide(dir, old(Model()), a, d, DeleteRole(roleID)))
    {
      var may := MayShapeRoles(a, d);
      r := DeleteRow(a, may, Trim(roleID));
    }

    method MayHandOnCode(a: Actor, code: string) returns (may: bool)
      requires Canon(code) == code
      ensures may == MayHandOn(a, code)
    {
      if a.sysAdmin { return true; }
      var allowed := Allowed(a.permissions, code);
      if allowed { return true; }
      var isGlobalAdminPerm := code == SUPER || code == TENANTS;
      var local := Allowed(a.permissions, LOCAL);
      var managed := Allowed(a.permissions, ROLES);
      return (local || managed) && !isGlobalAdminPerm;
    }

    // ---- transactions ----

    /** The unique index on institution and name. */
    method HasName(institution: string, name: string, except: string) returns (taken: bool)
      ensures taken == NameTaken(Model(), institution, name, except)
    {
      return institution != "" &&
             exists r <- roles :: r != except && roles[r].institution == institution && roles[r].name == name;
    }

    method InsertRole(a: Actor, may: bool, n: string, newId: string) returns (r: Decision)
      modifies this
      ensures Did(old(Model()), r, Created(old(Model()), a, may, n, newId))
    {
      if n == "" || |n| > 64 { return No(BadRequest); }
      if !may { return No(Forbidden); }
      if !a.sysAdmin && Trim(a.institution) == "" { return No(NoInstitution); }
      if Trim(a.institution) != a.institution { return No(BadRequest); }
      var taken := HasName(a.institution, n, newId);
      if newId in roles || taken { return No(NotUnique); }
      roles := roles[newId := Role(a.institution, false, n)];
      return Yes(NewRole(newId, Role(a.institution, false, n)));
    }

    method InsertGrant(a: Actor, may: bool, mayHandOn: bool, rid: string, code: string) returns (r: Decision)
      modifies this
      ensures Did(old(Model()), r, Equipped(dir, old(Model()), a, may, mayHandOn, rid, code))
    {
      if rid == "" || code == "" { return No(BadRequest); }
      if !may { return No(Forbidden); }
      if !mayHandOn { return No(Escalation); }
      if rid !in roles { return No(NoSuchRole); }
      if !a.sysAdmin {
        if roles[rid].system || Trim(roles[rid].institution) != Trim(a.institution) { return No(Forbidden); }
      }
      if code !in dir.catalog { return No(UnknownPermission); }
      grants := grants + {Grant(rid, code)};
      return Yes(AddGrant(Grant(rid, code)));
    }

    method DeleteGrant(a: Actor, may: bool, rid: string, code: string) returns (r: Decision)
      modifies this
      ensures Did(old(Model()), r, Stripped(old(Model()), a, may, rid, code))
    {
      if rid == "" || code == "" { return No(BadRequest); }
      if !may { return No(Forbidden); }
      if rid !in roles { return No(NoSuchRole); }
      if !a.sysAdmin {
        if roles[rid].system || Trim(roles[rid].institution) != Trim(a.institution) { return No(Forbidden); }
      }
      grants := grants - {Grant(rid, code)};
      return Yes(DropGrant(Grant(rid, code)));
    }

    method InsertMember(a: Actor, may: bool, uid: string, rid: string) returns (r: Decision)
      modifies this
      ensures Did(old(Model()), r, Staffed(dir, old(Model()), a, may, uid, rid))
    {
      if uid == "" || rid == "" { return No(BadRequest); }
      if !may { return No(Forbidden); }
      if rid !in roles { return No(NoSuchRole); }
      if !a.sysAdmin {
        if roles[rid].system || Trim(roles[rid].institution) != Trim(a.institution) { return No(Forbidden); }
        if uid !in dir.users { return No(NoSuchUser); }
        if Trim(dir.users[uid].institution) != Trim(a.institution) { return No(Forbidden); }
      }
      if uid !in dir.users { return No(NoSuchUser); }
      assignments := assignments + {Assignment(uid, rid)};
      return Yes(AddMember(Assignment(uid, rid)));
    }

    method DeleteMember(a: Actor, may: bool, uid: string, rid: string) returns (r: Decision)
      modifies this
      ensures Did(old(Model()), r, Released(dir, old(Model()), a, may, uid, rid))
    {
      if uid == "" || rid == "" { return No(BadRequest); }
      if !may { return No(Forbidden); }
      if rid !in roles { return No(NoSuchRole); }
      if !a.sysAdmin {
        if roles[rid].system || Trim(roles[rid].institution) != Trim(a.institution) { return No(Forbidden); }
        if uid !in dir.users { return No(NoSuchUser); }
        if Trim(dir.users[uid].institution) != Trim(a.institution) { return No(Forbidden); }
      }
      assignments := assignments - {Assignment(uid, rid)};
      return Yes(DropMember(Assignment(uid, rid)));
    }

    method RenameRow(a: Actor, may: bool, rid: string, n: string) returns (r: Decision)
      modifies this
      ensures Did(old(Model()), r, Renamed(old(Model()), a, may, rid, n))
    {
      if rid == "" || n == "" { return No(BadRequest); }
      if !may { return No(Forbidden); }
      if rid !in roles { return No(NoSuchRole); }
      if roles[rid].system { return No(SystemRole); }
      if !a.sysAdmin && Trim(roles[rid].institution) != Trim(a.institution) { return No(Forbidden); }
      var taken := HasName(roles[rid].institution, n, rid);
      if taken { return No(NotUnique); }
      roles := roles[rid := roles[rid].(name := n)];
      return Yes(Rename(rid, n));
    }

    method DeleteRow(a: Actor, may: bool, rid: string) returns (r: Decision)
      modifies this
      ensures Did(old(Model()), r, Deleted(old(Model()), a, may, rid))
    {
      if rid == "" { return No(BadRequest); }
      if !may { return No(Forbidden); }
      if rid !in roles { return No(NoSuchRole); }
      if roles[rid].system { return No(SystemRole); }
      if !a.sysAdmin && Trim(roles[rid].institution) != Trim(a.institution) { return No(Forbidden); }
      roles := roles - {rid};
      grants := set g | g in grants && g.role != rid;
      assignments := set x | x in assignments && x.role != rid;
      return Yes(DropRole(rid));
    }
  }

  // ---- what one call does, exactly ----

  /** Who may shape roles, equip them and staff them, by the codes held: three codes are enough
      for each on their own, others only with a delegation. */
  lemma PowersByCode(a: Actor, d: Delegated)
    requires !a.sysAdmin
    ensures MayShape(a, d) <==> Holds(a.permissions, {SUPER, LOCAL, ROLES}) || (d.roles && Holds(a.permissions, {CREATE, USERS}))
    ensures MayEquip(a, d) <==> Holds(a.permissions, {SUPER, LOCAL, ROLES}) || (d.roles && d.permissions && Holds(a.permissions, {EQUIP}))
    ensures MayStaff(a, d) <==> Holds(a.permissions, {SUPER, LOCAL, USERS}) || (d.users && Holds(a.permissions, {STAFF, ROLES}))
  {
    GrantsByCode(a.permissions);
  }

  /** The rows that an operation leaves when it succeeds. */
  predicate RolesExactly(t: Tables, a: Actor, u: Tables, op: Op) {
    match op
    case CreateRole(name, id) => id !in t.roles && u.roles == t.roles[id := Role(a.institution, false, Lower(Trim(name)))]
    case UpdateRole(r, name) => Trim(r) in t.roles && u.roles == t.roles[Trim(r) := t.roles[Trim(r)].(name := Lower(Trim(name)))]
    case DeleteRole(r) => u.roles == t.roles - {Trim(r)}
    case _ => u.roles == t.roles
  }

  predicate GrantsExactly(t: Tables, u: Tables, op: Op) {
    forall g <- t.grants + u.grants :: g in u.grants <==>
      match op
      case AssignPermission(r, code) => g in t.grants || g == Grant(Trim(r), Canon(code))
      case RemovePermission(r, code) => g != Grant(Trim(r), Canon(code))
      case DeleteRole(r) => g.role != Trim(r)
      case _ => g in t.grants
  }

  predicate MembersExactly(t: Tables, u: Tables, op: Op) {
    forall x <- t.assignments + u.assignments :: x in u.assignments <==>
      match op
      case AssignRole(user, r) => x in t.assignments || x == Assignment(Trim(user), Trim(r))
      case UnassignRole(user, r) => x != Assignment(Trim(user), Trim(r))
      case DeleteRole(r) => x.role != Trim(r)
      case _ => x in t.assignments
  }

  /** The change an operation names. */
  function Named(a: Actor, op: Op): Change {
    match op
    case CreateRole(name, id) => NewRole(id, Role(a.institution, false, Lower(Trim(name))))
    case AssignPermission(r, code) => AddGrant(Grant(Trim(r), Canon(code)))
    case RemovePermission(r, code) => DropGrant(Grant(Trim(r), Canon(code)))
    case AssignRole(user, r) => AddMember(Assignment(Trim(user), Trim(r)))
    case UnassignRole(user, r) => DropMember(Assignment(Trim(user), Trim(r)))
    case UpdateRole(r, name) => Rename(Trim(r), Lower(Trim(name)))
    case DeleteRole(r) => DropRole(Trim(r))
  }

  lemma DecidesTheNamed(dir: Directory, t: Tables, a: Actor, d: Delegated, op: Op)
    requires Decide(dir, t, a, d, op).Yes?
    ensures Decide(dir, t, a, d, op).change == Named(a, op)
    ensures op.CreateRole? ==> op.newId !in t.roles
    ensures op.UpdateRole? ==> Trim(op.role) in t.roles
  {
  }

  lemma NamedIsExact(t: Tables, a: Actor, op: Op)
    requires op.CreateRole? ==> op.newId !in t.roles
    requires op.UpdateRole? ==> Trim(op.role) in t.roles
    ensures var u := Effect(t, Named(a, op));
            && RolesExactly(t, a, u, op) && GrantsExactly(t, u, op) && MembersExactly(t, u, op)
            && (op.AssignPermission? ==> Grant(Trim(op.role), Canon(op.code)) in u.grants)
            && (op.AssignRole? ==> Assignment(Trim(op.user), Trim(op.role)) in u.assignments)
  {
  }

  /** What each operation makes of the tables, entry by entry: a refused one nothing; any other
      exactly the change its name says, to the role and user it names. */
  lemma CallDoesExactly(dir: Directory, t: Tables, a: Actor, d: Delegated, op: Op)
    ensures var u := After(dir, t, a, d, op);
            if Decide(dir, t, a, d, op).No? then u == t
            else
              && RolesExactly(t, a, u, op) && GrantsExactly(t, u, op) && MembersExactly(t, u, op)
              && (op.AssignPermission? ==> Grant(Trim(op.role), Canon(op.code)) in u.grants)
              && (op.AssignRole? ==> Assignment(Trim(op.user), Trim(op.role)) in u.assignments)
  {
    if Decide(dir, t, a, d, op).Yes? {
      DecidesTheNamed(dir, t, a, d, op);
      NamedIsExact(t, a, op);
    }
  }

  /** The two refusals that protect the tables are told apart from the others: handing on more
      than one has, and changing a system role. */
  lemma RefusalsSayWhy(dir: Directory, t: Tables, a: Actor, d: Delegated, op: Op)
    ensures Decide(dir, t, a, d, op) == No(Escalation) <==>
              op.AssignPermission? && Trim(op.role) != "" && Canon(op.code) != "" && MayEquip(a, d) && !MayHandOn(a, Canon(op.code))
    ensures Decide(dir, t, a, d, op) == No(SystemRole) <==>
              && (op.UpdateRole? || op.DeleteRole?) && (op.UpdateRole? ==> Trim(op.name) != "")
              && Trim(op.role) != "" && Trim(op.role) in t.roles && t.roles[Trim(op.role)].system && MayShape(a, d)
  {
    if op.UpdateRole? { assert |Lower(Trim(op.name))| == |Trim(op.name)|; }
  }

  /** Names stay unique within every institution. */
  predicate UniqueNames(t: Tables) {
    forall i, j :: i in t.roles && j in t.roles && i != j && t.roles[i].institution != "" && t.roles[i].institution == t.roles[j].institution ==>
      t.roles[i].name != t.roles[j].name
  }

  lemma NamesStayUnique(dir: Directory, t: Tables, a: Actor, d: Delegated, op: Op)
    requires UniqueNames(t)
    ensures UniqueNames(After(dir, t, a, d, op))
  {
    if Decide(dir, t, a, d, op).Yes? {
      DecidesTheNamed(dir, t, a, d, op);
      CallSucceedsIff(dir, t, a, d, op);
      if op.CreateRole? { PutKeepsUnique(t, op.newId, Named(a, op).row); }
      if op.UpdateRole? { PutKeepsUnique(t, Trim(op.role), t.roles[Trim(op.role)].(name := Lower(Trim(op.name)))); }
    }
  }

  lemma PutKeepsUnique(t: Tables, k: string, row: Role)
    requires UniqueNames(t)
    requires row.institution == "" || forall j <- t.roles :: j != k ==> !(t.roles[j].institution == row.institution && t.roles[j].name == row.name)
    ensures UniqueNames(t.(roles := t.roles[k := row]))
  {
  }

  /** A role that may be changed: by a system administrator any, by others a custom one of their
      own institution. */
  predicate Reachable(t: Tables, a: Actor, rid: string) {
    rid != "" && rid in t.roles && (a.sysAdmin || Own(t, a, rid))
  }

  /** When each operation succeeds.  Nobody renames or deletes a system role; only a system
      administrator touches one at all. */
  lemma CallSucceedsIff(dir: Directory, t: Tables, a: Actor, d: Delegated, op: Op)
    ensures Decide(dir, t, a, d, op).Yes? <==>
              match op
              case CreateRole(name, id) =>
                var n := Lower(Trim(name));
                && 0 < |n| <= 64 && MayShape(a, d) && Trim(a.institution) == a.institution
                && (a.institution == "" ==> a.sysAdmin) && id !in t.roles
                && (a.institution == "" || forall k <- t.roles :: !(t.roles[k].institution == a.institution && t.roles[k].name == n))
              case AssignPermission(r, code) =>
                && Reachable(t, a, Trim(r)) && Canon(code) != "" && MayEquip(a, d)
                && MayHandOn(a, Canon(code)) && Canon(code) in dir.catalog
              case RemovePermission(r, code) => Reachable(t, a, Trim(r)) && Canon(code) != "" && MayEquip(a, d)
              case AssignRole(user, r) =>
                
                && Reachable(t, a, Trim(r)) && Trim(user) != "" && MayStaff(a, d) && Trim(user) in dir.users
                && (a.sysAdmin || Trim(dir.users[Trim(user)].institution) == Trim(a.institution))
              case UnassignRole(user, r) =>
                && Reachable(t, a, Trim(r)) && Trim(user) != "" && MayStaff(a, d)
                && (a.sysAdmin || (Trim(user) in dir.users && Trim(dir.users[Trim(user)].institution) == Trim(a.institution)))
              case UpdateRole(r, name) =>
                && Reachable(t, a, Trim(r)) && !t.roles[Trim(r)].system && Trim(name) != "" && MayShape(a, d)
                && var inst := t.roles[Trim(r)].institution;
                   inst == "" || forall k <- t.roles :: k != Trim(r) ==> !(t.roles[k].institution == inst && t.roles[k].name == Lower(Trim(name)))
              case DeleteRole(r) => Reachable(t, a, Trim(r)) && !t.roles[Trim(r)].system && MayShape(a, d)
  {
    match op
    case UpdateRole(_, name) => assert |Lower(Trim(name))| == |Trim(name)|;
    case _ =>
  }

  // ---- what one call leaves alone ----

  /** A role within reach of an institution's own actors. */
  predicate Own(t: Tables, a: Actor, rid: string) {
    rid in t.roles && !t.roles[rid].system && Trim(t.roles[rid].institution) == Trim(a.institution)
  }

  /** What an actor other than a system administrator can bring about. */
  predicate Legal(dir: Directory, t: Tables, a: Actor, change: Change) {
    match change
    case NewRole(id, row) => id !in t.roles && !row.system && row.institution == Trim(a.institution) == a.institution
    case AddGrant(g) => Own(t, a, g.role) && MayHandOn(a, g.code)
    case DropGrant(g) => Own(t, a, g.role)
    case AddMember(x) => Own(t, a, x.role) && x.user in dir.users && Trim(dir.users[x.user].institution) == Trim(a.institution)
    case DropMember(x) => Own(t, a, x.role)
    case Rename(id, _) => Own(t, a, id)
    case DropRole(id) => Own(t, a, id)
  }

  predicate LegalIfYes(dir: Directory, t: Tables, a: Actor, r: Decision) {
    r.Yes? ==> Legal(dir, t, a, r.change)
  }

  lemma CreatedIsLegal(dir: Directory, t: Tables, a: Actor, may: bool, n: string, id: string)
    requires !a.sysAdmin
    ensures LegalIfYes(dir, t, a, Created(t, a, may, n, id))
  {
  }

  lemma EquippedIsLegal(dir: Directory, t: Tables, a: Actor, may: bool, rid: string, code: string)
    requires !a.sysAdmin
    ensures LegalIfYes(dir, t, a, Equipped(dir, t, a, may, MayHandOn(a, code), rid, code))
  {
  }

  lemma StrippedIsLegal(dir: Directory, t: Tables, a: Actor, may: bool, rid: string, code: string)
    requires !a.sysAdmin
    ensures LegalIfYes(dir, t, a, Stripped(t, a, may, rid, code))
  {
  }

  lemma StaffedIsLegal(dir: Directory, t: Tables, a: Actor, may: bool, uid: string, rid: string)
    requires !a.sysAdmin
    ensures LegalIfYes(dir, t, a, Staffed(dir, t, a, may, uid, rid))
    ensures LegalIfYes(dir, t, a, Released(dir, t, a, may, uid, rid))
  {
  }

  lemma RenamedIsLegal(dir: Directory, t: Tables, a: Actor, may: bool, rid: string, n: string)
    requires !a.sysAdmin
    ensures LegalIfYes(dir, t, a, Renamed(t, a, may, rid, n))
    ensures LegalIfYes(dir, t, a, Deleted(t, a, may, rid))
  {
  }

  lemma DecisionsAreLegal(dir: Directory, t: Tables, a: Actor, d: Delegated, op: Op)
    requires !a.sysAdmin
    ensures LegalIfYes(dir, t, a, Decide(dir, t, a, d, op))
  {
    match op
    case CreateRole(name, id) => CreatedIsLegal(dir, t, a, MayShape(a, d), Lower(Trim(name)), id);
    case AssignPermission(r, code) => EquippedIsLegal(dir, t, a, MayEquip(a, d), Trim(r), Canon(code));
    case RemovePermission(r, code) => StrippedIsLegal(dir, t, a, MayEquip(a, d), Trim(r), Canon(code));
    case AssignRole(u, r) => StaffedIsLegal(dir, t, a, MayStaff(a, d), Trim(u), Trim(r));
    case UnassignRole(u, r) => StaffedIsLegal(dir, t, a, MayStaff(a, d), Trim(u), Trim(r));
    case UpdateRole(r, name) => RenamedIsLegal(dir, t, a, MayShape(a, d), Trim(r), Lower(Trim(name)));
    case DeleteRole(r) => RenamedIsLegal(dir, t, a, MayShape(a, d), Trim(r), "");
  }

  /** A role keeps its row, its permissions and its members. */
  predicate SameRole(t: Tables, u: Tables, rid: string) {
    && rid in t.roles && rid in u.roles && u.roles[rid] == t.roles[rid]
    && (forall g <- t.grants + u.grants :: g.role == rid ==> g in t.grants && g in u.grants)
    && (forall x <- t.assignments + u.assignments :: x.role == rid ==> x in t.assignments && x in u.assignments)
  }

  /** Whatever an actor other than a system administrator does, system roles and roles of other
      institutions stay as they were, new roles are its own institution's, and nobody of
      another institution is given a role. */
  lemma OthersAreUntouched(dir: Directory, t: Tables, a: Actor, d: Delegated, op: Op)
    requires !a.sysAdmin
    ensures var u := After(dir, t, a, d, op);
            && (forall rid <- t.roles :: !Own(t, a, rid) ==> SameRole(t, u, rid))
            && (forall rid <- u.roles :: rid !in t.roles ==> Own(u, a, rid))
            && (forall x <- u.assignments :: x !in t.assignments ==> Near(dir, a, x.user))
  {
    DecisionsAreLegal(dir, t, a, d, op);
    var r := Decide(dir, t, a, d, op);
    if r.Yes? { LegalIsLocal(dir, t, a, r.change); }
  }

  lemma LegalIsLocal(dir: Directory, t: Tables, a: Actor, change: Change)
    requires Legal(dir, t, a, change) && !a.sysAdmin
    ensures var u := Effect(t, change);
            && (forall rid <- t.roles :: !Own(t, a, rid) ==> SameRole(t, u, rid))
            && (forall rid <- u.roles :: rid !in t.roles ==> Own(u, a, rid))
            && (forall x <- u.assignments :: x !in t.assignments ==> Near(dir, a, x.user))
  {
    var u := Effect(t, change);
    forall rid <- t.roles ensures !Own(t, a, rid) ==> SameRole(t, u, rid) {
      if !Own(t, a, rid) { ForeignIsSame(dir, t, a, change, rid); }
    }
  }

  lemma ForeignIsSame(dir: Directory, t: Tables, a: Actor, change: Change, rid: string)
    requires Legal(dir, t, a, change) && rid in t.roles && !Own(t, a, rid)
    ensures SameRole(t, Effect(t, change), rid)
  {
  }

  /** No dangling references, so a fresh role identifier starts with nothing. */
  predicate Coherent(dir: Directory, t: Tables) {
    && (forall g <- t.grants :: g.role in t.roles)
    && (forall x <- t.assignments :: x.role in t.roles && x.user in dir.users)
  }

  lemma CoherenceKept(dir: Directory, t: Tables, a: Actor, d: Delegated, op: Op)
    requires Coherent(dir, t)
    ensures Coherent(dir, After(dir, t, a, d, op))
  {
    var r := Decide(dir, t, a, d, op);
    if r.Yes? {
      assert r.change.AddGrant? ==> r.change.grant.role in t.roles;
      assert r.change.AddMember? ==> r.change.member.role in t.roles && r.change.member.user in dir.users;
      EffectKeepsCoherence(dir, t, r.change);
    }
  }

  lemma EffectKeepsCoherence(dir: Directory, t: Tables, change: Change)
    requires Coherent(dir, t)
    requires change.AddGrant? ==> change.grant.role in t.roles
    requires change.AddMember? ==> change.member.role in t.roles && change.member.user in dir.users
    ensures Coherent(dir, Effect(t, change))
  {
  }

  /** A role made anew starts without permissions and without members. */
  lemma NewRoleIsEmpty(dir: Directory, t: Tables, a: Actor, d: Delegated, name: string, id: string)
    requires Coherent(dir, t)
    ensures var u := After(dir, t, a, d, CreateRole(name, id));
            Decide(dir, t, a, d, CreateRole(name, id)).Yes? ==>
              && id in u.roles && id !in t.roles
              && (forall g <- u.grants :: g.role != id)
              && (forall x <- u.assignments :: x.role != id)
  {
  }

  // ---- tokens ----

  datatype Token = Token(user: string, institution: string, perms: seq<string>)

  datatype World = World(tables: Tables, tokens: set<Token>)

  /** The non-blank canonical names, in the order the query lists them. */
  function Loaded(listed: seq<string>): seq<string> {
    if listed == [] then []
    else
      var before, name := Loaded(listed[..|listed| - 1]), Canon(listed[|listed| - 1]);
      if name == "" then before else before + [name]
  }

  method LoadUserPermissions(listed: seq<string>) returns (perms: seq<string>)
    ensures perms == Loaded(listed)
  {
    perms := [];
    for i := 0 to |listed|
      invariant perms == Loaded(listed[..i])
    {
      assert listed[..i + 1][..i] == listed[..i];
      var name := Canon(listed[i]);
      if name != "" { perms := perms + [name]; }
    }
    assert listed[..|listed|] == listed;
  }

  function Issued(dir: Directory, user: string, listed: seq<string>): Token
    requires user in dir.users
  {
    var u := dir.users[user];
    Token(user, Trim(u.institution), Normalized(Loaded(listed) + if u.sysAdmin then [SUPER] else []))
  }

  function PermissionNames(t: Tables, user: string): set<string> {
    set g | g in t.grants && Assignment(user, g.role) in t.assignments :: g.code
  }

  /** The actor a request with this token acts as. */
  function ActorOf(k: Token): Actor {
    Actor(k.user, k.institution, exists p <- k.perms :: Canon(p) == SUPER, k.perms)
  }

  datatype Event =
    | Login(user: string, listed: seq<string>)
    | Call(token: Token, delegated: Delegated, op: Op)

  /** The query lists names of the user's permissions, all of them or those the row policies
      show; a call comes with a token issued some time before. */
  predicate Possible(dir: Directory, w: World, e: Event) {
    match e
    case Login(user, listed) => user in dir.users && forall n <- listed :: n in PermissionNames(w.tables, user)
    case Call(k, _, _) => k in w.tokens && k.user in dir.users && !dir.users[k.user].sysAdmin
  }

  function Next(dir: Directory, w: World, e: Event): World {
    match e
    case Login(user, listed) => if user !in dir.users then w else w.(tokens := w.tokens + {Issued(dir, user, listed)})
    case Call(k, d, op) => w.(tables := After(dir, w.tables, ActorOf(k), d, op))
  }

  predicate PossibleRun(dir: Directory, w: World, es: seq<Event>) {
    es == [] ||
    (&& PossibleRun(dir, w, es[..|es| - 1])
     && Possible(dir, Run(dir, w, es[..|es| - 1]), es[|es| - 1]))
  }

  function Run(dir: Directory, w: World, es: seq<Event>): World {
    if es == [] then w else Next(dir, Run(dir, w, es[..|es| - 1]), es[|es| - 1])
  }

  /** The loaded names are exactly the canonical non-blank ones, as many as were listed. */
  lemma {:induction false} LoadedHolds(listed: seq<string>, p: string)
    ensures p in Loaded(listed) <==> p != "" && exists n <- listed :: Canon(n) == p
    ensures (forall n <- listed :: Canon(n) != "") ==> |Loaded(listed)| == |listed|
  {
    if listed != [] {
      var before, last := listed[..|listed| - 1], listed[|listed| - 1];
      assert listed == before + [last];
      LoadedHolds(before, p);
    }
  }

  /** What a token carries: the codes of the user's listed permissions, and SUPER_ADMIN for a
      system administrator; and who acts as one with it. */
  lemma TokenCarriesExactly(dir: Directory, user: string, listed: seq<string>, code: string)
    requires user in dir.users
    ensures var k := Issued(dir, user, listed);
            && k.user == user && k.institution == Trim(dir.users[user].institution)
            && (code in k.perms <==> code != "" && ((exists n <- listed :: Canon(n) == code) || (dir.users[user].sysAdmin && code == SUPER)))
            && (ActorOf(k).sysAdmin <==> dir.users[user].sysAdmin || exists n <- listed :: Canon(n) == SUPER)
  {
    var k, admin := Issued(dir, user, listed), dir.users[user].sysAdmin;
    var all := Loaded(listed) + if admin then [SUPER] else [];
    UpperCaseStays(SUPER);
    CodeCarried(listed, admin, all, code);
    CodeCarried(listed, admin, all, SUPER);
    if ActorOf(k).sysAdmin {
      var p :| p in k.perms && Canon(p) == SUPER;
      NormalizedHolds(all, p);
      var q :| q in all && Canon(q) == p;
      UpperTrimIdempotent(q);
    }
  }

  lemma CodeCarried(listed: seq<string>, admin: bool, all: seq<string>, code: string)
    requires all == Loaded(listed) + if admin then [SUPER] else []
    ensures code in Normalized(all) <==> code != "" && ((exists n <- listed :: Canon(n) == code) || (admin && code == SUPER))
  {
    UpperCaseStays(SUPER);
    NormalizedHolds(all, code);
    LoadedHolds(listed, code);
    if code in Normalized(all) {
      var p :| p in all && Canon(p) == code;
      if p in Loaded(listed) {
        LoadedHolds(listed, p);
        var n :| n in listed && Canon(n) == p;
        UpperTrimIdempotent(n);
      }
    }
    if code != "" && exists n <- listed :: Canon(n) == code {
      var n :| n in listed && Canon(n) == code;
      UpperTrimIdempotent(n);
      assert code in all && Canon(code) == code;
    }
    if admin && code == SUPER { assert SUPER in all; }
  }

  // ---- a ceiling over every run ----

  /** The codes each institution's people may come to hold. */
  type Ceiling = (string, string) -> bool

  /** Nothing global; what a code implies is under the ceiling with it; and where there can be
      delegates, so is everything that is not global. */
  ghost predicate Closed(c: Ceiling) {
    forall inst: string ::
      && !c(inst, SUPER)
      && (forall held, code :: c(inst, held) && Implies(held, code) ==> c(inst, code))
      && (c(inst, LOCAL) || c(inst, ROLES) ==> forall code :: !Global(code) ==> c(inst, code))
  }

  predicate RoleUnder(c: Ceiling, t: Tables, inst: string, rid: string) {
    forall g <- t.grants :: g.role == rid ==> c(inst, Canon(g.code))
  }

  predicate Custom(t: Tables, rid: string) { rid in t.roles && !t.roles[rid].system }

  function Home(t: Tables, rid: string): string
    requires rid in t.roles
  {
    Trim(t.roles[rid].institution)
  }

  predicate TokenUnder(c: Ceiling, dir: Directory, k: Token) {
    k.user in dir.users && !dir.users[k.user].sysAdmin ==>
      && k.institution == Trim(dir.users[k.user].institution)
      && forall p <- k.perms :: c(k.institution, Canon(p))
  }

  /** A role a user holds stays under the user's ceiling: a system role because it cannot
      change, another because its own institution's ceiling is no higher. */
  ghost predicate HeldUnder(c: Ceiling, dir: Directory, t: Tables, x: Assignment) {
    x.role in t.roles && x.user in dir.users && !dir.users[x.user].sysAdmin ==>
      var inst := Trim(dir.users[x.user].institution);
      if t.roles[x.role].system then RoleUnder(c, t, inst, x.role)
      else forall code :: c(Home(t, x.role), code) ==> c(inst, code)
  }

  ghost predicate Under(c: Ceiling, dir: Directory, t: Tables) {
    && Coherent(dir, t)
    && (forall rid :: Custom(t, rid) ==> RoleUnder(c, t, Home(t, rid), rid))
    && (forall x <- t.assignments :: HeldUnder(c, dir, t, x))
  }

  /** Under a ceiling nobody passes for a system administrator, and a code is handed on only
      if it is under the ceiling too. */
  lemma HandingOnStaysUnder(c: Ceiling, k: Token, code: string)
    requires Closed(c) && (forall p <- k.perms :: c(k.institution, Canon(p)))
    ensures !ActorOf(k).sysAdmin
    ensures MayHandOn(ActorOf(k), Canon(code)) && Canon(code) != "" ==> c(k.institution, Canon(code))
  {
    var req := Canon(code);
    UpperTrimIdempotent(code);
    if req != "" && Grants(k.perms, req) {
      var p :| p in k.perms && Implies(Canon(p), req);
    } else if Delegate(k.perms) {
      DelegateHolds(c, k);
    }
  }

  lemma DelegateHolds(c: Ceiling, k: Token)
    requires Closed(c) && (forall p <- k.perms :: c(k.institution, Canon(p)))
    requires Delegate(k.perms)
    ensures c(k.institution, LOCAL) || c(k.institution, ROLES)
  {
    var p := DelegateCode(k.perms);
  }

  lemma CallStaysUnder(c: Ceiling, dir: Directory, t: Tables, k: Token, d: Delegated, op: Op)
    requires Closed(c) && Under(c, dir, t) && TokenUnder(c, dir, k)
    requires k.user in dir.users && !dir.users[k.user].sysAdmin
    ensures Under(c, dir, After(dir, t, ActorOf(k), d, op))
  {
    var a := ActorOf(k);
    NobodyPassesForAdmin(c, k);
    TrimIdempotent(dir.users[k.user].institution);
    CoherenceKept(dir, t, a, d, op);
    DecisionsAreLegal(dir, t, a, d, op);
    var r := Decide(dir, t, a, d, op);
    if r.Yes? {
      GrantDecided(c, dir, t, k, d, op);
      RolesStayUnder(c, dir, t, a, r.change);
      MembersStayUnder(c, dir, t, a, r.change);
    }
  }

  lemma NobodyPassesForAdmin(c: Ceiling, k: Token)
    requires Closed(c) && (forall p <- k.perms :: c(k.institution, Canon(p)))
    ensures !ActorOf(k).sysAdmin
  {
  }

  lemma GrantDecided(c: Ceiling, dir: Directory, t: Tables, k: Token, d: Delegated, op: Op)
    requires Closed(c) && (forall p <- k.perms :: c(k.institution, Canon(p)))
    ensures var r := Decide(dir, t, ActorOf(k), d, op);
            r.Yes? && r.change.AddGrant? ==> c(k.institution, Canon(r.change.grant.code))
  {
    if op.AssignPermission? {
      UpperTrimIdempotent(op.code);
      HandingOnStaysUnder(c, k, op.code);
    }
  }

  lemma RolesStayUnder(c: Ceiling, dir: Directory, t: Tables, a: Actor, change: Change)
    requires Under(c, dir, t) && Legal(dir, t, a, change) && Trim(a.institution) == a.institution
    requires change.AddGrant? ==> c(a.institution, Canon(change.grant.code))
    ensures var u := Effect(t, change); forall rid :: Custom(u, rid) ==> RoleUnder(c, u, Home(u, rid), rid)
  {
    var u := Effect(t, change);
    forall rid | Custom(u, rid) ensures RoleUnder(c, u, Home(u, rid), rid) {
      if rid in t.roles { assert Custom(t, rid) && Home(t, rid) == Home(u, rid); }
    }
  }

  lemma MembersStayUnder(c: Ceiling, dir: Directory, t: Tables, a: Actor, change: Change)
    requires Under(c, dir, t) && Legal(dir, t, a, change) && Trim(a.institution) == a.institution
    ensures var u := Effect(t, change); forall x <- u.assignments :: HeldUnder(c, dir, u, x)
  {
    var u := Effect(t, change);
    forall x <- u.assignments ensures HeldUnder(c, dir, u, x) {
      if x in t.assignments { assert HeldUnder(c, dir, t, x); }
    }
  }

  /** The codes in an issued token are codes of the user's roles. */
  lemma {:induction false} LoadedFrom(listed: seq<string>, p: string)
    requires p in Loaded(listed)
    ensures exists n <- listed :: Canon(n) == p
  {
    var before, last := listed[..|listed| - 1], listed[|listed| - 1];
    assert listed == before + [last];
    if p in Loaded(before) { LoadedFrom(before, p); }
  }

  lemma LoginStaysUnder(c: Ceiling, dir: Directory, w: World, user: string, listed: seq<string>)
    requires Under(c, dir, w.tables) && Possible(dir, w, Login(user, listed))
    ensures TokenUnder(c, dir, Issued(dir, user, listed))
  {
    var k := Issued(dir, user, listed);
    if !dir.users[user].sysAdmin {
      forall p <- k.perms ensures c(k.institution, Canon(p)) {
        NormalizedHolds(Loaded(listed), p);
        assert Loaded(listed) + [] == Loaded(listed);
        var q :| q in Loaded(listed) && Canon(q) == p;
        LoadedFrom(listed, q);
        var n :| n in listed && Canon(n) == q;
        UpperTrimIdempotent(n);
        UpperTrimIdempotent(q);
        NamesAreUnder(c, dir, w.tables, user, n);
      }
    }
  }

  lemma NamesAreUnder(c: Ceiling, dir: Directory, t: Tables, user: string, name: string)
    requires Under(c, dir, t) && name in PermissionNames(t, user)
    requires user in dir.users && !dir.users[user].sysAdmin
    ensures c(Trim(dir.users[user].institution), Canon(name))
  {
    var g :| g in t.grants && Assignment(user, g.role) in t.assignments && g.code == name;
    assert HeldUnder(c, dir, t, Assignment(user, g.role));
    if Custom(t, g.role) { assert RoleUnder(c, t, Home(t, g.role), g.role); }
  }

  ghost predicate WorldUnder(c: Ceiling, dir: Directory, w: World) {
    Under(c, dir, w.tables) && forall k <- w.tokens :: TokenUnder(c, dir, k)
  }

  /** No run breaks a closed ceiling: whoever of any institution calls what operation, with
      tokens however old, and whatever the delegation service answers, as long as the callers
      are not system administrators by their user record. */
  lemma {:induction false} CeilingHolds(c: Ceiling, dir: Directory, w: World, es: seq<Event>)
    requires Closed(c) && WorldUnder(c, dir, w) && PossibleRun(dir, w, es)
    ensures WorldUnder(c, dir, Run(dir, w, es))
  {
    if es != [] {
      var before, e := Run(dir, w, es[..|es| - 1]), es[|es| - 1];
      CeilingHolds(c, dir, w, es[..|es| - 1]);
      if e.Login? {
        LoginStaysUnder(c, dir, before, e.user, e.listed);
      } else {
        assert TokenUnder(c, dir, e.token);
        CallStaysUnder(c, dir, before.tables, e.token, e.delegated, e.op);
      }
    }
  }

  // ---- global permissions ----

  predicate HasNoGlobal(t: Tables, rid: string) {
    forall g <- t.grants :: g.role == rid ==> !Global(Canon(g.code))
  }

  /** No custom role, no user but a system administrator, and no such user's token has a global
      permission. */
  ghost predicate Clean(dir: Directory, w: World) {
    && (forall rid :: Custom(w.tables, rid) ==> HasNoGlobal(w.tables, rid))
    && (forall x <- w.tables.assignments :: x.user in dir.users && !dir.users[x.user].sysAdmin ==> HasNoGlobal(w.tables, x.role))
    && (forall k <- w.tokens :: CleanToken(dir, k))
  }

  predicate CleanToken(dir: Directory, k: Token) {
    k.user in dir.users && !dir.users[k.user].sysAdmin ==>
      && k.institution == Trim(dir.users[k.user].institution)
      && forall p <- k.perms :: !Global(Canon(p))
  }

  function NoGlobal(): Ceiling { (inst: string, code: string) => !Global(code) }

  lemma NoGlobalIsClosed()
    ensures Closed(NoGlobal())
  {
    assert |SUPER| == 11 && |TENANTS| == 21 && |LOCAL| == 18 && |CREATE| == |STAFF| == 11 && |EQUIP| == 17 && |USERS| == |ROLES| == 12;
    assert SUPER[0] == 'S' && CREATE[0] == 'C' && STAFF[0] == 'A';
    var c := NoGlobal();
    forall inst: string ensures !c(inst, SUPER)
      && (forall held, code :: c(inst, held) && Implies(held, code) ==> c(inst, code))
      && (c(inst, LOCAL) || c(inst, ROLES) ==> forall code :: !Global(code) ==> c(inst, code)) {
    }
  }

  lemma CleanIsUnder(dir: Directory, w: World)
    requires Coherent(dir, w.tables)
    ensures Clean(dir, w) <==> WorldUnder(NoGlobal(), dir, w)
  {
    var t, c := w.tables, NoGlobal();
    if Clean(dir, w) {
      forall rid | Custom(t, rid) ensures RoleUnder(c, t, Home(t, rid), rid) { assert HasNoGlobal(t, rid); }
      forall x <- t.assignments ensures HeldUnder(c, dir, t, x) {
        if x.user in dir.users && !dir.users[x.user].sysAdmin { assert HasNoGlobal(t, x.role); }
      }
      forall k <- w.tokens ensures TokenUnder(c, dir, k) { assert CleanToken(dir, k); }
    }
    if WorldUnder(c, dir, w) {
      forall rid | Custom(t, rid) ensures HasNoGlobal(t, rid) { assert RoleUnder(c, t, Home(t, rid), rid); }
      forall x | x in t.assignments && x.user in dir.users && !dir.users[x.user].sysAdmin ensures HasNoGlobal(t, x.role) {
        assert HeldUnder(c, dir, t, x);
        if !t.roles[x.role].system { assert RoleUnder(c, t, Home(t, x.role), x.role); }
      }
      forall k <- w.tokens ensures CleanToken(dir, k) { assert TokenUnder(c, dir, k); }
    }
  }

  /** Global permissions never spread. */
  lemma GlobalNeverSpreads(dir: Directory, w: World, es: seq<Event>)
    requires Coherent(dir, w.tables) && Clean(dir, w) && PossibleRun(dir, w, es)
    ensures Clean(dir, Run(dir, w, es))
  {
    NoGlobalIsClosed();
    CleanIsUnder(dir, w);
    CeilingHolds(NoGlobal(), dir, w, es);
    CleanIsUnder(dir, Run(dir, w, es));
  }

  // ---- institutions without delegates ----

  /** In one institution only what the given codes imply, elsewhere anything not global. */
  function Confined(home: string, codes: seq<string>): Ceiling {
    (inst: string, code: string) => if inst == home then Permits(codes, code) else !Global(code)
  }

  lemma ConfinedIsClosed(home: string, codes: seq<string>)
    requires forall p <- codes :: Canon(p) !in {SUPER, LOCAL, ROLES}
    ensures Closed(Confined(home, codes))
  {
    var c := Confined(home, codes);
    NoGlobalIsClosed();
    NothingElseIsAdmin(codes);
    forall held, code | c(home, held) && Implies(held, code) ensures c(home, code) {
      var p :| p in codes && Implies(Canon(p), held);
      ImpliesTransitive(Canon(p), held, code);
    }
    assert forall inst, code :: inst != home ==> c(inst, code) == NoGlobal()(inst, code);
  }

  lemma NothingElseIsAdmin(codes: seq<string>)
    requires forall p <- codes :: Canon(p) !in {SUPER, LOCAL, ROLES}
    ensures !Permits(codes, SUPER) && !Permits(codes, LOCAL) && !Permits(codes, ROLES)
  {
    assert |SUPER| == 11 && |CREATE| == |STAFF| == 11 && |EQUIP| == 17 && |USERS| == 12;
    assert SUPER[0] == 'S' && CREATE[0] == 'C' && STAFF[0] == 'A';
    forall p <- codes ensures !Implies(Canon(p), SUPER) && !Implies(Canon(p), LOCAL) && !Implies(Canon(p), ROLES) {
      NothingImpliesDelegate(Canon(p));
    }
  }

  /** Where nobody administers roles, no run lets anyone do more than some code there allowed
      at the start, whatever goes on in other institutions. */
  lemma NoDelegateNoGrowth(dir: Directory, w: World, es: seq<Event>, home: string, codes: seq<string>, k: Token, required: string)
    requires forall p <- codes :: Canon(p) !in {SUPER, LOCAL, ROLES}
    requires WorldUnder(Confined(home, codes), dir, w) && PossibleRun(dir, w, es)
    requires k in Run(dir, w, es).tokens && k.institution == home
    requires k.user in dir.users && !dir.users[k.user].sysAdmin
    ensures Grants(k.perms, required) ==> Grants(codes, required)
  {
    var c := Confined(home, codes);
    ConfinedIsClosed(home, codes);
    CeilingHolds(c, dir, w, es);
    assert TokenUnder(c, dir, k);
    if Permits(k.perms, Canon(required)) {
      var p :| p in k.perms && Implies(Canon(p), Canon(required));
      var held := Canon(p);
      assert c(home, held) == Permits(codes, held);
      var q :| q in codes && Implies(Canon(q), held);
      ImpliesTransitive(Canon(q), Canon(p), Canon(required));
    }
  }

  lemma DelegateMayEquip(a: Actor, d: Delegated)
    requires Delegate(a.permissions)
    ensures MayEquip(a, d)
  {
    UpperCaseStays(EQUIP);
    var p := DelegateCode(a.permissions);
    assert Implies(Canon(p), EQUIP);
  }

  /** The ceiling is as low as it can be: a holder of MANAGE_LOCAL_ROLES or MANAGE_ROLES gives a
      custom role of the institution any catalogued permission, a global one only if it is
      allowed to the holder. */
  lemma DelegateGrantsIff(dir: Directory, t: Tables, a: Actor, d: Delegated, rid: string, code: string)
    requires !a.sysAdmin && Own(t, a, rid) && code in dir.catalog
    ensures Delegate(a.permissions) && Trim(rid) == rid != "" && Canon(code) == code != "" ==>
              (Decide(dir, t, a, d, AssignPermission(rid, code)).Yes? <==> !Global(code) || Grants(a.permissions, code))
    ensures Delegate(a.permissions) && Trim(rid) == rid != "" && Canon(code) == code != "" && Decide(dir, t, a, d, AssignPermission(rid, code)).Yes? ==>
              Grant(rid, code) in After(dir, t, a, d, AssignPermission(rid, code)).grants
  {
    if Delegate(a.permissions) && Trim(rid) == rid != "" && Canon(code) == code != "" {
      DelegateMayEquip(a, d);
      assert Decide(dir, t, a, d, AssignPermission(rid, code)) == Equipped(dir, t, a, true, MayHandOn(a, code), rid, code);
    }
  }
}
