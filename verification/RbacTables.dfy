/** The tables of the rbac module, the Keycloak realm they mirror, and the admin_user read model. Rows
    are identified by their position: nothing here deletes one. */
module RbacTables {
  import opened Outcomes
  import opened RbacConstants

  datatype Role = Role(name: string, keycloakRoleName: string, dutyType: DutyType, isActive: bool)

  datatype Employee = Employee(
    keycloakUserId: nat, username: string, email: string, firstName: string, lastName: string, isActive: bool)

  datatype Assignment = Assignment(employeeId: nat, roleId: nat, assignedBy: string)

  datatype Delegation = Delegation(roleId: nat, delegate: string)

  datatype RealmUser = RealmUser(username: string, roles: set<string>)

  /** What the employee-account-synced event carries and an admin_user row stores. */
  datatype Account = Account(
    employeeId: nat,
    keycloakUserId: nat,
    username: string,
    email: string,
    firstName: string,
    lastName: string,
    roleId: nat,
    roleName: string,
    isActive: bool)

  datatype World = World(
    roles: seq<Role>,
    delegations: set<Delegation>,
    employees: seq<Employee>,
    assignments: seq<Assignment>,
    realmRoles: set<string>,
    users: seq<RealmUser>,
    published: seq<Account>,
    adminUsers: seq<Account>)

  datatype RbacError =
    | Forbidden
    | RoleNotFound
    | RoleExists
    | MakerCheckerViolation
    | UsernameExists
    | EmployeeNotFound
    | AlreadyAssigned
    | KeycloakRefused
    | Unavailable

  function RoleByName(roles: seq<Role>, name: string): (row: Option<nat>)
    ensures row.Some? ==> row.value < |roles| && roles[row.value].name == name
    ensures row.None? ==> forall i | 0 <= i < |roles| :: roles[i].name != name
  {
    if roles == [] then None
    else
      var last := |roles| - 1;
      var earlier := RoleByName(roles[..last], name);
      if earlier.Some? then earlier else if roles[last].name == name then Some(last) else None
  }

  /** The first assignment of the employee. */
  function AssignmentOf(assignments: seq<Assignment>, employeeId: nat): (row: Option<nat>)
    ensures row.Some? ==>
      && row.value < |assignments| && assignments[row.value].employeeId == employeeId
      && forall i | 0 <= i < row.value :: assignments[i].employeeId != employeeId
    ensures row.None? ==> forall i | 0 <= i < |assignments| :: assignments[i].employeeId != employeeId
  {
    if assignments == [] then None
    else
      var last := |assignments| - 1;
      var earlier := AssignmentOf(assignments[..last], employeeId);
      if earlier.Some? then earlier
      else if assignments[last].employeeId == employeeId then Some(last) else None
  }

  predicate HoldsUsername(w: World, username: string) {
    exists i | 0 <= i < |w.employees| :: w.employees[i].username == username
  }

  predicate RealmHasUsername(w: World, username: string) {
    exists i | 0 <= i < |w.users| :: w.users[i].username == username
  }

  // ---- the admin_user read model (admin/admin-user/admin-user-sync.listener.ts)

  const ADMIN_PORTAL_ROLES := ["BANK_SUPER_ADMIN", "BANK_ADMIN", "BANK_MAKER", "BANK_CHECKER"]

  function AdminRow(rows: seq<Account>, keycloakUserId: nat): (row: Option<nat>)
    ensures row.Some? ==>
      && row.value < |rows| && rows[row.value].keycloakUserId == keycloakUserId
      && forall i | 0 <= i < row.value :: rows[i].keycloakUserId != keycloakUserId
    ensures row.None? ==> forall i | 0 <= i < |rows| :: rows[i].keycloakUserId != keycloakUserId
  {
    if rows == [] then None
    else
      var last := |rows| - 1;
      var earlier := AdminRow(rows[..last], keycloakUserId);
      if earlier.Some? then earlier
      else if rows[last].keycloakUserId == keycloakUserId then Some(last) else None
  }

  function Synced(rows: seq<Account>, event: Account): seq<Account> {
    if event.roleName !in ADMIN_PORTAL_ROLES then rows
    else
      match AdminRow(rows, event.keycloakUserId)
      case Some(i) => rows[i := event]
      case None => rows + [event]
  }

  /** Publishing an account event, handled before the next call. */
  function Published(w: World, event: Account): World {
    w.(published := w.published + [event], adminUsers := Synced(w.adminUsers, event))
  }

  class RbacStore {
    var roles: seq<Role>
    var delegations: set<Delegation>
    var employees: seq<Employee>
    var assignments: seq<Assignment>
    var realmRoles: set<string>
    var users: seq<RealmUser>
    var published: seq<Account>
    var adminUsers: seq<Account>

    constructor ()
      ensures Snapshot() == World([], {}, [], [], {}, [], [], [])
    {
      roles, delegations, employees, assignments := [], {}, [], [];
      realmRoles, users, published, adminUsers := {}, [], [], [];
    }

    function Snapshot(): World
      reads this
    {
      World(roles, delegations, employees, assignments, realmRoles, users, published, adminUsers)
    }
  }

  class AdminUserSyncListener {
    const store: RbacStore

    constructor (store: RbacStore)
      ensures this.store == store
    {
      this.store := store;
    }

    method Handle(event: Account)
      modifies store`adminUsers
      ensures store.adminUsers == Synced(old(store.adminUsers), event)
    {
      if event.roleName !in ADMIN_PORTAL_ROLES {
        return;
      }
      var existing := AdminRow(store.adminUsers, event.keycloakUserId);
      if existing.Some? {
        store.adminUsers := store.adminUsers[existing.value := event];
      } else {
        store.adminUsers := store.adminUsers + [event];
      }
    }
  }
}
