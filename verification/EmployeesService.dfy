/** Creating employees and changing their role (rbac/services/employees.service.ts): every step writes
    the local tables or the Keycloak realm, and may fail. */
module EmployeesService {
  import opened Outcomes
  import opened Faults
  import opened RbacConstants
  import opened RbacTables
  import opened RolesService

  datatype CreateEmployee = CreateEmployee(
    username: string, email: string, firstName: string, lastName: string, roleId: nat)

  /** Lookups stands for the reads before the first write. */
  datatype Await =
    | Lookups
    | CreateUser | SetPassword
    | RemoveRole | AssignRole
    | SaveEmployee | SaveAssignment
    | ReadDetails | ReadRoles

  /** Why the actor may not give the role to anyone. */
  function AssignRefusal(w: World, actor: Actor, roleId: nat): Option<RbacError> {
    var refusal := CannotAssignRole(w, actor, roleId);
    if refusal.Some? then refusal
    else if MixesMakerAndChecker(w, [roleId]) then Some(MakerCheckerViolation)
    else if !CanAssignRoleToEmployee(actor, w.roles[roleId].name) then Some(Forbidden)
    else None
  }

  function CreateRefusal(w: World, dto: CreateEmployee, actor: Actor): Option<RbacError> {
    if !IsEmployeeManager(actor) then Some(Forbidden)
    else
      var refusal := AssignRefusal(w, actor, dto.roleId);
      if refusal.Some? then refusal
      else if HoldsUsername(w, dto.username) then Some(UsernameExists)
      else None
  }

  function AddRealmUser(w: World, username: string): World {
    w.(users := w.users + [RealmUser(username, {})])
  }

  function CreateRealmUser(w: World, username: string, plan: Plan<Await>): Progress {
    if RealmHasUsername(w, username) then
      var create := At(plan, CreateUser);
      Progress(w, if create.Works? then Threw(KeycloakRefused) else Leaves(create, Unavailable))
    else
      var created := Write(w, At(plan, CreateUser), AddRealmUser(w, username));
      if created.exit.Go? then Progress(created.w, Leaves(At(plan, SetPassword), Unavailable)) else created
  }

  function Grant(w: World, user: nat, role: string): World {
    if user < |w.users| then w.(users := w.users[user := w.users[user].(roles := w.users[user].roles + {role})]) else w
  }

  function Revoke(w: World, user: nat, role: string): World {
    if user < |w.users| then w.(users := w.users[user := w.users[user].(roles := w.users[user].roles - {role})]) else w
  }

  function AccountOf(w: World, employeeId: nat, roleId: nat): Account
    requires employeeId < |w.employees| && roleId < |w.roles|
  {
    var e := w.employees[employeeId];
    Account(employeeId, e.keycloakUserId, e.username, e.email, e.firstName, e.lastName, roleId, w.roles[roleId].name,
            e.isActive)
  }

  /** The end of both operations: read the role back, publish, read the realm roles. */
  function Announce(w: World, employeeId: nat, roleId: nat, plan: Plan<Await>): Progress
    requires employeeId < |w.employees| && roleId < |w.roles|
  {
    if !At(plan, ReadDetails).Works? then Progress(w, Leaves(At(plan, ReadDetails), Unavailable))
    else Progress(Published(w, AccountOf(w, employeeId, roleId)), Leaves(At(plan, ReadRoles), Unavailable))
  }

  function NewEmployee(dto: CreateEmployee, user: nat): Employee {
    Employee(user, dto.username, dto.email, dto.firstName, dto.lastName, true)
  }

  function SaveNewEmployee(w: World, dto: CreateEmployee, user: nat, actor: Actor, plan: Plan<Await>): Progress
    requires dto.roleId < |w.roles|
  {
    var hired := Write(w, At(plan, SaveEmployee), w.(employees := w.employees + [NewEmployee(dto, user)]));
    if !hired.exit.Go? then hired
    else
      var id := |w.employees|;
      var linked := Write(hired.w, At(plan, SaveAssignment),
                            hired.w.(assignments := w.assignments + [Assignment(id, dto.roleId, actor.sub)]));
      if !linked.exit.Go? then linked else Announce(linked.w, id, dto.roleId, plan)
  }

  /** The realm part of a hire: a new user, then its role. */
  function CreateGranted(w: World, username: string, roleId: nat, plan: Plan<Await>): Progress
    requires roleId < |w.roles|
  {
    var created := CreateRealmUser(w, username, plan);
    if !created.exit.Go? then created
    else Write(created.w, At(plan, AssignRole), Grant(created.w, |w.users|, w.roles[roleId].keycloakRoleName))
  }

  function Created(w: World, dto: CreateEmployee, actor: Actor, plan: Plan<Await>): Progress {
    if IsEmployeeManager(actor) && !At(plan, Lookups).Works? then Progress(w, Leaves(At(plan, Lookups), Unavailable))
    else
      var refusal := CreateRefusal(w, dto, actor);
      if refusal.Some? then Progress(w, Threw(refusal.value))
      else
        var granted := CreateGranted(w, dto.username, dto.roleId, plan);
        if !granted.exit.Go? then granted else SaveNewEmployee(granted.w, dto, |w.users|, actor, plan)
  }

  /** The role of the employee's assignment, when there is one. */
  function CurrentRole(w: World, employeeId: nat): (roleId: Option<nat>)
    ensures roleId.Some? ==> roleId.value < |w.roles|
  {
    var row := AssignmentOf(w.assignments, employeeId);
    if row.Some? && w.assignments[row.value].roleId < |w.roles| then Some(w.assignments[row.value].roleId) else None
  }

  function UpdateRefusal(w: World, employeeId: nat, roleId: nat, actor: Actor): Option<RbacError> {
    if !IsEmployeeManager(actor) then Some(Forbidden)
    else if employeeId >= |w.employees| || !w.employees[employeeId].isActive then Some(EmployeeNotFound)
    else
      var refusal := AssignRefusal(w, actor, roleId);
      if refusal.Some? then refusal
      else
        var current := CurrentRole(w, employeeId);
        if current.Some? && !CanManageEmployeeWithRole(actor, w.roles[current.value].name) then Some(Forbidden)
        else if current == Some(roleId) then Some(AlreadyAssigned)
        else None
  }

  /** The assignment row as the update leaves it. */
  function Reassigned(w: World, employeeId: nat, roleId: nat, actor: Actor): World {
    match AssignmentOf(w.assignments, employeeId)
    case Some(row) =>
      w.(assignments := w.assignments[row := w.assignments[row].(roleId := roleId, assignedBy := actor.sub)])
    case None =>
      w.(assignments := w.assignments + [Assignment(employeeId, roleId, actor.sub)])
  }

  /** The realm part of a role change: the current role is taken back before the new one is granted. */
  function SwapGrants(w: World, user: nat, current: Option<nat>, roleId: nat, plan: Plan<Await>): Progress
    requires roleId < |w.roles| && (current.Some? ==> current.value < |w.roles|)
  {
    var removed :=
      if current.Some? then
        Write(w, At(plan, RemoveRole), Revoke(w, user, w.roles[current.value].keycloakRoleName))
      else Progress(w, Go);
    if !removed.exit.Go? then removed
    else Write(removed.w, At(plan, AssignRole), Grant(removed.w, user, w.roles[roleId].keycloakRoleName))
  }

  function SaveReassigned(w: World, employeeId: nat, roleId: nat, actor: Actor, plan: Plan<Await>): Progress
    requires employeeId < |w.employees| && roleId < |w.roles|
  {
    var saved := Write(w, At(plan, SaveAssignment), Reassigned(w, employeeId, roleId, actor));
    if !saved.exit.Go? then saved else Announce(saved.w, employeeId, roleId, plan)
  }

  function SwappedAndSaved(w: World, employeeId: nat, roleId: nat, actor: Actor, plan: Plan<Await>): Progress
    requires employeeId < |w.employees| && roleId < |w.roles|
  {
    var swapped := SwapGrants(w, w.employees[employeeId].keycloakUserId, CurrentRole(w, employeeId), roleId, plan);
    if !swapped.exit.Go? then swapped else SaveReassigned(swapped.w, employeeId, roleId, actor, plan)
  }

  function Updated(w: World, employeeId: nat, roleId: nat, actor: Actor, plan: Plan<Await>): Progress {
    if IsEmployeeManager(actor) && !At(plan, Lookups).Works? then Progress(w, Leaves(At(plan, Lookups), Unavailable))
    else
      var refusal := UpdateRefusal(w, employeeId, roleId, actor);
      if refusal.Some? then Progress(w, Threw(refusal.value))
      else SwappedAndSaved(w, employeeId, roleId, actor, plan)
  }

  class Service {
    const store: RbacStore
    const listener: AdminUserSyncListener

    constructor (store: RbacStore)
      ensures this.store == store && listener.store == store
    {
      this.store := store;
      listener := new AdminUserSyncListener(store);
    }

    method CreateKeycloakUser(username: string, plan: Plan<Await>) returns (exit: Exit)
      modifies store
      ensures Progress(store.Snapshot(), exit) == CreateRealmUser(old(store.Snapshot()), username, plan)
    {
      var create := At(plan, CreateUser);
      if RealmHasUsername(store.Snapshot(), username) {
        return if create == Works then Threw(KeycloakRefused) else Leaves(create, Unavailable);
      }
      if TakesEffect(create) {
        store.users := store.users + [RealmUser(username, {})];
      }
      if create != Works {
        return Leaves(create, Unavailable);
      }
      return Leaves(At(plan, SetPassword), Unavailable);
    }

    method AssignRealmRole(user: nat, role: string, mode: Mode) returns (exit: Exit)
      modifies store
      ensures Progress(store.Snapshot(), exit) ==
          Write(old(store.Snapshot()), mode, Grant(old(store.Snapshot()), user, role))
    {
      if TakesEffect(mode) && user < |store.users| {
        store.users := store.users[user := store.users[user].(roles := store.users[user].roles + {role})];
      }
      return Leaves(mode, Unavailable);
    }

    method RemoveRealmRole(user: nat, role: string, mode: Mode) returns (exit: Exit)
      modifies store
      ensures Progress(store.Snapshot(), exit) ==
          Write(old(store.Snapshot()), mode, Revoke(old(store.Snapshot()), user, role))
    {
      if TakesEffect(mode) && user < |store.users| {
        store.users := store.users[user := store.users[user].(roles := store.users[user].roles - {role})];
      }
      return Leaves(mode, Unavailable);
    }

    method PublishAccount(employeeId: nat, roleId: nat, plan: Plan<Await>) returns (exit: Exit)
      requires listener.store == store
      requires employeeId < |store.employees| && roleId < |store.roles|
      modifies store
      ensures Progress(store.Snapshot(), exit) == Announce(old(store.Snapshot()), employeeId, roleId, plan)
    {
      if At(plan, ReadDetails) != Works {
        return Leaves(At(plan, ReadDetails), Unavailable);
      }
      var event := AccountOf(store.Snapshot(), employeeId, roleId);
      store.published := store.published + [event];
      listener.Handle(event);
      return Leaves(At(plan, ReadRoles), Unavailable);
    }

    method Create(dto: CreateEmployee, actor: Actor, plan: Plan<Await>) returns (exit: Exit)
      requires listener.store == store
      modifies store
      ensures Progress(store.Snapshot(), exit) == Created(old(store.Snapshot()), dto, actor, plan)
    {
      if !IsEmployeeManager(actor) {
        return Threw(Forbidden);
      }
      if At(plan, Lookups) != Works {
        return Leaves(At(plan, Lookups), Unavailable);
      }
      var refusal := AssignRefusal(store.Snapshot(), actor, dto.roleId);
      if refusal.Some? {
        return Threw(refusal.value);
      }
      if HoldsUsername(store.Snapshot(), dto.username) {
        return Threw(UsernameExists);
      }
      var role := store.roles[dto.roleId];
      var user := |store.users|;
      exit := CreateKeycloakUser(dto.username, plan);
      if exit != Go {
        return;
      }
      exit := AssignRealmRole(user, role.keycloakRoleName, At(plan, AssignRole));
      if exit != Go {
        return;
      }
      exit := SaveRows(dto, user, actor, plan);
    }

    method SaveRows(dto: CreateEmployee, user: nat, actor: Actor, plan: Plan<Await>) returns (exit: Exit)
      requires listener.store == store && dto.roleId < |store.roles|
      modifies store
      ensures Progress(store.Snapshot(), exit) == SaveNewEmployee(old(store.Snapshot()), dto, user, actor, plan)
    {
      var hire, id := At(plan, SaveEmployee), |store.employees|;
      if TakesEffect(hire) {
        store.employees := store.employees
          + [Employee(user, dto.username, dto.email, dto.firstName, dto.lastName, true)];
      }
      if hire != Works {
        return Leaves(hire, Unavailable);
      }
      var assign := At(plan, SaveAssignment);
      if TakesEffect(assign) {
        store.assignments := store.assignments + [Assignment(id, dto.roleId, actor.sub)];
      }
      if assign != Works {
        return Leaves(assign, Unavailable);
      }
      exit := PublishAccount(id, dto.roleId, plan);
    }

    method UpdateRole(employeeId: nat, roleId: nat, actor: Actor, plan: Plan<Await>) returns (exit: Exit)
      requires listener.store == store
      modifies store
      ensures Progress(store.Snapshot(), exit) ==
        Updated(old(store.Snapshot()), employeeId, roleId, actor, plan)
    {
      if !IsEmployeeManager(actor) {
        return Threw(Forbidden);
      }
      if At(plan, Lookups) != Works {
        return Leaves(At(plan, Lookups), Unavailable);
      }
      if employeeId >= |store.employees| || !store.employees[employeeId].isActive {
        return Threw(EmployeeNotFound);
      }
      var refusal := AssignRefusal(store.Snapshot(), actor, roleId);
      if refusal.Some? {
        return Threw(refusal.value);
      }
      var current := CurrentRole(store.Snapshot(), employeeId);
      if current.Some? && !CanManageEmployeeWithRole(actor, store.roles[current.value].name) {
        return Threw(Forbidden);
      }
      if current == Some(roleId) {
        return Threw(AlreadyAssigned);
      }
      exit := SwapAndSave(employeeId, roleId, actor, plan);
    }

    method SwapAndSave(employeeId: nat, roleId: nat, actor: Actor, plan: Plan<Await>) returns (exit: Exit)
      requires listener.store == store && employeeId < |store.employees| && roleId < |store.roles|
      modifies store
      ensures Progress(store.Snapshot(), exit) ==
        SwappedAndSaved(old(store.Snapshot()), employeeId, roleId, actor, plan)
    {
      var user, current := store.employees[employeeId].keycloakUserId, CurrentRole(store.Snapshot(), employeeId);
      exit := SwapRealmRoles(user, current, roleId, plan);
      if exit != Go {
        return;
      }
      exit := SaveReassignment(employeeId, roleId, actor, At(plan, SaveAssignment));
      if exit != Go {
        return;
      }
      exit := PublishAccount(employeeId, roleId, plan);
    }

    method SwapRealmRoles(user: nat, current: Option<nat>, roleId: nat, plan: Plan<Await>) returns (exit: Exit)
      requires roleId < |store.roles| && (current.Some? ==> current.value < |store.roles|)
      modifies store
      ensures Progress(store.Snapshot(), exit) == SwapGrants(old(store.Snapshot()), user, current, roleId, plan)
    {
      if current.Some? {
        exit := RemoveRealmRole(user, store.roles[current.value].keycloakRoleName, At(plan, RemoveRole));
        if exit != Go {
          return;
        }
      }
      exit := AssignRealmRole(user, store.roles[roleId].keycloakRoleName, At(plan, AssignRole));
    }

    method SaveReassignment(employeeId: nat, roleId: nat, actor: Actor, mode: Mode) returns (exit: Exit)
      modifies store
      ensures Progress(store.Snapshot(), exit) ==
        Write(old(store.Snapshot()), mode, Reassigned(old(store.Snapshot()), employeeId, roleId, actor))
    {
      if TakesEffect(mode) {
        var row := AssignmentOf(store.assignments, employeeId);
        if row.Some? {
          var assignment := store.assignments[row.value].(roleId := roleId, assignedBy := actor.sub);
          store.assignments := store.assignments[row.value := assignment];
        } else {
          store.assignments := store.assignments + [Assignment(employeeId, roleId, actor.sub)];
        }
      }
      return Leaves(mode, Unavailable);
    }
  }
}
