/** Who may hire, change a role and hand out the right to, stated on the tables, the delegations and the
    claims of the caller (rbac/services/employees.service.ts and roles.service.ts): for one operation under
    any failures, and for every run. */
module EmployeeAccess {
  import opened Outcomes
  import opened Faults
  import opened RbacConstants
  import opened ActorClaims
  import opened RbacTables
  import opened RolesService
  import opened EmployeesService
  import opened EmployeeRuns

  /** The delegation check reads realm_access alone. */
  ghost predicate RealmSuper(actor: Actor) {
    || "BANK_SUPER_ADMIN" in actor.realmAccessRoles
    || "SUPERADMIN" in actor.realmAccessRoles
    || "superadmin" in actor.realmAccessRoles
  }

  /** The role exists and is active. */
  ghost predicate Active(w: World, roleId: nat) {
    roleId < |w.roles| && w.roles[roleId].isActive
  }

  /** A superadmin in realm_access, or someone the role is delegated to. */
  ghost predicate Delegated(w: World, roleId: nat, actor: Actor) {
    RealmSuper(actor) || Delegation(roleId, actor.sub) in w.delegations
  }

  /** A superadmin, or someone with a claimed role above the named one. */
  ghost predicate Above(actor: Actor, role: string) {
    ClaimsSuper(actor) || Outranks(actor, role)
  }

  ghost predicate MayGive(w: World, roleId: nat, actor: Actor) {
    Active(w, roleId) && Delegated(w, roleId, actor) && Above(actor, w.roles[roleId].name)
  }

  ghost predicate Manages(actor: Actor) {
    ClaimsSuper(actor) || ClaimsBankAdmin(actor)
  }

  ghost predicate TakenUsername(w: World, username: string) {
    exists e | 0 <= e < |w.employees| :: w.employees[e].username == username
  }

  /** The first assignment of the employee is of this role. */
  ghost predicate HasRole(w: World, employeeId: nat, roleId: nat) {
    exists row | 0 <= row < |w.assignments| ::
      && w.assignments[row].employeeId == employeeId && w.assignments[row].roleId == roleId < |w.roles|
      && forall j | 0 <= j < row :: w.assignments[j].employeeId != employeeId
  }

  ghost predicate IsEmployed(w: World, employeeId: nat) {
    employeeId < |w.employees| && w.employees[employeeId].isActive
  }

  ghost predicate MayHire(w: World, dto: CreateEmployee, actor: Actor) {
    Manages(actor) && MayGive(w, dto.roleId, actor) && !TakenUsername(w, dto.username)
  }

  /** The caller is above the employee's role as well, and it is another one. */
  ghost predicate MayChange(w: World, employeeId: nat, roleId: nat, actor: Actor) {
    && Manages(actor) && IsEmployed(w, employeeId) && MayGive(w, roleId, actor)
    && forall current: nat | HasRole(w, employeeId, current) :: Above(actor, w.roles[current].name) && current != roleId
  }

  /** The error for a role that may not be given. */
  function NotGiven(w: World, roleId: nat): RbacError {
    if roleId >= |w.roles| || !w.roles[roleId].isActive then RoleNotFound else Forbidden
  }

  lemma GivingIsByTables(w: World, roleId: nat, actor: Actor)
    ensures AssignRefusal(w, actor, roleId) == if MayGive(w, roleId, actor) then None else Some(NotGiven(w, roleId))
    ensures CannotAssignRole(w, actor, roleId).None? <==> Active(w, roleId) && Delegated(w, roleId, actor)
  {
    SuperadminRoles(actor.realmAccessRoles);
    if roleId < |w.roles| {
      ChecksAreByClaims(actor, w.roles[roleId].name);
    }
  }

  lemma CurrentIsHeld(w: World, employeeId: nat)
    ensures forall roleId: nat :: HasRole(w, employeeId, roleId) <==> CurrentRole(w, employeeId) == Some(roleId)
  {
    var row := AssignmentOf(w.assignments, employeeId);
    forall roleId: nat ensures HasRole(w, employeeId, roleId) <==> CurrentRole(w, employeeId) == Some(roleId) {
      if HasRole(w, employeeId, roleId) {
        var i :| 0 <= i < |w.assignments|
          && w.assignments[i].employeeId == employeeId && w.assignments[i].roleId == roleId < |w.roles|
          && forall j | 0 <= j < i :: w.assignments[j].employeeId != employeeId;
        assert row == Some(i);
      }
    }
  }

  // ---- one operation

  /** A hire that is not permitted changes nothing, whatever fails, and is refused with the error of the
      first check it does not pass; a failing read comes after the first check. */
  lemma HireIsPermitted(w: World, dto: CreateEmployee, actor: Actor, plan: Plan<Await>)
    requires !MayHire(w, dto, actor)
    ensures var p := Created(w, dto, actor, plan);
      && p.w == w
      && p.exit ==
           if !Manages(actor) then Threw(Forbidden)
           else if At(plan, Lookups) != Works then Leaves(At(plan, Lookups), Unavailable)
           else if !MayGive(w, dto.roleId, actor) then Threw(NotGiven(w, dto.roleId))
           else Threw(UsernameExists)
  {
    ChecksAreByClaims(actor, "");
    GivingIsByTables(w, dto.roleId, actor);
  }

  /** A role change that is not permitted changes nothing either. */
  lemma ChangeIsPermitted(w: World, employeeId: nat, roleId: nat, actor: Actor, plan: Plan<Await>)
    requires !MayChange(w, employeeId, roleId, actor)
    ensures var p := Updated(w, employeeId, roleId, actor, plan);
      && p.w == w
      && p.exit ==
           if !Manages(actor) then Threw(Forbidden)
           else if At(plan, Lookups) != Works then Leaves(At(plan, Lookups), Unavailable)
           else if !IsEmployed(w, employeeId) then Threw(EmployeeNotFound)
           else if !MayGive(w, roleId, actor) then Threw(NotGiven(w, roleId))
           else if exists current: nat :: HasRole(w, employeeId, current) && !Above(actor, w.roles[current].name)
             then Threw(Forbidden)
           else Threw(AlreadyAssigned)
  {
    ChecksAreByClaims(actor, "");
    GivingIsByTables(w, roleId, actor);
    CurrentIsHeld(w, employeeId);
    var current := CurrentRole(w, employeeId);
    if current.Some? {
      ChecksAreByClaims(actor, w.roles[current.value].name);
    }
  }

  lemma PermittedIffNotRefused(w: World, actor: Actor)
    ensures forall dto :: MayHire(w, dto, actor) <==> CreateRefusal(w, dto, actor).None?
    ensures forall employeeId: nat, roleId: nat ::
      MayChange(w, employeeId, roleId, actor) <==> UpdateRefusal(w, employeeId, roleId, actor).None?
  {
    forall dto ensures MayHire(w, dto, actor) <==> CreateRefusal(w, dto, actor).None? {
      ChecksAreByClaims(actor, "");
      GivingIsByTables(w, dto.roleId, actor);
    }
    forall employeeId: nat, roleId: nat
      ensures MayChange(w, employeeId, roleId, actor) <==> UpdateRefusal(w, employeeId, roleId, actor).None?
    {
      ChecksAreByClaims(actor, "");
      GivingIsByTables(w, roleId, actor);
      CurrentIsHeld(w, employeeId);
      var current := CurrentRole(w, employeeId);
      if current.Some? {
        ChecksAreByClaims(actor, w.roles[current.value].name);
      }
    }
  }

  // ---- how far a permitted operation gets

  function Awaited(plan: Plan<Await>, point: Await): Exit {
    Leaves(At(plan, point), Unavailable)
  }

  /** One await after another: the first that does not go through decides. */
  function Then(first: Exit, second: Exit): Exit {
    if first.Go? then second else first
  }

  /** What is announced of an employee with this role. */
  function AccountFor(employeeId: nat, employee: Employee, roleId: nat, role: Role): Account {
    Account(employeeId, employee.keycloakUserId, employee.username, employee.email, employee.firstName,
            employee.lastName, roleId, role.name, employee.isActive)
  }

  /** The tables after n of the five writes of a hire: the realm user, its role, the employee, the assignment
      and the announcement. */
  ghost predicate Hired(w: World, v: World, dto: CreateEmployee, actor: Actor, n: nat)
    requires dto.roleId < |w.roles|
  {
    var user, id, role := |w.users|, |w.employees|, w.roles[dto.roleId];
    var employee := Employee(user, dto.username, dto.email, dto.firstName, dto.lastName, true);
    && v.roles == w.roles && v.delegations == w.delegations && v.realmRoles == w.realmRoles
    && v.users == w.users + (if n == 0 then [] else
                               [RealmUser(dto.username, if n == 1 then {} else {role.keycloakRoleName})])
    && v.employees == w.employees + (if n < 3 then [] else [employee])
    && v.assignments == w.assignments + (if n < 4 then [] else [Assignment(id, dto.roleId, actor.sub)])
    && v.published == w.published + (if n < 5 then [] else [AccountFor(id, employee, dto.roleId, role)])
  }

  ghost predicate UsernameInRealm(w: World, username: string) {
    exists u | 0 <= u < |w.users| :: w.users[u].username == username
  }

  /** How many of the writes take effect: each one only after those before it have gone through. */
  function HireReach(plan: Plan<Await>): nat {
    if At(plan, Lookups) != Works || !TakesEffect(At(plan, CreateUser)) then 0
    else if At(plan, CreateUser) != Works || At(plan, SetPassword) != Works || !TakesEffect(At(plan, AssignRole)) then 1
    else if At(plan, AssignRole) != Works || !TakesEffect(At(plan, SaveEmployee)) then 2
    else if At(plan, SaveEmployee) != Works || !TakesEffect(At(plan, SaveAssignment)) then 3
    else if At(plan, SaveAssignment) != Works || At(plan, ReadDetails) != Works then 4
    else 5
  }

  /** Two awaits in the realm, then those that store, announce and read back. */
  ghost function HireExit(w: World, username: string, plan: Plan<Await>): Exit {
    var created :=
      if UsernameInRealm(w, username) then Then(Awaited(plan, CreateUser), Threw(KeycloakRefused))
      else Then(Awaited(plan, CreateUser), Awaited(plan, SetPassword));
    Then(Awaited(plan, Lookups), Then(created, Then(Awaited(plan, AssignRole), Then(Awaited(plan, SaveEmployee),
      Then(Awaited(plan, SaveAssignment), Then(Awaited(plan, ReadDetails), Awaited(plan, ReadRoles)))))))
  }

  lemma RealmPartOfHire(w: World, dto: CreateEmployee, actor: Actor, plan: Plan<Await>)
    requires dto.roleId < |w.roles| && At(plan, Lookups) == Works && !UsernameInRealm(w, dto.username)
    ensures var p := CreateGranted(w, dto.username, dto.roleId, plan);
      && p.w == w.(users := p.w.users)
      && Hired(w, p.w, dto, actor, if HireReach(plan) < 2 then HireReach(plan) else 2)
      && p.exit == Then(Awaited(plan, CreateUser), Then(Awaited(plan, SetPassword), Awaited(plan, AssignRole)))
  {
    var p, role := CreateGranted(w, dto.username, dto.roleId, plan), w.roles[dto.roleId].keycloakRoleName;
    var created := CreateRealmUser(w, dto.username, plan);
    assert {} + {role} == {role};
    if HireReach(plan) >= 2 {
      assert Grant(created.w, |w.users|, role).users == w.users + [RealmUser(dto.username, {role})];
    }
  }

  lemma TablePartOfHire(w: World, v: World, dto: CreateEmployee, actor: Actor, plan: Plan<Await>)
    requires dto.roleId < |w.roles| && v == w.(users := v.users) && Hired(w, v, dto, actor, 2)
    requires At(plan, Lookups) == At(plan, CreateUser) == At(plan, SetPassword) == At(plan, AssignRole) == Works
    ensures var p := SaveNewEmployee(v, dto, |w.users|, actor, plan);
      && Hired(w, p.w, dto, actor, HireReach(plan))
      && p.exit == Then(Awaited(plan, SaveEmployee), Then(Awaited(plan, SaveAssignment),
                        Then(Awaited(plan, ReadDetails), Awaited(plan, ReadRoles))))
  {
  }

  /** A permitted hire does its five writes in order, as far as the failures let it, and is left as the first
      failure leaves it; a username the realm knows stops it before the first write. */
  lemma HireWritesInOrder(w: World, dto: CreateEmployee, actor: Actor, plan: Plan<Await>)
    requires MayHire(w, dto, actor)
    ensures var p := Created(w, dto, actor, plan);
      && Hired(w, p.w, dto, actor, if UsernameInRealm(w, dto.username) then 0 else HireReach(plan))
      && p.exit == HireExit(w, dto.username, plan)
  {
    PermittedIffNotRefused(w, actor);
    if At(plan, Lookups) == Works && !UsernameInRealm(w, dto.username) {
      RealmPartOfHire(w, dto, actor, plan);
      var granted := CreateGranted(w, dto.username, dto.roleId, plan);
      if granted.exit.Go? {
        TablePartOfHire(w, granted.w, dto, actor, plan);
      }
    }
  }

  /** The employee's first assignment now is this one, or it was appended for want of one. */
  ghost predicate AssignmentSaved(a: seq<Assignment>, b: seq<Assignment>, given: Assignment) {
    if exists row | 0 <= row < |a| :: a[row].employeeId == given.employeeId then
      exists row | 0 <= row < |a| ::
        && a[row].employeeId == given.employeeId && b == a[row := given]
        && forall j | 0 <= j < row :: a[j].employeeId != given.employeeId
    else b == a + [given]
  }

  /** The realm name of the role the employee has. */
  ghost function HeldNames(w: World, employeeId: nat): set<string> {
    set roleId: nat | roleId < |w.roles| && HasRole(w, employeeId, roleId) :: w.roles[roleId].keycloakRoleName
  }

  /** The realm users after n of the writes: the employee's user first loses its role, then gets the other. */
  ghost predicate UsersChanged(w: World, v: World, employeeId: nat, roleId: nat, n: nat)
    requires employeeId < |w.employees| && roleId < |w.roles|
  {
    && |v.users| == |w.users|
    && forall u | 0 <= u < |w.users| ::
         var roles, name := w.users[u].roles, w.roles[roleId].keycloakRoleName;
         v.users[u] == RealmUser(w.users[u].username,
           if u != w.employees[employeeId].keycloakUserId || n == 0 then roles
           else if n == 1 then roles - HeldNames(w, employeeId)
           else roles - HeldNames(w, employeeId) + {name})
  }

  /** The tables after n of the four writes of a role change: the role taken back, the other given, the
      assignment and the announcement. */
  ghost predicate Changed(w: World, v: World, employeeId: nat, roleId: nat, actor: Actor, n: nat)
    requires employeeId < |w.employees| && roleId < |w.roles|
  {
    && v.roles == w.roles && v.delegations == w.delegations && v.realmRoles == w.realmRoles
    && v.employees == w.employees
    && UsersChanged(w, v, employeeId, roleId, n)
    && (if n < 3 then v.assignments == w.assignments
        else AssignmentSaved(w.assignments, v.assignments, Assignment(employeeId, roleId, actor.sub)))
    && v.published == w.published + (if n < 4 then []
                                     else [AccountFor(employeeId, w.employees[employeeId], roleId, w.roles[roleId])])
  }

  lemma HeldIsCurrent(w: World, employeeId: nat)
    ensures var current := CurrentRole(w, employeeId);
      HeldNames(w, employeeId) == if current.Some? then {w.roles[current.value].keycloakRoleName} else {}
  {
    CurrentIsHeld(w, employeeId);
  }

  /** Taking the role back, which an employee without one does not need. */
  ghost function TakenBack(w: World, employeeId: nat, plan: Plan<Await>): Mode {
    if exists roleId: nat :: HasRole(w, employeeId, roleId) then At(plan, RemoveRole) else Works
  }

  ghost function ChangeReach(w: World, employeeId: nat, plan: Plan<Await>): nat {
    if At(plan, Lookups) != Works || !TakesEffect(TakenBack(w, employeeId, plan)) then 0
    else if TakenBack(w, employeeId, plan) != Works || !TakesEffect(At(plan, AssignRole)) then 1
    else if At(plan, AssignRole) != Works || !TakesEffect(At(plan, SaveAssignment)) then 2
    else if At(plan, SaveAssignment) != Works || At(plan, ReadDetails) != Works then 3
    else 4
  }

  ghost function ChangeExit(w: World, employeeId: nat, plan: Plan<Await>): Exit {
    Then(Awaited(plan, Lookups), Then(Leaves(TakenBack(w, employeeId, plan), Unavailable),
      Then(Awaited(plan, AssignRole), Then(Awaited(plan, SaveAssignment),
        Then(Awaited(plan, ReadDetails), Awaited(plan, ReadRoles))))))
  }

  lemma RealmPartOfChange(w: World, employeeId: nat, roleId: nat, actor: Actor, plan: Plan<Await>)
    requires employeeId < |w.employees| && roleId < |w.roles| && At(plan, Lookups) == Works
    ensures var p := SwapGrants(w, w.employees[employeeId].keycloakUserId, CurrentRole(w, employeeId), roleId, plan);
      && p.w == w.(users := p.w.users)
      && Changed(w, p.w, employeeId, roleId, actor,
                 if ChangeReach(w, employeeId, plan) < 2 then ChangeReach(w, employeeId, plan) else 2)
      && p.exit == Then(Leaves(TakenBack(w, employeeId, plan), Unavailable), Awaited(plan, AssignRole))
  {
    CurrentIsHeld(w, employeeId);
    HeldIsCurrent(w, employeeId);
  }

  lemma ReassignedIsSaved(w: World, employeeId: nat, roleId: nat, actor: Actor)
    ensures AssignmentSaved(w.assignments, Reassigned(w, employeeId, roleId, actor).assignments,
                            Assignment(employeeId, roleId, actor.sub))
  {
    var row := AssignmentOf(w.assignments, employeeId);
    if row.Some? {
      assert w.assignments[row.value].employeeId == employeeId;
    }
  }

  lemma TablePartOfChange(w: World, v: World, employeeId: nat, roleId: nat, actor: Actor, plan: Plan<Await>)
    requires employeeId < |w.employees| && roleId < |w.roles|
    requires v == w.(users := v.users) && Changed(w, v, employeeId, roleId, actor, 2)
    requires At(plan, Lookups) == TakenBack(w, employeeId, plan) == At(plan, AssignRole) == Works
    ensures var p := SaveReassigned(v, employeeId, roleId, actor, plan);
      && Changed(w, p.w, employeeId, roleId, actor, ChangeReach(w, employeeId, plan))
      && p.exit == Then(Awaited(plan, SaveAssignment), Then(Awaited(plan, ReadDetails), Awaited(plan, ReadRoles)))
  {
    ReassignedIsSaved(v, employeeId, roleId, actor);
  }

  /** A permitted role change does its four writes in order, as far as the failures let it, and is left as the
      first failure leaves it. */
  lemma ChangeWritesInOrder(w: World, employeeId: nat, roleId: nat, actor: Actor, plan: Plan<Await>)
    requires MayChange(w, employeeId, roleId, actor)
    ensures var p := Updated(w, employeeId, roleId, actor, plan);
      && Changed(w, p.w, employeeId, roleId, actor, ChangeReach(w, employeeId, plan))
      && p.exit == ChangeExit(w, employeeId, plan)
  {
    PermittedIffNotRefused(w, actor);
    if At(plan, Lookups).Works? {
      RealmPartOfChange(w, employeeId, roleId, actor, plan);
      var user, current := w.employees[employeeId].keycloakUserId, CurrentRole(w, employeeId);
      var swapped := SwapGrants(w, user, current, roleId, plan);
      if swapped.exit.Go? {
        TablePartOfChange(w, swapped.w, employeeId, roleId, actor, plan);
      }
    }
  }

  // ---- every run

  /** The event is a permitted hire or role change that gives this role to this employee. */
  ghost predicate GivesRole(w: World, e: Event, employeeId: nat, roleId: nat) {
    match e
    case Hire(dto, actor, _) => MayHire(w, dto, actor) && employeeId == |w.employees| && roleId == dto.roleId
    case Reassign(id, newRole, actor, _) => MayChange(w, id, newRole, actor) && employeeId == id && roleId == newRole
    case _ => false
  }

  /** The assignment was given by the event's caller, who was permitted to. */
  ghost predicate GivenBy(w: World, e: Event, given: Assignment) {
    (e.Hire? || e.Reassign?) && GivesRole(w, e, given.employeeId, given.roleId) && given.assignedBy == e.actor.sub
  }

  /** The user was granted the realm role of a role that the event's caller was permitted to give. */
  ghost predicate GrantedBy(w: World, e: Event, user: nat, name: string) {
    exists employeeId: nat, roleId: nat ::
      && GivesRole(w, e, employeeId, roleId) && roleId < |w.roles| && name == w.roles[roleId].keycloakRoleName
      && user == if employeeId < |w.employees| then w.employees[employeeId].keycloakUserId else |w.users|
  }

  ghost predicate AnnouncedBy(w: World, e: Event, account: Account) {
    GivesRole(w, e, account.employeeId, account.roleId)
  }

  /** Every assignment, realm role and announcement after an event was there before, or the event's caller
      was permitted to make it. */
  ghost predicate Authorized(w: World, e: Event, v: World) {
    && (forall i | 0 <= i < |v.assignments| ::
          (i < |w.assignments| && v.assignments[i] == w.assignments[i]) || GivenBy(w, e, v.assignments[i]))
    && |w.users| <= |v.users| && (|v.users| > |w.users| ==> e.Hire? && MayHire(w, e.dto, e.actor))
    && (forall u: nat, name | u < |v.users| && name in v.users[u].roles ::
          (u < |w.users| && name in w.users[u].roles) || GrantedBy(w, e, u, name))
    && (forall i | 0 <= i < |v.published| ::
          (i < |w.published| && v.published[i] == w.published[i]) || AnnouncedBy(w, e, v.published[i]))
  }

  lemma HiredIsAuthorized(w: World, e: Event, v: World, n: nat)
    requires e.Hire? && MayHire(w, e.dto, e.actor) && Hired(w, v, e.dto, e.actor, n)
    ensures Authorized(w, e, v)
  {
    assert GivesRole(w, e, |w.employees|, e.dto.roleId);
    if n >= 4 {
      assert v.assignments[|w.assignments|] == Assignment(|w.employees|, e.dto.roleId, e.actor.sub);
    }
    if n >= 5 {
      assert AnnouncedBy(w, e, v.published[|w.published|]);
    }
  }

  lemma HireIsAuthorized(w: World, e: Event)
    requires e.Hire?
    ensures Authorized(w, e, Next(w, e))
  {
    if MayHire(w, e.dto, e.actor) {
      HireWritesInOrder(w, e.dto, e.actor, e.plan);
      HiredIsAuthorized(w, e, Next(w, e), if UsernameInRealm(w, e.dto.username) then 0 else HireReach(e.plan));
    } else {
      HireIsPermitted(w, e.dto, e.actor, e.plan);
    }
  }

  lemma SavedIsGiven(a: seq<Assignment>, b: seq<Assignment>, given: Assignment)
    requires AssignmentSaved(a, b, given)
    ensures |a| <= |b| && forall i | 0 <= i < |b| :: (i < |a| && b[i] == a[i]) || b[i] == given
  {
  }

  lemma ChangedUsersAreGranted(w: World, e: Event, v: World, n: nat, user: nat, name: string)
    requires e.Reassign? && MayChange(w, e.employeeId, e.roleId, e.actor)
    requires Changed(w, v, e.employeeId, e.roleId, e.actor, n)
    requires user < |v.users| && name in v.users[user].roles
    ensures (user < |w.users| && name in w.users[user].roles) || GrantedBy(w, e, user, name)
  {
    assert GivesRole(w, e, e.employeeId, e.roleId);
  }

  lemma ChangedIsAuthorized(w: World, e: Event, v: World, n: nat)
    requires e.Reassign? && MayChange(w, e.employeeId, e.roleId, e.actor)
    requires Changed(w, v, e.employeeId, e.roleId, e.actor, n)
    ensures Authorized(w, e, v)
  {
    var given := Assignment(e.employeeId, e.roleId, e.actor.sub);
    if n >= 3 {
      SavedIsGiven(w.assignments, v.assignments, given);
    }
    forall user: nat, name | user < |v.users| && name in v.users[user].roles
      ensures (user < |w.users| && name in w.users[user].roles) || GrantedBy(w, e, user, name)
    {
      ChangedUsersAreGranted(w, e, v, n, user, name);
    }
  }

  lemma ReassignIsAuthorized(w: World, e: Event)
    requires e.Reassign?
    ensures Authorized(w, e, Next(w, e))
  {
    var v := Next(w, e);
    if MayChange(w, e.employeeId, e.roleId, e.actor) {
      ChangeWritesInOrder(w, e.employeeId, e.roleId, e.actor, e.plan);
      ChangedIsAuthorized(w, e, v, ChangeReach(w, e.employeeId, e.plan));
    } else {
      ChangeIsPermitted(w, e.employeeId, e.roleId, e.actor, e.plan);
    }
  }

  lemma EveryStepIsAuthorized(w: World, e: Event)
    ensures Authorized(w, e, Next(w, e))
  {
    match e
    case Hire(_, _, _) => HireIsAuthorized(w, e);
    case Reassign(_, _, _, _) => ReassignIsAuthorized(w, e);
    case _ => RoleEventEffect(w, e);
  }

  /** After any run, with any failures, each assignment is one from before the run or was given by an actor
      who, at that moment, managed employees, was above the role, and had an active role delegated or was a
      superadmin in realm_access. */
  lemma {:induction false} EveryAssignmentWasPermitted(w: World, events: seq<Event>, i: nat)
    requires i < |Run(w, events).assignments|
    ensures var given := Run(w, events).assignments[i];
      || (i < |w.assignments| && given == w.assignments[i])
      || exists k: nat | k < |events| :: GivenBy(Run(w, events[..k]), events[k], given)
  {
    if events != [] {
      var last := |events| - 1;
      var front := events[..last];
      var before, given := Run(w, front), Run(w, events).assignments[i];
      EveryStepIsAuthorized(before, events[last]);
      if i < |before.assignments| && given == before.assignments[i] {
        EveryAssignmentWasPermitted(w, front, i);
        if k: nat :| k < |front| && GivenBy(Run(w, front[..k]), front[k], given) {
          assert front[..k] == events[..k];
        }
      } else {
        assert GivenBy(Run(w, events[..last]), events[last], given);
      }
    }
  }

  /** The same of the roles that users hold in the realm. */
  lemma {:induction false} EveryGrantWasPermitted(w: World, events: seq<Event>, user: nat, name: string)
    requires user < |Run(w, events).users| && name in Run(w, events).users[user].roles
    ensures || (user < |w.users| && name in w.users[user].roles)
            || exists k: nat | k < |events| :: GrantedBy(Run(w, events[..k]), events[k], user, name)
  {
    if events != [] {
      var last := |events| - 1;
      var front := events[..last];
      var before := Run(w, front);
      EveryStepIsAuthorized(before, events[last]);
      if user < |before.users| && name in before.users[user].roles {
        EveryGrantWasPermitted(w, front, user, name);
        if k: nat :| k < |front| && GrantedBy(Run(w, front[..k]), front[k], user, name) {
          assert front[..k] == events[..k];
        }
      } else {
        assert GrantedBy(Run(w, events[..last]), events[last], user, name);
      }
    }
  }

  /** The same of the account events that are published. */
  lemma {:induction false} EveryAnnouncementWasPermitted(w: World, events: seq<Event>, i: nat)
    requires i < |Run(w, events).published|
    ensures var account := Run(w, events).published[i];
      || (i < |w.published| && account == w.published[i])
      || exists k: nat | k < |events| :: AnnouncedBy(Run(w, events[..k]), events[k], account)
  {
    if events != [] {
      var last := |events| - 1;
      var front := events[..last];
      var before, account := Run(w, front), Run(w, events).published[i];
      EveryStepIsAuthorized(before, events[last]);
      if i < |before.published| && account == before.published[i] {
        EveryAnnouncementWasPermitted(w, front, i);
        if k: nat :| k < |front| && AnnouncedBy(Run(w, front[..k]), front[k], account) {
          assert front[..k] == events[..k];
        }
      } else {
        assert AnnouncedBy(Run(w, events[..last]), events[last], account);
      }
    }
  }

  /** In particular an actor who is no superadmin in realm_access and to whom no role is ever delegated in a
      run gives no role in it. */
  lemma UndelegatedGivesNothing(w: World, events: seq<Event>, actor: Actor, i: nat)
    requires !RealmSuper(actor) && i < |Run(w, events).assignments|
    requires forall e | e in events :: (e.Hire? || e.Reassign?) && e.actor.sub == actor.sub ==> e.actor == actor
    requires forall k: nat, roleId: nat | k <= |events| ::
      Delegation(roleId, actor.sub) !in Run(w, events[..k]).delegations
    ensures var given := Run(w, events).assignments[i];
      given.assignedBy == actor.sub ==> i < |w.assignments| && given == w.assignments[i]
  {
    EveryAssignmentWasPermitted(w, events, i);
    var given := Run(w, events).assignments[i];
    forall k: nat | k < |events|
      ensures given.assignedBy == actor.sub ==> !GivenBy(Run(w, events[..k]), events[k], given)
    {
      assert events[k] in events;
      assert Delegation(given.roleId, actor.sub) !in Run(w, events[..k]).delegations;
    }
  }
}
