/** Serial runs of role and employee administration, and the part of the hierarchy that actors of a given
    level cannot reach. */
module EmployeeRuns {
  import opened Outcomes
  import opened Faults
  import opened RbacConstants
  import opened RbacTables
  import opened RolesService
  import opened EmployeesService

  datatype Event =
    | Hire(dto: CreateEmployee, actor: Actor, plan: Plan<Await>)
    | Reassign(employeeId: nat, roleId: nat, actor: Actor, plan: Plan<Await>)
    | DefineRole(name: string, delegates: seq<string>, rolePlan: Plan<Point>)
    | RedefineRole(change: UpdateRole, rolePlan: Plan<Point>)

  function Next(w: World, e: Event): World {
    match e
    case Hire(dto, actor, plan) => Created(w, dto, actor, plan).w
    case Reassign(employeeId, roleId, actor, plan) => Updated(w, employeeId, roleId, actor, plan).w
    case DefineRole(name, delegates, plan) => CreateRole(w, name, delegates, plan).w
    case RedefineRole(change, plan) => ChangeRole(w, change, plan).w
  }

  function Run(w: World, events: seq<Event>): World {
    if events == [] then w else Next(Run(w, events[..|events| - 1]), events[|events| - 1])
  }

  // ---- the effect of each operation on the tables

  ghost predicate RolesKept(a: seq<Role>, b: seq<Role>) {
    && |a| <= |b|
    && forall i | 0 <= i < |a| ::
         b[i].name == a[i].name && b[i].keycloakRoleName == a[i].keycloakRoleName && b[i].dutyType == a[i].dutyType
  }

  lemma CreateRoleEffect(w: World, name: string, delegates: seq<string>, plan: Plan<Point>)
    ensures var v := CreateRole(w, name, delegates, plan).w;
      && v == w.(roles := v.roles, delegations := v.delegations, realmRoles := v.realmRoles)
      && w.realmRoles <= v.realmRoles
      && (v.roles == w.roles
          || (&& name !in w.realmRoles && name in v.realmRoles && RoleByName(w.roles, name).None?
              && v.roles == w.roles + [Role(name, name, ResolveRoleDutyType(name), true)]))
  {
  }

  lemma ChangeRoleEffect(w: World, dto: UpdateRole, plan: Plan<Point>)
    ensures var v := ChangeRole(w, dto, plan).w;
      && v == w.(roles := v.roles, delegations := v.delegations)
      && |v.roles| == |w.roles| && RolesKept(w.roles, v.roles)
  {
  }

  lemma RoleEventEffect(w: World, e: Event)
    requires e.DefineRole? || e.RedefineRole?
    ensures var v := Next(w, e);
      && v == w.(roles := v.roles, delegations := v.delegations, realmRoles := v.realmRoles)
      && RolesKept(w.roles, v.roles) && w.realmRoles <= v.realmRoles
      && (|v.roles| > |w.roles| ==>
            && e.DefineRole? && e.name !in w.realmRoles && e.name in v.realmRoles
            && RoleByName(w.roles, e.name).None?
            && v.roles == w.roles + [Role(e.name, e.name, ResolveRoleDutyType(e.name), true)])
  {
    if e.DefineRole? {
      CreateRoleEffect(w, e.name, e.delegates, e.rolePlan);
    } else {
      ChangeRoleEffect(w, e.change, e.rolePlan);
    }
  }

  lemma CreateGrantedEffect(w: World, username: string, roleId: nat, plan: Plan<Await>)
    requires roleId < |w.roles|
    ensures var v := CreateGranted(w, username, roleId, plan).w;
      && v == w.(users := v.users)
      && (v.users == w.users
          || v.users == w.users + [RealmUser(username, {})]
          || v.users == w.users + [RealmUser(username, {w.roles[roleId].keycloakRoleName})])
  {
    var created, role := CreateRealmUser(w, username, plan), w.roles[roleId].keycloakRoleName;
    if created.exit.Go? {
      assert {} + {role} == {role};
      assert Grant(created.w, |w.users|, role).users == w.users + [RealmUser(username, {role})];
    }
  }

  lemma SaveNewEffect(w: World, dto: CreateEmployee, user: nat, actor: Actor, plan: Plan<Await>)
    requires dto.roleId < |w.roles|
    ensures var v := SaveNewEmployee(w, dto, user, actor, plan).w;
      && v.roles == w.roles && v.delegations == w.delegations && v.realmRoles == w.realmRoles && v.users == w.users
      && (v.employees == w.employees || v.employees == w.employees + [NewEmployee(dto, user)])
      && (v.assignments == w.assignments
          || v.assignments == w.assignments + [Assignment(|w.employees|, dto.roleId, actor.sub)])
  {
  }

  /** What a hire leaves behind, by how far it got. */
  lemma HireEffect(w: World, dto: CreateEmployee, actor: Actor, plan: Plan<Await>)
    ensures var v := Created(w, dto, actor, plan).w;
      && v.roles == w.roles && v.delegations == w.delegations && v.realmRoles == w.realmRoles
      && (CreateRefusal(w, dto, actor).Some? ==> v == w)
      && (CreateRefusal(w, dto, actor).None? ==>
            var user := |w.users|;
            && dto.roleId < |w.roles|
            && (v.users == w.users
                || v.users == w.users + [RealmUser(dto.username, {})]
                || v.users == w.users + [RealmUser(dto.username, {w.roles[dto.roleId].keycloakRoleName})])
            && (v.employees == w.employees || v.employees == w.employees + [NewEmployee(dto, user)])
            && (v.assignments == w.assignments
                || v.assignments == w.assignments + [Assignment(|w.employees|, dto.roleId, actor.sub)]))
  {
    if CreateRefusal(w, dto, actor).None? {
      var granted := CreateGranted(w, dto.username, dto.roleId, plan);
      CreateGrantedEffect(w, dto.username, dto.roleId, plan);
      if granted.exit.Go? {
        SaveNewEffect(granted.w, dto, |w.users|, actor, plan);
      }
    }
  }

  lemma SwapEffect(w: World, user: nat, current: Option<nat>, roleId: nat, plan: Plan<Await>)
    requires roleId < |w.roles| && (current.Some? ==> current.value < |w.roles|)
    ensures var v := SwapGrants(w, user, current, roleId, plan).w;
      var revoked := if current.Some? then Revoke(w, user, w.roles[current.value].keycloakRoleName) else w;
      && v == w.(users := v.users)
      && (v.users == w.users || v.users == revoked.users
          || v.users == Grant(revoked, user, w.roles[roleId].keycloakRoleName).users)
  {
  }

  lemma SaveReassignedEffect(w: World, employeeId: nat, roleId: nat, actor: Actor, plan: Plan<Await>)
    requires employeeId < |w.employees| && roleId < |w.roles|
    ensures var v := SaveReassigned(w, employeeId, roleId, actor, plan).w;
      && v == w.(assignments := v.assignments, published := v.published, adminUsers := v.adminUsers)
      && (v.assignments == w.assignments
          || v.assignments == Reassigned(w, employeeId, roleId, actor).assignments)
  {
  }

  /** What a role change leaves behind, by how far it got. */
  lemma ReassignEffect(w: World, employeeId: nat, roleId: nat, actor: Actor, plan: Plan<Await>)
    ensures var v := Updated(w, employeeId, roleId, actor, plan).w;
      && v.roles == w.roles && v.delegations == w.delegations && v.realmRoles == w.realmRoles
      && v.employees == w.employees
      && (UpdateRefusal(w, employeeId, roleId, actor).Some? ==> v == w)
      && (UpdateRefusal(w, employeeId, roleId, actor).None? ==>
            && employeeId < |w.employees| && roleId < |w.roles|
            && (v.assignments == w.assignments
                || v.assignments == Reassigned(w, employeeId, roleId, actor).assignments)
            && var user := w.employees[employeeId].keycloakUserId;
               var current := CurrentRole(w, employeeId);
               var revoked := if current.Some? then Revoke(w, user, w.roles[current.value].keycloakRoleName) else w;
               || v.users == w.users
               || v.users == revoked.users
               || v.users == Grant(revoked, user, w.roles[roleId].keycloakRoleName).users)
  {
    if UpdateRefusal(w, employeeId, roleId, actor).None? {
      var user, current := w.employees[employeeId].keycloakUserId, CurrentRole(w, employeeId);
      var swapped := SwapGrants(w, user, current, roleId, plan);
      SwapEffect(w, user, current, roleId, plan);
      if swapped.exit.Go? {
        SaveReassignedEffect(swapped.w, employeeId, roleId, actor, plan);
      }
    }
  }

  // ---- the hierarchy

  ghost predicate AssignmentsNameRoles(w: World) {
    forall i | 0 <= i < |w.assignments| :: w.assignments[i].roleId < |w.roles|
  }

  /** The assignment row is of a role at or above the level. */
  ghost predicate High(w: World, i: nat, level: nat) {
    && i < |w.assignments| && w.assignments[i].roleId < |w.roles|
    && ResolveRoleHierarchyLevel(w.roles[w.assignments[i].roleId].name) >= level
  }

  /** Employee operations by actors who are no superadmin and at most at the level; role operations by
      anyone, so whatever the delegations. */
  ghost predicate ActorAtMost(e: Event, level: nat) {
    match e
    case Hire(_, actor, _) => !IsSuperadmin(actor) && ResolveActorHierarchyLevel(actor) <= level
    case Reassign(_, _, actor, _) => !IsSuperadmin(actor) && ResolveActorHierarchyLevel(actor) <= level
    case _ => true
  }

  /** The rows at or above the level are the same rows, unchanged. */
  ghost predicate SameHigh(w: World, v: World, level: nat) {
    forall i: nat {:trigger High(v, i, level)} {:trigger High(w, i, level)} ::
      (High(w, i, level) <==> High(v, i, level)) && (High(w, i, level) ==> v.assignments[i] == w.assignments[i])
  }

  /** A role change that is not refused is between two roles below the actor's level. */
  lemma ReassignsBelowActor(w: World, employeeId: nat, roleId: nat, actor: Actor)
    requires !IsSuperadmin(actor) && UpdateRefusal(w, employeeId, roleId, actor).None?
    ensures roleId < |w.roles| && ResolveRoleHierarchyLevel(w.roles[roleId].name) < ResolveActorHierarchyLevel(actor)
    ensures var current := CurrentRole(w, employeeId);
      current.Some? ==> ResolveRoleHierarchyLevel(w.roles[current.value].name) < ResolveActorHierarchyLevel(actor)
  {
  }

  lemma RewriteKeepsHigh(w: World, v: World, employeeId: nat, roleId: nat, actor: Actor, level: nat)
    requires AssignmentsNameRoles(w) && v.roles == w.roles && roleId < |w.roles|
    requires v.assignments == Reassigned(w, employeeId, roleId, actor).assignments
    requires ResolveRoleHierarchyLevel(w.roles[roleId].name) < level
    requires var current := CurrentRole(w, employeeId);
      current.Some? ==> ResolveRoleHierarchyLevel(w.roles[current.value].name) < level
    ensures AssignmentsNameRoles(v) && SameHigh(w, v, level)
  {
  }

  lemma ReassignKeepsHigh(w: World, employeeId: nat, roleId: nat, actor: Actor, plan: Plan<Await>, level: nat)
    requires AssignmentsNameRoles(w) && !IsSuperadmin(actor) && ResolveActorHierarchyLevel(actor) <= level
    ensures var v := Updated(w, employeeId, roleId, actor, plan).w; AssignmentsNameRoles(v) && SameHigh(w, v, level)
  {
    var v := Updated(w, employeeId, roleId, actor, plan).w;
    ReassignEffect(w, employeeId, roleId, actor, plan);
    if v.assignments != w.assignments {
      ReassignsBelowActor(w, employeeId, roleId, actor);
      RewriteKeepsHigh(w, v, employeeId, roleId, actor, level);
    }
  }

  lemma HireKeepsHigh(w: World, dto: CreateEmployee, actor: Actor, plan: Plan<Await>, level: nat)
    requires AssignmentsNameRoles(w) && !IsSuperadmin(actor) && ResolveActorHierarchyLevel(actor) <= level
    ensures var v := Created(w, dto, actor, plan).w; AssignmentsNameRoles(v) && SameHigh(w, v, level)
  {
    HireEffect(w, dto, actor, plan);
  }

  lemma StepKeepsHigh(w: World, e: Event, level: nat)
    requires AssignmentsNameRoles(w) && ActorAtMost(e, level)
    ensures AssignmentsNameRoles(Next(w, e)) && SameHigh(w, Next(w, e), level)
  {
    match e
    case Hire(dto, actor, plan) => HireKeepsHigh(w, dto, actor, plan, level);
    case Reassign(employeeId, roleId, actor, plan) => ReassignKeepsHigh(w, employeeId, roleId, actor, plan, level);
    case _ => RoleEventEffect(w, e);
  }

  /** Over any run, with any failures and any delegations, by actors who are no superadmin and at most at
      a level: nobody is given a role at or above that level, and no assignment of such a role changes. */
  lemma {:induction false} HierarchyIsOutOfReach(w: World, events: seq<Event>, level: nat)
    requires AssignmentsNameRoles(w)
    requires forall i | 0 <= i < |events| :: ActorAtMost(events[i], level)
    ensures AssignmentsNameRoles(Run(w, events)) && SameHigh(w, Run(w, events), level)
  {
    if events != [] {
      var front := events[..|events| - 1];
      assert forall i | 0 <= i < |front| :: front[i] == events[i];
      HierarchyIsOutOfReach(w, front, level);
      StepKeepsHigh(Run(w, front), events[|events| - 1], level);
      SameHighTransitive(w, Run(w, front), Run(w, events), level);
    }
  }

  lemma SameHighTransitive(u: World, v: World, w: World, level: nat)
    requires SameHigh(u, v, level) && SameHigh(v, w, level)
    ensures SameHigh(u, w, level)
  {
    forall i: nat
      ensures (High(u, i, level) <==> High(w, i, level)) && (High(u, i, level) ==> w.assignments[i] == u.assignments[i])
    {
      assert High(u, i, level) <==> High(v, i, level);
      assert High(v, i, level) <==> High(w, i, level);
    }
  }
}
