/** Agreement of the local tables with the Keycloak realm over serial runs, and the segregation of maker
    and checker that rests on it. */
module EmployeeAgreement {
  import opened Outcomes
  import opened Faults
  import opened RbacConstants
  import opened RbacTables
  import opened RolesService
  import opened EmployeesService
  import opened EmployeeRuns

  ghost predicate Manages(w: World, name: string) {
    exists i | 0 <= i < |w.roles| :: w.roles[i].keycloakRoleName == name
  }

  ghost predicate HoldsManaged(w: World, user: nat, name: string) {
    user < |w.users| && name in w.users[user].roles && Manages(w, name)
  }

  /** Role names are unique, mirrored one to one in the realm, and users hold realm roles only. */
  ghost predicate RolesMirrored(w: World) {
    && (forall i | 0 <= i < |w.roles| ::
          w.roles[i].keycloakRoleName == w.roles[i].name && w.roles[i].name in w.realmRoles)
    && (forall i, j | 0 <= i < j < |w.roles| :: w.roles[i].name != w.roles[j].name)
    && (forall u | 0 <= u < |w.users| :: w.users[u].roles <= w.realmRoles)
  }

  /** No Keycloak user holds two managed roles. */
  ghost predicate AtMostOneRole(w: World) {
    forall user: nat, a, b | HoldsManaged(w, user, a) && HoldsManaged(w, user, b) :: a == b
  }

  /** Employees and assignments correspond one to one, and employees to users of their own. */
  ghost predicate OneAssignmentEach(w: World) {
    && AssignmentsNameRoles(w)
    && (forall e: nat | e < |w.employees| :: AssignmentOf(w.assignments, e).Some? && w.employees[e].isActive)
    && (forall i | 0 <= i < |w.assignments| :: w.assignments[i].employeeId < |w.employees|)
    && (forall i, j | 0 <= i < j < |w.assignments| :: w.assignments[i].employeeId != w.assignments[j].employeeId)
    && (forall e | 0 <= e < |w.employees| :: w.employees[e].keycloakUserId < |w.users|)
    && (forall e, f | 0 <= e < f < |w.employees| :: w.employees[e].keycloakUserId != w.employees[f].keycloakUserId)
  }

  /** Keycloak grants the employee's user exactly the managed role of the local assignment. */
  ghost predicate GrantMatches(w: World, e: nat)
    requires e < |w.employees|
  {
    && CurrentRole(w, e).Some?
    && forall name :: HoldsManaged(w, w.employees[e].keycloakUserId, name) <==>
         name == w.roles[CurrentRole(w, e).value].keycloakRoleName
  }

  ghost predicate Agreed(w: World) {
    && RolesMirrored(w) && AtMostOneRole(w) && OneAssignmentEach(w)
    && forall e: nat | e < |w.employees| :: GrantMatches(w, e)
  }

  ghost predicate Smooth(e: Event) {
    match e
    case Hire(_, _, plan) => plan == map[]
    case Reassign(_, _, _, plan) => plan == map[]
    case DefineRole(_, _, plan) => plan == map[]
    case RedefineRole(_, plan) => plan == map[]
  }

  lemma RoleEventKeepsHeld(w: World, e: Event)
    requires RolesMirrored(w) && (e.DefineRole? || e.RedefineRole?)
    ensures RolesMirrored(Next(w, e))
    ensures forall user: nat, name :: HoldsManaged(Next(w, e), user, name) <==> HoldsManaged(w, user, name)
  {
    var v := Next(w, e);
    RoleEventEffect(w, e);
    forall user: nat, name
      ensures HoldsManaged(v, user, name) <==> HoldsManaged(w, user, name)
    {
      if HoldsManaged(w, user, name) {
        var i :| 0 <= i < |w.roles| && w.roles[i].keycloakRoleName == name;
        assert v.roles[i].keycloakRoleName == name;
      }
      if HoldsManaged(v, user, name) {
        var i :| 0 <= i < |v.roles| && v.roles[i].keycloakRoleName == name;
        if i < |w.roles| {
          assert w.roles[i].keycloakRoleName == name;
        } else {
          assert false;
        }
      }
    }
  }

  lemma RoleEventAgrees(w: World, e: Event)
    requires Agreed(w) && (e.DefineRole? || e.RedefineRole?)
    ensures Agreed(Next(w, e))
  {
    var v := Next(w, e);
    RoleEventEffect(w, e);
    RoleEventKeepsHeld(w, e);
    forall u: nat | u < |v.employees| ensures GrantMatches(v, u) {
      assert GrantMatches(w, u);
    }
  }

  /** In every state between two awaits of one operation, started in agreement, no user holds two managed
      roles: all plans end in all such states. */
  lemma OneRoleAtEveryAwait(w: World, e: Event)
    requires Agreed(w)
    ensures RolesMirrored(Next(w, e)) && AtMostOneRole(Next(w, e))
  {
    match e
    case Hire(dto, actor, plan) => HireKeepsOneRole(w, dto, actor, plan);
    case Reassign(employeeId, roleId, actor, plan) => ReassignKeepsOneRole(w, employeeId, roleId, actor, plan);
    case _ => RoleEventAgrees(w, e);
  }

  lemma HireKeepsOneRole(w: World, dto: CreateEmployee, actor: Actor, plan: Plan<Await>)
    requires Agreed(w)
    ensures var v := Created(w, dto, actor, plan).w; RolesMirrored(v) && AtMostOneRole(v)
  {
    var v := Created(w, dto, actor, plan).w;
    HireEffect(w, dto, actor, plan);
    forall user: nat, a, b | HoldsManaged(v, user, a) && HoldsManaged(v, user, b)
      ensures a == b
    {
      if user < |w.users| {
        assert HoldsManaged(w, user, a) && HoldsManaged(w, user, b);
      }
    }
  }

  /** A user whose only managed role is `current`, and any subset of {current, next} it may hold afterwards
      with not both in it. */
  lemma SwapKeepsOneRole(w: World, v: World, user: nat, current: string, next: string)
    requires AtMostOneRole(w) && v.roles == w.roles && user < |w.users| && |v.users| == |w.users|
    requires forall name | HoldsManaged(w, user, name) :: name == current
    requires forall u | 0 <= u < |w.users| && u != user :: v.users[u] == w.users[u]
    requires v.users[user].roles in [w.users[user].roles, w.users[user].roles - {current},
                                     w.users[user].roles - {current} + {next}]
    ensures AtMostOneRole(v)
  {
    forall u: nat, a, b | HoldsManaged(v, u, a) && HoldsManaged(v, u, b)
      ensures a == b
    {
      assert Manages(w, a) && Manages(w, b);
      if u != user {
        assert HoldsManaged(w, u, a) && HoldsManaged(w, u, b);
      } else {
        assert a in w.users[user].roles ==> HoldsManaged(w, user, a);
        assert b in w.users[user].roles ==> HoldsManaged(w, user, b);
      }
    }
  }

  lemma ReassignKeepsOneRole(w: World, employeeId: nat, roleId: nat, actor: Actor, plan: Plan<Await>)
    requires Agreed(w)
    ensures var v := Updated(w, employeeId, roleId, actor, plan).w; RolesMirrored(v) && AtMostOneRole(v)
  {
    var v := Updated(w, employeeId, roleId, actor, plan).w;
    ReassignEffect(w, employeeId, roleId, actor, plan);
    if UpdateRefusal(w, employeeId, roleId, actor).None? {
      assert GrantMatches(w, employeeId);
      SwapKeepsOneRole(w, v, w.employees[employeeId].keycloakUserId,
                       w.roles[CurrentRole(w, employeeId).value].keycloakRoleName, w.roles[roleId].keycloakRoleName);
    }
  }

  /** Two roles held by one user are one role, so nobody holds a MAKER and a CHECKER role. */
  lemma NoMakerIsChecker(w: World, user: nat, i: nat, j: nat)
    requires RolesMirrored(w) && AtMostOneRole(w) && user < |w.users| && i < |w.roles| && j < |w.roles|
    requires w.roles[i].keycloakRoleName in w.users[user].roles && w.roles[j].keycloakRoleName in w.users[user].roles
    ensures i == j && !(w.roles[i].dutyType == MAKER && w.roles[j].dutyType == CHECKER)
  {
    assert HoldsManaged(w, user, w.roles[i].keycloakRoleName);
    assert HoldsManaged(w, user, w.roles[j].keycloakRoleName);
  }

  // ---- failure-free runs

  lemma SmoothHire(w: World, dto: CreateEmployee, actor: Actor)
    ensures var v := Created(w, dto, actor, map[]).w;
      || v == w
      || (&& CreateRefusal(w, dto, actor).None? && dto.roleId < |w.roles|
          && v.users == w.users + [RealmUser(dto.username, {w.roles[dto.roleId].keycloakRoleName})]
          && v.employees == w.employees + [NewEmployee(dto, |w.users|)]
          && v.assignments == w.assignments + [Assignment(|w.employees|, dto.roleId, actor.sub)]
          && v.roles == w.roles && v.realmRoles == w.realmRoles
          && v.published == w.published + [AccountOf(v, |w.employees|, dto.roleId)])
  {
    if CreateRefusal(w, dto, actor).None? && !RealmHasUsername(w, dto.username) {
      var created, role := CreateRealmUser(w, dto.username, map[]), w.roles[dto.roleId].keycloakRoleName;
      assert {} + {role} == {role};
      assert Grant(created.w, |w.users|, role).users == w.users + [RealmUser(dto.username, {role})];
    }
  }

  lemma HireAgrees(w: World, dto: CreateEmployee, actor: Actor)
    requires Agreed(w)
    ensures Agreed(Created(w, dto, actor, map[]).w)
  {
    var v := Created(w, dto, actor, map[]).w;
    SmoothHire(w, dto, actor);
    HireKeepsOneRole(w, dto, actor, map[]);
    if v != w {
      HireKeepsAssignments(w, v, dto, actor);
      forall e: nat | e < |v.employees| ensures GrantMatches(v, e) {
        if e < |w.employees| {
          OthersStillMatch(w, v, e);
        } else {
          assert v.roles[dto.roleId].keycloakRoleName == w.roles[dto.roleId].keycloakRoleName;
        }
      }
    }
  }

  lemma HireKeepsAssignments(w: World, v: World, dto: CreateEmployee, actor: Actor)
    requires OneAssignmentEach(w) && dto.roleId < |w.roles| && v.roles == w.roles
    requires |v.users| == |w.users| + 1
    requires v.employees == w.employees + [NewEmployee(dto, |w.users|)]
    requires v.assignments == w.assignments + [Assignment(|w.employees|, dto.roleId, actor.sub)]
    ensures OneAssignmentEach(v) && CurrentRole(v, |w.employees|) == Some(dto.roleId)
    ensures forall e: nat | e < |w.employees| :: CurrentRole(v, e) == CurrentRole(w, e)
  {
    assert v.assignments[|w.assignments|].employeeId == |w.employees|;
    forall e: nat | e < |w.employees|
      ensures AssignmentOf(v.assignments, e) == AssignmentOf(w.assignments, e)
    {
      assert v.assignments[AssignmentOf(w.assignments, e).value].employeeId == e;
    }
  }

  /** An employee whose role and whose user an operation did not touch. */
  lemma OthersStillMatch(w: World, v: World, e: nat)
    requires e < |w.employees| <= |v.employees| && v.employees[e] == w.employees[e] && GrantMatches(w, e)
    requires v.roles == w.roles && CurrentRole(v, e) == CurrentRole(w, e)
    requires var user := w.employees[e].keycloakUserId;
      user < |w.users| && user < |v.users| && v.users[user] == w.users[user]
    ensures GrantMatches(v, e)
  {
    var user := w.employees[e].keycloakUserId;
    forall name ensures HoldsManaged(v, user, name) <==> HoldsManaged(w, user, name) {
    }
  }

  lemma SmoothReassign(w: World, employeeId: nat, roleId: nat, actor: Actor)
    requires UpdateRefusal(w, employeeId, roleId, actor).None?
    requires w.employees[employeeId].keycloakUserId < |w.users|
    ensures var v := Updated(w, employeeId, roleId, actor, map[]).w;
      var user, current := w.employees[employeeId].keycloakUserId, CurrentRole(w, employeeId);
      && roleId < |w.roles|
      && |v.users| == |w.users|
      && (forall u | 0 <= u < |w.users| && u != user :: v.users[u] == w.users[u])
      && v.users[user].roles
         == w.users[user].roles - (if current.Some? then {w.roles[current.value].keycloakRoleName} else {})
            + {w.roles[roleId].keycloakRoleName}
      && v.roles == w.roles && v.realmRoles == w.realmRoles && v.employees == w.employees
      && v.assignments == Reassigned(w, employeeId, roleId, actor).assignments
      && v.published == w.published + [AccountOf(w, employeeId, roleId)]
  {
  }

  lemma RewrittenRow(assignments: seq<Assignment>, row: nat, changed: Assignment, e: nat)
    requires row < |assignments| && changed.employeeId == assignments[row].employeeId
    ensures AssignmentOf(assignments[row := changed], e) == AssignmentOf(assignments, e)
  {
    var after := assignments[row := changed];
    assert forall i | 0 <= i < |assignments| :: after[i].employeeId == assignments[i].employeeId;
    var was, now := AssignmentOf(assignments, e), AssignmentOf(after, e);
    if was.Some? {
      assert after[was.value].employeeId == e;
    }
    if now.Some? {
      assert assignments[now.value].employeeId == e;
    }
  }

  lemma ReassignKeepsAssignments(w: World, v: World, employeeId: nat, roleId: nat, actor: Actor)
    requires OneAssignmentEach(w) && employeeId < |w.employees| && roleId < |w.roles|
    requires v.roles == w.roles && v.employees == w.employees && |v.users| == |w.users|
    requires v.assignments == Reassigned(w, employeeId, roleId, actor).assignments
    ensures OneAssignmentEach(v) && CurrentRole(v, employeeId) == Some(roleId)
    ensures forall e: nat | e < |w.employees| && e != employeeId :: CurrentRole(v, e) == CurrentRole(w, e)
  {
    var row := AssignmentOf(w.assignments, employeeId).value;
    var changed := w.assignments[row].(roleId := roleId, assignedBy := actor.sub);
    assert v.assignments == w.assignments[row := changed];
    forall e: nat
      ensures AssignmentOf(v.assignments, e) == AssignmentOf(w.assignments, e)
    {
      RewrittenRow(w.assignments, row, changed, e);
    }
    assert forall i | 0 <= i < |w.assignments| :: v.assignments[i].employeeId == w.assignments[i].employeeId;
  }

  lemma ReassignAgrees(w: World, employeeId: nat, roleId: nat, actor: Actor)
    requires Agreed(w)
    ensures Agreed(Updated(w, employeeId, roleId, actor, map[]).w)
  {
    var v := Updated(w, employeeId, roleId, actor, map[]).w;
    ReassignKeepsOneRole(w, employeeId, roleId, actor, map[]);
    if UpdateRefusal(w, employeeId, roleId, actor).None? {
      SmoothReassign(w, employeeId, roleId, actor);
      ReassignKeepsAssignments(w, v, employeeId, roleId, actor);
      forall e: nat | e < |v.employees| ensures GrantMatches(v, e) {
        assert GrantMatches(w, e);
        if e != employeeId {
          OthersStillMatch(w, v, e);
        } else {
          ReassignedMatches(w, v, employeeId, roleId);
        }
      }
    }
  }

  lemma ReassignedMatches(w: World, v: World, e: nat, roleId: nat)
    requires RolesMirrored(w) && e < |w.employees| && roleId < |w.roles| && GrantMatches(w, e)
    requires v.roles == w.roles && v.employees == w.employees && CurrentRole(v, e) == Some(roleId)
    requires var user := w.employees[e].keycloakUserId;
      && user < |w.users| && user < |v.users|
      && v.users[user].roles == w.users[user].roles - {w.roles[CurrentRole(w, e).value].keycloakRoleName}
                                + {w.roles[roleId].keycloakRoleName}
    ensures GrantMatches(v, e)
  {
    var user := w.employees[e].keycloakUserId;
    assert Manages(v, v.roles[roleId].keycloakRoleName);
    forall name ensures HoldsManaged(v, user, name) <==> name == v.roles[roleId].keycloakRoleName {
      if HoldsManaged(v, user, name) && name in w.users[user].roles {
        assert HoldsManaged(w, user, name);
      }
    }
  }

  /** After every failure-free serial run the two stores agree: each employee has exactly one assignment,
      and the realm grants the employee's user exactly that managed role. */
  lemma {:induction false} StoresAgree(w: World, events: seq<Event>)
    requires Agreed(w)
    requires forall i | 0 <= i < |events| :: Smooth(events[i])
    ensures Agreed(Run(w, events))
  {
    if events != [] {
      var front, last := events[..|events| - 1], events[|events| - 1];
      assert forall i | 0 <= i < |front| :: front[i] == events[i];
      StoresAgree(w, front);
      match last
      case Hire(dto, actor, _) => HireAgrees(Run(w, front), dto, actor);
      case Reassign(employeeId, roleId, actor, _) => ReassignAgrees(Run(w, front), employeeId, roleId, actor);
      case _ => RoleEventAgrees(Run(w, front), last);
    }
  }

  /** However the operation after a failure-free run is cut short, no user holds both a MAKER and a CHECKER
      role, although each call checks only the one role it hands out. */
  lemma NobodyIsMakerAndChecker(events: seq<Event>, next: Event, user: nat, i: nat, j: nat)
    requires forall k | 0 <= k < |events| :: Smooth(events[k])
    ensures var v := Next(Run(World([], {}, [], [], {}, [], [], []), events), next);
      user < |v.users| && i < |v.roles| && j < |v.roles|
      && v.roles[i].keycloakRoleName in v.users[user].roles && v.roles[j].keycloakRoleName in v.users[user].roles
      ==> !(v.roles[i].dutyType == MAKER && v.roles[j].dutyType == CHECKER)
  {
    var empty := World([], {}, [], [], {}, [], [], []);
    StoresAgree(empty, events);
    OneRoleAtEveryAwait(Run(empty, events), next);
    var v := Next(Run(empty, events), next);
    if user < |v.users| && i < |v.roles| && j < |v.roles|
       && v.roles[i].keycloakRoleName in v.users[user].roles && v.roles[j].keycloakRoleName in v.users[user].roles {
      NoMakerIsChecker(v, user, i, j);
    }
  }

  // ---- where agreement is lost

  /** A completed role change leaves its user with one managed role exactly when the user held, before, no
      managed role other than the assigned and the new one. */
  lemma ChangeRepairsIff(w: World, employeeId: nat, roleId: nat, actor: Actor)
    requires UpdateRefusal(w, employeeId, roleId, actor).None? && w.employees[employeeId].keycloakUserId < |w.users|
    ensures roleId < |w.roles|
    ensures var v := Updated(w, employeeId, roleId, actor, map[]).w;
      var user, current := w.employees[employeeId].keycloakUserId, CurrentRole(w, employeeId);
      (forall a, b | HoldsManaged(v, user, a) && HoldsManaged(v, user, b) :: a == b)
      <==>
      (forall name | HoldsManaged(w, user, name) ::
         || name == w.roles[roleId].keycloakRoleName
         || (current.Some? && name == w.roles[current.value].keycloakRoleName))
  {
    var v := Updated(w, employeeId, roleId, actor, map[]).w;
    var user, current := w.employees[employeeId].keycloakUserId, CurrentRole(w, employeeId);
    SmoothReassign(w, employeeId, roleId, actor);
    var target := w.roles[roleId].keycloakRoleName;
    assert Manages(v, target) && HoldsManaged(v, user, target);
    forall name
      ensures HoldsManaged(v, user, name) <==>
        || name == target
        || (HoldsManaged(w, user, name) && !(current.Some? && name == w.roles[current.value].keycloakRoleName))
    {
      assert Manages(v, name) <==> Manages(w, name);
    }
  }

  /** A role change cut off before its row is saved, then another one: the user ends with both new roles,
      whatever their duties. */
  lemma InterruptedChangeLeavesTwoRoles(w: World, e: nat, first: nat, second: nat, actor: Actor)
    requires Agreed(w) && e < |w.employees| && first < |w.roles| && second < |w.roles|
    requires first != second && CurrentRole(w, e) != Some(first) && CurrentRole(w, e) != Some(second)
    requires w.roles[first].isActive && w.roles[second].isActive && IsRealmSuperadmin(actor)
    ensures var v := Next(Next(w, Reassign(e, first, actor, map[SaveAssignment := Crashes])),
                          Reassign(e, second, actor, map[]));
            var user := w.employees[e].keycloakUserId;
      && user < |v.users| && {w.roles[first].keycloakRoleName, w.roles[second].keycloakRoleName} <= v.users[user].roles
      && w.roles[first].keycloakRoleName != w.roles[second].keycloakRoleName
      && CurrentRole(v, e) == Some(second)
  {
    CutChange(w, e, first, actor);
    ChangeLeavesStrays(Next(w, Reassign(e, first, actor, map[SaveAssignment := Crashes])), e, second, actor,
                       w.roles[first].keycloakRoleName);
    assert w.roles[first].keycloakRoleName != w.roles[second].keycloakRoleName;
  }

  /** A completed role change takes back only the role of the local assignment. */
  lemma ChangeLeavesStrays(w: World, e: nat, roleId: nat, actor: Actor, stray: string)
    requires OneAssignmentEach(w) && e < |w.employees| && roleId < |w.roles| && w.roles[roleId].isActive
    requires IsRealmSuperadmin(actor) && CurrentRole(w, e) != Some(roleId)
    requires stray in w.users[w.employees[e].keycloakUserId].roles
    requires CurrentRole(w, e).Some? ==> w.roles[CurrentRole(w, e).value].keycloakRoleName != stray
    ensures var v, user := Updated(w, e, roleId, actor, map[]).w, w.employees[e].keycloakUserId;
      && v.employees == w.employees && v.roles == w.roles && user < |v.users|
      && stray in v.users[user].roles && w.roles[roleId].keycloakRoleName in v.users[user].roles
      && CurrentRole(v, e) == Some(roleId)
  {
    SuperadminMay(w, e, roleId, actor);
    SmoothReassign(w, e, roleId, actor);
    ReassignKeepsAssignments(w, Updated(w, e, roleId, actor, map[]).w, e, roleId, actor);
  }

  lemma SuperadminMay(w: World, e: nat, roleId: nat, actor: Actor)
    requires e < |w.employees| && w.employees[e].isActive && roleId < |w.roles| && w.roles[roleId].isActive
    requires IsRealmSuperadmin(actor) && CurrentRole(w, e) != Some(roleId)
    ensures UpdateRefusal(w, e, roleId, actor).None?
  {
    assert IsSuperadmin(actor);
  }

  lemma CutChange(w: World, e: nat, roleId: nat, actor: Actor)
    requires Agreed(w) && e < |w.employees| && roleId < |w.roles| && w.roles[roleId].isActive
    requires IsRealmSuperadmin(actor) && CurrentRole(w, e) != Some(roleId)
    ensures var v := Updated(w, e, roleId, actor, map[SaveAssignment := Crashes]).w;
            var user := w.employees[e].keycloakUserId;
      && v == w.(users := v.users) && OneAssignmentEach(v) && user < |v.users|
      && w.roles[roleId].keycloakRoleName in v.users[user].roles
      && CurrentRole(v, e) == CurrentRole(w, e) && CurrentRole(w, e).Some?
      && w.roles[CurrentRole(w, e).value].keycloakRoleName != w.roles[roleId].keycloakRoleName
  {
    SuperadminMay(w, e, roleId, actor);
    assert GrantMatches(w, e);
  }
}
