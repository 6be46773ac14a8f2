/** What making and changing a role writes, and who may give the role afterwards
    (rbac/services/roles.service.ts), stated on the tables for every plan of failures. */
module RoleDelegations {
  import opened Faults
  import opened Sequences
  import opened RbacConstants
  import opened RbacTables
  import opened RolesService
  import opened EmployeeRuns
  import opened EmployeeAccess

  function Waited(plan: Plan<Point>, point: Point): Exit {
    Leaves(At(plan, point), Unavailable)
  }

  /** The delegations after an operation that, once it starts to, replaces those of the role: the old ones go
      when their removal takes effect, and the named ones come after it has gone through. */
  ghost predicate Redelegated(
      before: set<Delegation>, after: set<Delegation>, roleId: nat, delegates: seq<string>, starts: bool,
      plan: Plan<Point>)
  {
    forall d: Delegation :: d in after <==>
      if !starts || d.roleId != roleId then d in before
      else
        || (d in before && !TakesEffect(At(plan, DropDelegations)))
        || (&& At(plan, DropDelegations) == Works && Distinct(delegates) && TakesEffect(At(plan, SaveDelegations))
            && d.delegate in delegates)
  }

  ghost function RedelegationExit(delegates: seq<string>, plan: Plan<Point>): Exit {
    Then(Waited(plan, DropDelegations),
         if delegates == [] then Go
         else if !Distinct(delegates) then Threw(Unavailable)
         else Waited(plan, SaveDelegations))
  }

  lemma ReplacesDelegations(w: World, roleId: nat, delegates: seq<string>, plan: Plan<Point>)
    ensures var p := ReplaceDelegations(w, roleId, delegates, plan);
      && p.w == w.(delegations := p.w.delegations) && p.exit == RedelegationExit(delegates, plan)
      && Redelegated(w.delegations, p.w.delegations, roleId, delegates, true, plan)
  {
  }

  ghost predicate HasRoleNamed(w: World, name: string) {
    exists i | 0 <= i < |w.roles| :: w.roles[i].name == name
  }

  ghost predicate IsNewRole(role: Role, name: string) {
    && role.name == role.keycloakRoleName == name && role.isActive
    && (role.dutyType == MAKER <==> Mentions(name, "MAKER"))
    && (role.dutyType == CHECKER <==> Mentions(name, "CHECKER") && !Mentions(name, "MAKER"))
  }

  /** The realm is asked for the new role. */
  ghost predicate AsksRealm(w: World, name: string, plan: Plan<Point>) {
    At(plan, Checks) == Works && !HasRoleNamed(w, name)
  }

  /** The realm made the role. */
  ghost predicate RealmMade(w: World, name: string, plan: Plan<Point>) {
    AsksRealm(w, name, plan) && At(plan, CreateRealmRole) == Works && name !in w.realmRoles
  }

  /** A new role: first in the realm, then the active row, then its delegations; the first failure, an existing
      name, or a name the realm has, ends it. */
  lemma NewRoleIsWritten(w: World, name: string, delegates: seq<string>, plan: Plan<Point>)
    ensures var p := CreateRole(w, name, delegates, plan);
      && p.w == w.(roles := p.w.roles, delegations := p.w.delegations, realmRoles := p.w.realmRoles)
      && p.w.realmRoles == w.realmRoles
           + (if AsksRealm(w, name, plan) && TakesEffect(At(plan, CreateRealmRole)) then {name} else {})
      && (if RealmMade(w, name, plan) && TakesEffect(At(plan, SaveRole)) then
            exists role :: p.w.roles == w.roles + [role] && IsNewRole(role, name)
          else p.w.roles == w.roles)
      && Redelegated(w.delegations, p.w.delegations, |w.roles|, delegates,
                     RealmMade(w, name, plan) && At(plan, SaveRole) == Works && delegates != [], plan)
      && p.exit == Then(Waited(plan, Checks),
           if HasRoleNamed(w, name) then Threw(RoleExists)
           else if At(plan, CreateRealmRole) == Works && name in w.realmRoles then Threw(KeycloakRefused)
           else Then(Waited(plan, CreateRealmRole), Then(Waited(plan, SaveRole),
             Then(if delegates == [] then Go else RedelegationExit(delegates, plan), Waited(plan, ReadBack)))))
  {
    var p, role := CreateRole(w, name, delegates, plan), Role(name, name, ResolveRoleDutyType(name), true);
    assert IsNewRole(role, name);
    if RealmMade(w, name, plan) && At(plan, SaveRole) == Works && delegates != [] {
      var saved := w.(realmRoles := w.realmRoles + {name}, roles := w.roles + [role]);
      ReplacesDelegations(saved, |w.roles|, delegates, plan);
    }
  }

  /** The realm is not asked to describe the role, or does. */
  ghost predicate Described(dto: UpdateRole, plan: Plan<Point>) {
    dto.describes ==> At(plan, UpdateRealmRole) == Works
  }

  ghost predicate RoleSaved(w: World, dto: UpdateRole, plan: Plan<Point>) {
    && At(plan, Checks) == Works && dto.roleId < |w.roles| && Described(dto, plan)
    && TakesEffect(At(plan, SaveRole))
  }

  /** A role update: the realm first, then the row, of which only the activity changes, to the requested one,
      then the delegations if the request names any list. */
  lemma RoleUpdateIsWritten(w: World, dto: UpdateRole, plan: Plan<Point>)
    ensures var p := ChangeRole(w, dto, plan);
      && p.w == w.(roles := p.w.roles, delegations := p.w.delegations)
      && |p.w.roles| == |w.roles|
      && (forall i | 0 <= i < |w.roles| ::
            p.w.roles[i] == Role(w.roles[i].name, w.roles[i].keycloakRoleName, w.roles[i].dutyType,
              if i == dto.roleId && RoleSaved(w, dto, plan) && dto.isActive.Some? then dto.isActive.value
              else w.roles[i].isActive))
      && Redelegated(w.delegations, p.w.delegations, dto.roleId,
                     if dto.delegates.Some? then dto.delegates.value else [],
                     dto.delegates.Some? && RoleSaved(w, dto, plan) && At(plan, SaveRole) == Works, plan)
      && p.exit == Then(Waited(plan, Checks),
           if dto.roleId >= |w.roles| then Threw(RoleNotFound)
           else Then(if dto.describes then Waited(plan, UpdateRealmRole) else Go, Then(Waited(plan, SaveRole),
             Then(if dto.delegates.Some? then RedelegationExit(dto.delegates.value, plan) else Go,
                  Waited(plan, ReadBack)))))
  {
    if dto.delegates.Some? && RoleSaved(w, dto, plan) && At(plan, SaveRole) == Works {
      var role := w.roles[dto.roleId];
      var changed := role.(isActive := if dto.isActive.Some? then dto.isActive.value else role.isActive);
      ReplacesDelegations(w.(roles := w.roles[dto.roleId := changed]), dto.roleId, dto.delegates.value, plan);
    }
  }

  // ---- the right to give a role that was just made

  /** Delegations are of roles that exist. */
  ghost predicate DelegationsNameRoles(w: World) {
    forall d | d in w.delegations :: d.roleId < |w.roles|
  }

  lemma {:induction false} DelegationsAlwaysNameRoles(w: World, events: seq<Event>)
    requires DelegationsNameRoles(w)
    ensures DelegationsNameRoles(Run(w, events))
  {
    if events != [] {
      var before, e := Run(w, events[..|events| - 1]), events[|events| - 1];
      DelegationsAlwaysNameRoles(w, events[..|events| - 1]);
      match e
      case Hire(dto, actor, plan) => HireEffect(before, dto, actor, plan);
      case Reassign(employeeId, roleId, actor, plan) => ReassignEffect(before, employeeId, roleId, actor, plan);
      case _ =>
    }
  }

  /** A new role, without failures: an existing name changes nothing, nor does one the realm has; otherwise the
      role is made active, as maker or checker by its name, and goes through exactly when no delegate is named
      twice. Then the callers to whom it may be given are the superadmins of realm_access and the named
      delegates; no other role's change. */
  lemma DelegatesOfANewRole(w: World, name: string, delegates: seq<string>, actor: Actor, other: nat)
    requires DelegationsNameRoles(w) && other != |w.roles|
    ensures var p := CreateRole(w, name, delegates, map[]);
      if HasRoleNamed(w, name) then p.w == w && p.exit == Threw(RoleExists)
      else if name in w.realmRoles then p.w == w && p.exit == Threw(KeycloakRefused)
      else
        && (p.exit.Go? <==> Distinct(delegates))
        && p.w.realmRoles == w.realmRoles + {name}
        && (exists role :: p.w.roles == w.roles + [role] && IsNewRole(role, name))
        && (p.exit.Go? ==> (Delegated(p.w, |w.roles|, actor) <==> RealmSuper(actor) || actor.sub in delegates))
        && (!p.exit.Go? ==> (Delegated(p.w, |w.roles|, actor) <==> RealmSuper(actor)))
        && (Delegated(p.w, other, actor) <==> Delegated(w, other, actor))
  {
    var role, p := Role(name, name, ResolveRoleDutyType(name), true), CreateRole(w, name, delegates, map[]);
    if RoleByName(w.roles, name).None? && name !in w.realmRoles {
      assert p.w.roles == w.roles + [role] && IsNewRole(role, name);
    }
  }
}
