/** Roles and their delegations (rbac/services/roles.service.ts). */
module RolesService {
  import opened Outcomes
  import opened Faults
  import opened RbacConstants
  import opened RbacTables
  import opened Sequences

  datatype Point = Checks | CreateRealmRole | UpdateRealmRole | SaveRole | DropDelegations | SaveDelegations | ReadBack

  type Exit = Control<RbacError>

  datatype Progress = Progress(w: World, exit: Exit)

  function Write(w: World, mode: Mode, after: World): Progress {
    Progress(if TakesEffect(mode) then after else w, Leaves(mode, Unavailable))
  }

  /** Empty optional fields: None. */
  datatype UpdateRole = UpdateRole(
    roleId: nat, describes: bool, isActive: Option<bool>, delegates: Option<seq<string>>)

  function WithoutDelegations(w: World, roleId: nat): World {
    w.(delegations := set d | d in w.delegations && d.roleId != roleId)
  }

  /** The unique index refuses a delegate named twice. */
  function ReplaceDelegations(w: World, roleId: nat, delegates: seq<string>, plan: Plan<Point>): Progress {
    var dropped := Write(w, At(plan, DropDelegations), WithoutDelegations(w, roleId));
    if !dropped.exit.Go? || delegates == [] then dropped
    else if !Distinct(delegates) then Progress(dropped.w, Threw(Unavailable))
    else
      var granted := set name | name in delegates :: Delegation(roleId, name);
      Write(dropped.w, At(plan, SaveDelegations), dropped.w.(delegations := dropped.w.delegations + granted))
  }

  function ReadBackExit(p: Progress, plan: Plan<Point>): Progress {
    if p.exit.Go? then Progress(p.w, Leaves(At(plan, ReadBack), Unavailable)) else p
  }

  function CreateRole(w: World, name: string, delegates: seq<string>, plan: Plan<Point>): Progress {
    var checks := At(plan, Checks);
    if !checks.Works? then Progress(w, Leaves(checks, Unavailable))
    else if RoleByName(w.roles, name).Some? then Progress(w, Threw(RoleExists))
    else if At(plan, CreateRealmRole).Works? && name in w.realmRoles then Progress(w, Threw(KeycloakRefused))
    else
      var inRealm := Write(w, At(plan, CreateRealmRole), w.(realmRoles := w.realmRoles + {name}));
      if !inRealm.exit.Go? then inRealm
      else
        var role := Role(name, name, ResolveRoleDutyType(name), true);
        var saved := Write(inRealm.w, At(plan, SaveRole), inRealm.w.(roles := w.roles + [role]));
        if !saved.exit.Go? then saved
        else if delegates == [] then ReadBackExit(saved, plan)
        else ReadBackExit(ReplaceDelegations(saved.w, |w.roles|, delegates, plan), plan)
  }

  function ChangeRole(w: World, dto: UpdateRole, plan: Plan<Point>): Progress {
    var checks := At(plan, Checks);
    if !checks.Works? then Progress(w, Leaves(checks, Unavailable))
    else if dto.roleId >= |w.roles| then Progress(w, Threw(RoleNotFound))
    else if dto.describes && !At(plan, UpdateRealmRole).Works? then
      Progress(w, Leaves(At(plan, UpdateRealmRole), Unavailable))
    else
      var role := w.roles[dto.roleId];
      var changed := role.(isActive := if dto.isActive.Some? then dto.isActive.value else role.isActive);
      var saved := Write(w, At(plan, SaveRole), w.(roles := w.roles[dto.roleId := changed]));
      if !saved.exit.Go? then saved
      else if dto.delegates.None? then ReadBackExit(saved, plan)
      else ReadBackExit(ReplaceDelegations(saved.w, dto.roleId, dto.delegates.value, plan), plan)
  }

  // ---- checks used by the employee operations

  /** `assertCanAssignRole` reads the realm_access list only, unlike the other checks. */
  predicate IsRealmSuperadmin(actor: Actor) {
    HasAny(actor.realmAccessRoles, SUPERADMIN_ROLES)
  }

  function CannotAssignRole(w: World, actor: Actor, roleId: nat): Option<RbacError> {
    if roleId >= |w.roles| || !w.roles[roleId].isActive then Some(RoleNotFound)
    else if IsRealmSuperadmin(actor) then None
    else if Delegation(roleId, actor.sub) !in w.delegations then Some(Forbidden)
    else None
  }

  predicate MixesMakerAndChecker(w: World, roleIds: seq<nat>) {
    && (exists id | id in roleIds :: id < |w.roles| && w.roles[id].dutyType == MAKER)
    && (exists id | id in roleIds :: id < |w.roles| && w.roles[id].dutyType == CHECKER)
  }

  /** A role update that names delegates goes through exactly when no delegate is named twice, and then a
      caller may assign the role exactly if it is active and the caller is a superadmin or a named delegate;
      who may assign any other role is unchanged. */
  lemma DelegatesMayAssign(w: World, dto: UpdateRole, actor: Actor, other: nat)
    requires dto.roleId < |w.roles| && dto.delegates.Some? && other != dto.roleId
    ensures var p := ChangeRole(w, dto, map[]);
      && (p.exit.Go? <==> Distinct(dto.delegates.value))
      && CannotAssignRole(p.w, actor, other) == CannotAssignRole(w, actor, other)
      && (p.exit.Go? ==>
            (CannotAssignRole(p.w, actor, dto.roleId).None? <==>
               && (if dto.isActive.Some? then dto.isActive.value else w.roles[dto.roleId].isActive)
               && (IsRealmSuperadmin(actor) || actor.sub in dto.delegates.value)))
  {
    var p, delegates := ChangeRole(w, dto, map[]), dto.delegates.value;
    if p.exit.Go? {
      assert Delegation(dto.roleId, actor.sub) in p.w.delegations <==> actor.sub in delegates;
    }
    assert Delegation(other, actor.sub) in p.w.delegations <==> Delegation(other, actor.sub) in w.delegations;
  }

  class Service {
    const store: RbacStore

    constructor (store: RbacStore)
      ensures this.store == store
    {
      this.store := store;
    }

    method ReplaceDelegationsOf(roleId: nat, delegates: seq<string>, plan: Plan<Point>) returns (exit: Exit)
      modifies store
      ensures Progress(store.Snapshot(), exit) == ReplaceDelegations(old(store.Snapshot()), roleId, delegates, plan)
    {
      var drop := At(plan, DropDelegations);
      if TakesEffect(drop) {
        store.delegations := set d | d in store.delegations && d.roleId != roleId;
      }
      if drop != Works || delegates == [] {
        return Leaves(drop, Unavailable);
      }
      if !Distinct(delegates) {
        return Threw(Unavailable);
      }
      var save := At(plan, SaveDelegations);
      if TakesEffect(save) {
        store.delegations := store.delegations + set name | name in delegates :: Delegation(roleId, name);
      }
      return Leaves(save, Unavailable);
    }

    method Create(name: string, delegates: seq<string>, plan: Plan<Point>) returns (exit: Exit)
      modifies store
      ensures Progress(store.Snapshot(), exit) == CreateRole(old(store.Snapshot()), name, delegates, plan)
    {
      var checks := At(plan, Checks);
      if checks != Works {
        return Leaves(checks, Unavailable);
      }
      if RoleByName(store.roles, name).Some? {
        return Threw(RoleExists);
      }
      var create := At(plan, CreateRealmRole);
      if create == Works && name in store.realmRoles {
        return Threw(KeycloakRefused);
      }
      if TakesEffect(create) {
        store.realmRoles := store.realmRoles + {name};
      }
      if create != Works {
        return Leaves(create, Unavailable);
      }
      var id, save := |store.roles|, At(plan, SaveRole);
      if TakesEffect(save) {
        store.roles := store.roles + [Role(name, name, ResolveRoleDutyType(name), true)];
      }
      if save != Works {
        return Leaves(save, Unavailable);
      }
      if delegates != [] {
        exit := ReplaceDelegationsOf(id, delegates, plan);
        if exit != Go {
          return;
        }
      }
      return Leaves(At(plan, ReadBack), Unavailable);
    }

    method Update(dto: UpdateRole, plan: Plan<Point>) returns (exit: Exit)
      modifies store
      ensures Progress(store.Snapshot(), exit) == ChangeRole(old(store.Snapshot()), dto, plan)
    {
      var checks := At(plan, Checks);
      if checks != Works {
        return Leaves(checks, Unavailable);
      }
      if dto.roleId >= |store.roles| {
        return Threw(RoleNotFound);
      }
      if dto.describes && At(plan, UpdateRealmRole) != Works {
        return Leaves(At(plan, UpdateRealmRole), Unavailable);
      }
      var role, save := store.roles[dto.roleId], At(plan, SaveRole);
      if dto.isActive.Some? {
        role := role.(isActive := dto.isActive.value);
      }
      if TakesEffect(save) {
        store.roles := store.roles[dto.roleId := role];
      }
      if save != Works {
        return Leaves(save, Unavailable);
      }
      if dto.delegates.Some? {
        exit := ReplaceDelegationsOf(dto.roleId, dto.delegates.value, plan);
        if exit != Go {
          return;
        }
      }
      return Leaves(At(plan, ReadBack), Unavailable);
    }
  }
}
