/** The admin_user read model over serial runs: what the listener's upserts amount to, and when a row is
    up to date (admin/admin-user/admin-user-sync.listener.ts). */
module AdminUserRuns {
  import opened Outcomes
  import opened Faults
  import opened RbacConstants
  import opened RbacTables
  import opened EmployeesService
  import opened EmployeeRuns
  import opened EmployeeAgreement

  /** The last event about a Keycloak user. */
  function LastEvent(published: seq<Account>, user: nat): Option<Account> {
    if published == [] then None
    else
      var last := published[|published| - 1];
      if last.keycloakUserId == user then Some(last) else LastEvent(published[..|published| - 1], user)
  }

  /** The four roles of the bank. */
  predicate IsPortalRole(name: string) {
    name == "BANK_SUPER_ADMIN" || name == "BANK_ADMIN" || name == "BANK_MAKER" || name == "BANK_CHECKER"
  }

  function PortalEvents(published: seq<Account>): seq<Account> {
    if published == [] then []
    else
      var last := published[|published| - 1];
      PortalEvents(published[..|published| - 1]) + if IsPortalRole(last.roleName) then [last] else []
  }

  ghost predicate HoldsLast(rows: seq<Account>, portal: seq<Account>) {
    && (forall i, j | 0 <= i < j < |rows| :: rows[i].keycloakUserId != rows[j].keycloakUserId)
    && (forall i | 0 <= i < |rows| :: LastEvent(portal, rows[i].keycloakUserId) == Some(rows[i]))
    && (forall user: nat :: LastEvent(portal, user).Some? ==> AdminRow(rows, user).Some?)
  }

  /** One row per user with an admin-portal event, holding the last of them; no other row. */
  ghost predicate LastWriteWins(rows: seq<Account>, published: seq<Account>) {
    HoldsLast(rows, PortalEvents(published))
  }

  lemma SyncKeepsLastWrite(rows: seq<Account>, published: seq<Account>, event: Account)
    requires LastWriteWins(rows, published)
    ensures LastWriteWins(Synced(rows, event), published + [event])
  {
    var portal := PortalEvents(published);
    assert (published + [event])[..|published|] == published;
    if IsPortalRole(event.roleName) {
      assert PortalEvents(published + [event]) == portal + [event];
      PortalSyncKeepsLastWrite(rows, portal, event);
    } else {
      assert PortalEvents(published + [event]) == portal;
    }
  }

  lemma PortalSyncKeepsLastWrite(rows: seq<Account>, portal: seq<Account>, event: Account)
    requires IsPortalRole(event.roleName) && HoldsLast(rows, portal)
    ensures HoldsLast(Synced(rows, event), portal + [event])
  {
    assert (portal + [event])[..|portal|] == portal;
    forall user: nat | LastEvent(portal + [event], user).Some?
      ensures AdminRow(Synced(rows, event), user).Some?
    {
      SyncedRow(rows, event, user);
    }
  }

  lemma SyncedRow(rows: seq<Account>, event: Account, user: nat)
    requires IsPortalRole(event.roleName)
    requires user == event.keycloakUserId || AdminRow(rows, user).Some?
    ensures AdminRow(Synced(rows, event), user).Some?
  {
    var after, row := Synced(rows, event), AdminRow(rows, event.keycloakUserId);
    assert after[if row.Some? then row.value else |rows|] == event;
    if user != event.keycloakUserId {
      assert after[AdminRow(rows, user).value].keycloakUserId == user;
    }
  }

  /** Every operation publishes at most one event, and the listener sees exactly what is published. */
  lemma StepPublishes(w: World, e: Event)
    ensures var v := Next(w, e);
      || (v.published == w.published && v.adminUsers == w.adminUsers)
      || exists account :: v.published == w.published + [account] && v.adminUsers == Synced(w.adminUsers, account)
  {
    match e
    case Hire(dto, actor, plan) => HirePublishes(w, dto, actor, plan);
    case Reassign(employeeId, roleId, actor, plan) => ReassignPublishes(w, employeeId, roleId, actor, plan);
    case _ => RoleEventEffect(w, e);
  }

  lemma HirePublishes(w: World, dto: CreateEmployee, actor: Actor, plan: Plan<Await>)
    ensures var v := Created(w, dto, actor, plan).w;
      || (v.published == w.published && v.adminUsers == w.adminUsers)
      || exists account :: v.published == w.published + [account] && v.adminUsers == Synced(w.adminUsers, account)
  {
    if CreateRefusal(w, dto, actor).None? {
      var granted := CreateGranted(w, dto.username, dto.roleId, plan);
      CreateGrantedEffect(w, dto.username, dto.roleId, plan);
      if granted.exit.Go? {
        SavePublishes(granted.w, dto, |w.users|, actor, plan);
      }
    }
  }

  lemma SavePublishes(w: World, dto: CreateEmployee, user: nat, actor: Actor, plan: Plan<Await>)
    requires dto.roleId < |w.roles|
    ensures var v := SaveNewEmployee(w, dto, user, actor, plan).w;
      || (v.published == w.published && v.adminUsers == w.adminUsers)
      || exists account :: v.published == w.published + [account] && v.adminUsers == Synced(w.adminUsers, account)
  {
  }

  lemma ReassignPublishes(w: World, employeeId: nat, roleId: nat, actor: Actor, plan: Plan<Await>)
    ensures var v := Updated(w, employeeId, roleId, actor, plan).w;
      || (v.published == w.published && v.adminUsers == w.adminUsers)
      || exists account :: v.published == w.published + [account] && v.adminUsers == Synced(w.adminUsers, account)
  {
    if UpdateRefusal(w, employeeId, roleId, actor).None? {
      var user, current := w.employees[employeeId].keycloakUserId, CurrentRole(w, employeeId);
      var swapped := SwapGrants(w, user, current, roleId, plan);
      SwapEffect(w, user, current, roleId, plan);
      if swapped.exit.Go? {
        SaveReassignedPublishes(swapped.w, employeeId, roleId, actor, plan);
      }
    }
  }

  lemma SaveReassignedPublishes(w: World, employeeId: nat, roleId: nat, actor: Actor, plan: Plan<Await>)
    requires employeeId < |w.employees| && roleId < |w.roles|
    ensures var v := SaveReassigned(w, employeeId, roleId, actor, plan).w;
      || (v.published == w.published && v.adminUsers == w.adminUsers)
      || exists account :: v.published == w.published + [account] && v.adminUsers == Synced(w.adminUsers, account)
  {
  }

  /** Over every serial run, whatever fails: the table is the last-write-wins fold, per Keycloak user, of
      the admin-portal events. */
  lemma {:induction false} ReadModelIsLastWriteWins(w: World, events: seq<Event>)
    requires LastWriteWins(w.adminUsers, w.published)
    ensures LastWriteWins(Run(w, events).adminUsers, Run(w, events).published)
  {
    if events != [] {
      var before, v := Run(w, events[..|events| - 1]), Run(w, events);
      ReadModelIsLastWriteWins(w, events[..|events| - 1]);
      StepPublishes(before, events[|events| - 1]);
      if !(v.published == before.published && v.adminUsers == before.adminUsers) {
        var account :| v.published == before.published + [account]
            && v.adminUsers == Synced(before.adminUsers, account);
        SyncKeepsLastWrite(before.adminUsers, before.published, account);
      }
    }
  }

  // ---- failure-free runs

  /** The last event about each employee's user carries the employee's present data. */
  ghost predicate Announced(w: World)
    requires OneAssignmentEach(w)
  {
    forall e: nat | e < |w.employees| ::
      LastEvent(w.published, w.employees[e].keycloakUserId) == Some(AccountOf(w, e, CurrentRole(w, e).value))
  }

  lemma LastEventAfter(published: seq<Account>, event: Account, user: nat)
    ensures LastEvent(published + [event], user) ==
            if event.keycloakUserId == user then Some(event) else LastEvent(published, user)
  {
    assert (published + [event])[..|published|] == published;
  }

  lemma HireAnnounces(w: World, dto: CreateEmployee, actor: Actor)
    requires Agreed(w) && Announced(w)
    ensures var v := Created(w, dto, actor, map[]).w; Agreed(v) && Announced(v)
  {
    var v := Created(w, dto, actor, map[]).w;
    HireAgrees(w, dto, actor);
    SmoothHire(w, dto, actor);
    if v != w {
      HireKeepsAssignments(w, v, dto, actor);
      AnnouncedAfter(w, v, |w.employees|, AccountOf(v, |w.employees|, dto.roleId));
    }
  }

  lemma ReassignAnnounces(w: World, employeeId: nat, roleId: nat, actor: Actor)
    requires Agreed(w) && Announced(w)
    ensures var v := Updated(w, employeeId, roleId, actor, map[]).w; Agreed(v) && Announced(v)
  {
    var v := Updated(w, employeeId, roleId, actor, map[]).w;
    ReassignAgrees(w, employeeId, roleId, actor);
    if UpdateRefusal(w, employeeId, roleId, actor).None? {
      SmoothReassign(w, employeeId, roleId, actor);
      ReassignKeepsAssignments(w, v, employeeId, roleId, actor);
      AnnouncedAfter(w, v, employeeId, AccountOf(w, employeeId, roleId));
    }
  }

  lemma AnnouncedAfter(w: World, v: World, changed: nat, event: Account)
    requires OneAssignmentEach(w) && OneAssignmentEach(v) && Announced(w)
    requires w.roles == v.roles && w.employees <= v.employees && |v.employees| <= |w.employees| + 1
    requires changed < |v.employees| && (|v.employees| > |w.employees| ==> changed == |w.employees|)
    requires forall e: nat | e < |w.employees| && e != changed :: CurrentRole(v, e) == CurrentRole(w, e)
    requires v.published == w.published + [event] && event == AccountOf(v, changed, CurrentRole(v, changed).value)
    ensures Announced(v)
  {
    forall e: nat | e < |v.employees|
      ensures LastEvent(v.published, v.employees[e].keycloakUserId) == Some(AccountOf(v, e, CurrentRole(v, e).value))
    {
      LastEventAfter(w.published, event, v.employees[e].keycloakUserId);
    }
  }

  lemma {:induction false} RunAnnounces(w: World, events: seq<Event>)
    requires Agreed(w) && Announced(w)
    requires forall i | 0 <= i < |events| :: Smooth(events[i])
    ensures Agreed(Run(w, events)) && Announced(Run(w, events))
  {
    if events != [] {
      var front, last := events[..|events| - 1], events[|events| - 1];
      assert forall i | 0 <= i < |front| :: front[i] == events[i];
      RunAnnounces(w, front);
      match last
      case Hire(dto, actor, _) => HireAnnounces(Run(w, front), dto, actor);
      case Reassign(employeeId, roleId, actor, _) => ReassignAnnounces(Run(w, front), employeeId, roleId, actor);
      case _ =>
        RoleEventAgrees(Run(w, front), last);
        RoleEventEffect(Run(w, front), last);
    }
  }

  lemma {:induction false} LastPortalEvent(published: seq<Account>, user: nat)
    ensures var last := LastEvent(published, user);
      && (LastEvent(PortalEvents(published), user).Some? ==>
            IsPortalRole(LastEvent(PortalEvents(published), user).value.roleName))
      && (last.Some? && IsPortalRole(last.value.roleName) ==> LastEvent(PortalEvents(published), user) == last)
  {
    if published != [] {
      var front, last := published[..|published| - 1], published[|published| - 1];
      LastPortalEvent(front, user);
      LastEventAfter(PortalEvents(front), last, user);
      assert PortalEvents(front) + [] == PortalEvents(front);
      assert PortalEvents(published) ==
          PortalEvents(front) + if IsPortalRole(last.roleName) then [last] else [];
    }
  }

  /** In every failure-free run an employee has an admin_user row equal to the employee's present data
      exactly when the present role is an admin-portal role. After a change to any other role the row,
      if there is one, stays as it was. */
  lemma RowIsCurrentIffPortalRole(w: World, events: seq<Event>, e: nat)
    requires Agreed(w) && Announced(w) && LastWriteWins(w.adminUsers, w.published)
    requires forall i | 0 <= i < |events| :: Smooth(events[i])
    ensures var v := Run(w, events);
      && Agreed(v)
      && (e < |v.employees| ==>
            var row := AdminRow(v.adminUsers, v.employees[e].keycloakUserId);
            var current := CurrentRole(v, e).value;
            (row.Some? && v.adminUsers[row.value] == AccountOf(v, e, current))
            <==> IsPortalRole(v.roles[current].name))
  {
    var v := Run(w, events);
    RunAnnounces(w, events);
    ReadModelIsLastWriteWins(w, events);
    if e < |v.employees| {
      LastPortalEvent(v.published, v.employees[e].keycloakUserId);
    }
  }
}
