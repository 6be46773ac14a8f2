/** Token claims and the role hierarchy (rbac/constants/rbac.constants.ts). */
module RbacConstants {
  import opened Outcomes
  import Texts

  /** The claims of the caller's access token; a missing text is "", a missing list is []. */
  datatype Actor = Actor(sub: string, realmAccessRoles: seq<string>, roles: seq<string>)

  datatype DutyType = MAKER | CHECKER | OTHER

  const SUPERADMIN_ROLES := ["BANK_SUPER_ADMIN", "SUPERADMIN", "superadmin"]
  const DELEGATING_ADMIN_ROLES := ["BANK_ADMIN", "BANK_SUPER_ADMIN"]
  const BBPS_PAYMENT_BANK_READ_ROLES := ["BANK_SUPER_ADMIN", "BANK_ADMIN"]
  const SUPERADMIN_LEVEL: nat := 100
  const DEFAULT_ROLE_HIERARCHY_LEVEL: nat := 10

  predicate HasAny(roles: seq<string>, allowed: seq<string>) {
    exists role | role in roles :: role in allowed
  }

  function ExtractRealmRoles(actor: Actor): seq<string> {
    if actor.realmAccessRoles != [] then actor.realmAccessRoles else actor.roles
  }

  predicate IsSuperadmin(actor: Actor) {
    HasAny(ExtractRealmRoles(actor), SUPERADMIN_ROLES)
  }

  predicate IsEmployeeManager(actor: Actor) {
    IsSuperadmin(actor) || HasAny(ExtractRealmRoles(actor), DELEGATING_ADMIN_ROLES)
  }

  function ListedLevel(name: string): (level: Option<nat>)
    ensures level.Some? ==> DEFAULT_ROLE_HIERARCHY_LEVEL <= level.value <= SUPERADMIN_LEVEL
  {
    if name in ["BANK_SUPER_ADMIN", "SUPERADMIN", "superadmin"] then Some(100)
    else if name == "BANK_ADMIN" then Some(80)
    else if name in ["BANK_MAKER", "BANK_CHECKER"] then Some(50)
    else if name == "CORPORATE_IT_ADMIN" then Some(40)
    else if name in ["CORPORATE_MAKER", "CORPORATE_CHECKER"] then Some(30)
    else if name == "CORPORATE_VIEWER" then Some(20)
    else if name == "RETAIL_CUSTOMER" then Some(10)
    else None
  }

  /** Each run of white space becomes one underscore. */
  function JoinWords(s: string): string {
    if s == "" then ""
    else if !Texts.IsSpace(s[0]) then [s[0]] + JoinWords(s[1..])
    else if |s| > 1 && Texts.IsSpace(s[1]) then JoinWords(s[1..])
    else "_" + JoinWords(s[1..])
  }

  /** "SUPER" and "ADMIN" with at most one character between them, in any letter case. */
  predicate LooksSuperAdmin(name: string) {
    var upper := Texts.Upper(name);
    exists i | 0 <= i <= |upper| ::
      && Texts.OccursAt("SUPER", upper, i)
      && (|| Texts.OccursAt("ADMIN", upper, i + 5)
          || (Texts.OccursAt("ADMIN", upper, i + 6) && !Texts.IsLineBreak(upper[i + 5])))
  }

  predicate Mentions(name: string, word: string) {
    Texts.Contains(Texts.Upper(name), word)
  }

  function ResolveRoleDutyType(name: string): DutyType {
    if Mentions(name, "MAKER") then MAKER
    else if Mentions(name, "CHECKER") then CHECKER
    else OTHER
  }

  function NormalizedName(name: string): string {
    JoinWords(Texts.Upper(Texts.Trim(name)))
  }

  /** The level of a name the table does not list, by the words it contains. */
  function GuessedLevel(name: string): (level: nat)
    ensures DEFAULT_ROLE_HIERARCHY_LEVEL <= level <= SUPERADMIN_LEVEL
  {
    if LooksSuperAdmin(name) then SUPERADMIN_LEVEL
    else if Mentions(name, "BANK_ADMIN") then 80
    else if Mentions(name, "MAKER") || Mentions(name, "CHECKER") then 50
    else DEFAULT_ROLE_HIERARCHY_LEVEL
  }

  function ResolveRoleHierarchyLevel(name: string): (level: nat)
    ensures DEFAULT_ROLE_HIERARCHY_LEVEL <= level <= SUPERADMIN_LEVEL
  {
    var exact := ListedLevel(name);
    if exact.Some? then exact.value
    else
      var normalized := ListedLevel(NormalizedName(name));
      if normalized.Some? then normalized.value else GuessedLevel(name)
  }

  /** The largest level among the names; 0 for none. */
  function HighestLevel(names: seq<string>): (level: nat)
    ensures names != [] ==> exists name | name in names :: ResolveRoleHierarchyLevel(name) == level
    ensures forall name | name in names :: ResolveRoleHierarchyLevel(name) <= level
  {
    if names == [] then 0
    else
      var rest := HighestLevel(names[1..]);
      var first := ResolveRoleHierarchyLevel(names[0]);
      if first >= rest then first else rest
  }

  function ResolveActorHierarchyLevel(actor: Actor): nat {
    var names := ExtractRealmRoles(actor);
    if names == [] then DEFAULT_ROLE_HIERARCHY_LEVEL else HighestLevel(names)
  }

  predicate CanManageEmployeeWithRole(actor: Actor, employeeRoleName: string) {
    || IsSuperadmin(actor)
    || ResolveActorHierarchyLevel(actor) > ResolveRoleHierarchyLevel(employeeRoleName)
  }

  predicate CanAssignRoleToEmployee(actor: Actor, targetRoleName: string) {
    || IsSuperadmin(actor)
    || ResolveActorHierarchyLevel(actor) > ResolveRoleHierarchyLevel(targetRoleName)
  }
}
