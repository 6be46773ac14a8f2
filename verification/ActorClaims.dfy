/** What a caller may be by the roles its token claims, and who outranks whom
    (rbac/constants/rbac.constants.ts): stated on the claims and the role names. */
module ActorClaims {
  import opened RbacConstants

  /** The roles of realm_access when it has any, else those of the roles claim. */
  ghost predicate Claims(actor: Actor, role: string) {
    if actor.realmAccessRoles != [] then role in actor.realmAccessRoles else role in actor.roles
  }

  ghost predicate ClaimsSuper(actor: Actor) {
    Claims(actor, "BANK_SUPER_ADMIN") || Claims(actor, "SUPERADMIN") || Claims(actor, "superadmin")
  }

  ghost predicate ClaimsBankAdmin(actor: Actor) {
    Claims(actor, "BANK_SUPER_ADMIN") || Claims(actor, "BANK_ADMIN")
  }

  /** Some claimed role has a higher level than the role. */
  ghost predicate Outranks(actor: Actor, role: string) {
    exists own :: Claims(actor, own) && ResolveRoleHierarchyLevel(own) > ResolveRoleHierarchyLevel(role)
  }

  lemma SuperadminRoles(roles: seq<string>)
    ensures HasAny(roles, SUPERADMIN_ROLES) <==>
      "BANK_SUPER_ADMIN" in roles || "SUPERADMIN" in roles || "superadmin" in roles
  {
    assert SUPERADMIN_ROLES[0] == "BANK_SUPER_ADMIN" && SUPERADMIN_ROLES[1] == "SUPERADMIN"
      && SUPERADMIN_ROLES[2] == "superadmin";
  }

  lemma BankAdminRoles(roles: seq<string>)
    ensures HasAny(roles, DELEGATING_ADMIN_ROLES) <==> "BANK_SUPER_ADMIN" in roles || "BANK_ADMIN" in roles
    ensures HasAny(roles, BBPS_PAYMENT_BANK_READ_ROLES) <==> "BANK_SUPER_ADMIN" in roles || "BANK_ADMIN" in roles
  {
    assert DELEGATING_ADMIN_ROLES[0] == "BANK_ADMIN" && DELEGATING_ADMIN_ROLES[1] == "BANK_SUPER_ADMIN";
    assert BBPS_PAYMENT_BANK_READ_ROLES[0] == "BANK_SUPER_ADMIN" && BBPS_PAYMENT_BANK_READ_ROLES[1] == "BANK_ADMIN";
  }

  /** Each check is decided by the claimed roles; the manage and the assign check are one: a superadmin, or a
      caller with a claimed role above the named one. */
  lemma ChecksAreByClaims(actor: Actor, role: string)
    ensures IsSuperadmin(actor) <==> ClaimsSuper(actor)
    ensures IsEmployeeManager(actor) <==> ClaimsSuper(actor) || ClaimsBankAdmin(actor)
    ensures HasAny(ExtractRealmRoles(actor), BBPS_PAYMENT_BANK_READ_ROLES) <==> ClaimsBankAdmin(actor)
    ensures CanAssignRoleToEmployee(actor, role) <==> ClaimsSuper(actor) || Outranks(actor, role)
    ensures CanManageEmployeeWithRole(actor, role) <==> ClaimsSuper(actor) || Outranks(actor, role)
  {
    var roles := ExtractRealmRoles(actor);
    assert forall own :: Claims(actor, own) <==> own in roles;
    SuperadminRoles(roles);
    BankAdminRoles(roles);
    assert Outranks(actor, role) <==> ResolveActorHierarchyLevel(actor) > ResolveRoleHierarchyLevel(role);
  }

  /** The strict order of the listed roles; every other name lies between the ends. */
  lemma ListedRolesAreOrdered(name: string)
    ensures ResolveRoleHierarchyLevel("BANK_SUPER_ADMIN") == ResolveRoleHierarchyLevel("SUPERADMIN")
         == ResolveRoleHierarchyLevel("superadmin")
         > ResolveRoleHierarchyLevel("BANK_ADMIN")
         > ResolveRoleHierarchyLevel("BANK_MAKER") == ResolveRoleHierarchyLevel("BANK_CHECKER")
         > ResolveRoleHierarchyLevel("CORPORATE_IT_ADMIN")
         > ResolveRoleHierarchyLevel("CORPORATE_MAKER") == ResolveRoleHierarchyLevel("CORPORATE_CHECKER")
         > ResolveRoleHierarchyLevel("CORPORATE_VIEWER")
         > ResolveRoleHierarchyLevel("RETAIL_CUSTOMER")
    ensures ResolveRoleHierarchyLevel("RETAIL_CUSTOMER") <= ResolveRoleHierarchyLevel(name)
         <= ResolveRoleHierarchyLevel("BANK_SUPER_ADMIN")
  {
  }

  /** A bank administrator without a higher role may give out the maker, checker and customer roles, but no
      administrator's; a bank maker none of a bank's; a customer none at all. */
  lemma WhoMayGiveWhat(admin: Actor, maker: Actor, customer: Actor, role: string)
    requires admin.realmAccessRoles == ["BANK_ADMIN"] && maker.realmAccessRoles == ["BANK_MAKER"]
    requires customer.realmAccessRoles == ["RETAIL_CUSTOMER"]
    ensures forall below | below in ["BANK_MAKER", "BANK_CHECKER", "CORPORATE_IT_ADMIN", "RETAIL_CUSTOMER"] ::
      CanAssignRoleToEmployee(admin, below)
    ensures !CanAssignRoleToEmployee(admin, "BANK_ADMIN") && !CanAssignRoleToEmployee(admin, "BANK_SUPER_ADMIN")
    ensures forall above | above in ["BANK_SUPER_ADMIN", "BANK_ADMIN", "BANK_MAKER", "BANK_CHECKER"] ::
      !CanAssignRoleToEmployee(maker, above)
    ensures CanAssignRoleToEmployee(maker, "CORPORATE_IT_ADMIN")
    ensures !CanAssignRoleToEmployee(customer, role)
  {
    ListedRolesAreOrdered(role);
  }
}
