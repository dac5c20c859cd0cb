/** Role identifiers: the fixed set of CRM-administrator aliases and the editor role
    the plugin grants to their holders. */
module Roles {

  type Role = string

  /** The role the plugin grants. */
  const Editor: Role := "editor"

  /** The four role names the CRM add-on has used for its full-permission administrator. */
  const CrmAdminRoles: set<Role> := {"zerobs_admin", "jetpack_crm_admin", "crm_admin", "zerobscrm_admin"}

  /** Whether a role set intersects the CRM-administrator set. */
  function HoldsCrmAdminRole(roles: set<Role>): (b: bool)
    ensures b <==> ("zerobs_admin" in roles || "jetpack_crm_admin" in roles
                    || "crm_admin" in roles || "zerobscrm_admin" in roles)
  {
    CrmAdminIntersection(roles);
    CrmAdminRoles * roles != {}
  }

  /** Unfolds the intersection with the CRM-administrator set into its four alias tests. */
  lemma CrmAdminIntersection(roles: set<Role>)
    ensures CrmAdminRoles * roles != {} <==> ("zerobs_admin" in roles || "jetpack_crm_admin" in roles
                                               || "crm_admin" in roles || "zerobscrm_admin" in roles)
  {
    if CrmAdminRoles * roles != {} {
      var r :| r in CrmAdminRoles * roles;
      assert r == "zerobs_admin" || r == "jetpack_crm_admin" || r == "crm_admin" || r == "zerobscrm_admin";
    } else {
      forall r | r in CrmAdminRoles
        ensures r !in roles
      {
        assert r !in CrmAdminRoles * roles;
      }
    }
  }

  /** The editor role is not a CRM-administrator alias, so granting or revoking it never
      changes whether a user counts as a CRM administrator. */
  lemma EditorDoesNotAffectMembership(roles: set<Role>)
    ensures Editor !in CrmAdminRoles
    ensures HoldsCrmAdminRole(roles + {Editor}) == HoldsCrmAdminRole(roles)
    ensures HoldsCrmAdminRole(roles - {Editor}) == HoldsCrmAdminRole(roles)
  {
  }
}
