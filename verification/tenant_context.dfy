/**
 * The access context (src/context/TenantContext.jsx): the session's current
 * tenant, role and user, the two setters, and the permission check.
 */
module TenantContext {
  import opened Permissions

  /**
   * `hasPermission` for a given current role.  The role and the permission
   * are arbitrary strings: a role that is not a key of the table, or an
   * unknown permission name, yields false.  Only the table's own keys are
   * modelled; inherited object members are not.  Read over the enumerations, the check
   * holds exactly when the strings name a role and a permission that role
   * grants.
   */
  function RoleAllows(role: string, permission: string): (b: bool)
    ensures b <==> exists r: Role, q: Permission :: r.Id() == role && q.Name() == permission && q in Grants(r)
    ensures role !in RolePermissions ==> !b
  {
    TableCoversRoles();
    TableUsesKnownPermissions();
    TableAgreesWithGrants();
    permission in PermissionsOf(role)
  }

  /**
   * TenantProvider's state.  The tenant and the role are overwritten by their
   * setters; the user is fixed when the session starts and has no setter.
   */
  class Session {
    var currentTenant: string
    var currentRole: string
    const currentUser: string

    /** The state a fresh provider starts with. */
    constructor ()
      ensures currentTenant == "org-a" && currentRole == "admin" && currentUser == "John Doe"
    {
      currentTenant := "org-a";
      currentRole := "admin";
      currentUser := "John Doe";
    }

    /**
     * `hasPermission(permission)`: membership in the current role's list.
     * It reads the current role only; tenant and user play no part.
     */
    function HasPermission(permission: string): (b: bool)
      reads this
      ensures b <==> permission in PermissionsOf(currentRole)
    {
      RoleAllows(currentRole, permission)
    }

    /**
     * `setCurrentTenant`: replaces the tenant without checking that it exists.
     * The role, and so every permission, is untouched; setting the tenant it
     * already has changes nothing.
     */
    method SetCurrentTenant(tenant: string)
      modifies this
      ensures currentTenant == tenant
      ensures currentRole == old(currentRole)
      ensures forall p :: HasPermission(p) == old(HasPermission(p))
      ensures old(currentTenant) == tenant ==> unchanged(this)
    {
      currentTenant := tenant;
    }

    /**
     * `setCurrentRole`: replaces the role without checking it; the tenant is
     * untouched and the permissions become those of the new role (none for
     * a role the table does not know).
     */
    method SetCurrentRole(role: string)
      modifies this
      ensures currentRole == role
      ensures currentTenant == old(currentTenant)
      ensures forall p :: HasPermission(p) <==> p in PermissionsOf(role)
      ensures role !in RolePermissions ==> forall p :: !HasPermission(p)
    {
      currentRole := role;
    }
  }
}
