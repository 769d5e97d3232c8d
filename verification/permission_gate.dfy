/** The permission gate component (src/components/Common/PermissionGate.jsx). */
module PermissionGate {
  import opened Wrappers
  import opened TenantContext

  /** What the gate renders: its children, its fallback inside the denial box, or nothing. */
  datatype GateOutcome = Children | FallbackBox(fallback: string) | Nothing

  /**
   * Whether a fallback counts as given.  The source tests the prop for
   * truthiness, so an absent fallback (the default `null`) and the empty
   * string both count as no fallback.
   */
  predicate Given(fallback: Option<string>)
  {
    fallback.Some? && fallback.value != ""
  }

  /**
   * The gate's decision under the current role.  The outcome depends only on
   * whether the role holds the permission and on whether a fallback is given;
   * the fallback defaults to none.
   */
  function Gate(role: string, permission: string, fallback: Option<string> := None): (g: GateOutcome)
    ensures g == Children <==> RoleAllows(role, permission)
    ensures g.FallbackBox? <==> !RoleAllows(role, permission) && Given(fallback)
    ensures g.FallbackBox? ==> g.fallback == fallback.value
    ensures g == Nothing <==> !RoleAllows(role, permission) && !Given(fallback)
  {
    if !RoleAllows(role, permission) then
      if Given(fallback) then FallbackBox(fallback.value) else Nothing
    else
      Children
  }

  /**
   * Two roles that agree on the permission, with fallbacks that agree on
   * being given (and on their text when given), get the same outcome.
   */
  lemma GateDependsOnPermissionAndFallback(role1: string, role2: string, permission: string,
                                           f1: Option<string>, f2: Option<string>)
    requires RoleAllows(role1, permission) == RoleAllows(role2, permission)
    requires Given(f1) == Given(f2)
    requires Given(f1) ==> f1.value == f2.value
    ensures Gate(role1, permission, f1) == Gate(role2, permission, f2)
  {
  }
}
