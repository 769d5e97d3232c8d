/**
 * The call-logs module (src/components/CallLogs/CallLogsModule.jsx): the
 * current tenant's calls, unfiltered, behind the view_calls permission.
 */
module CallLogs {
  import opened Wrappers
  import opened MockData
  import opened TenantContext
  import opened PermissionGate
  import opened RenderStates

  const DeniedNotice: string := "\U{274C} Access Denied: You don't have permission to view call logs."

  /**
   * What the module renders.  Denial comes first, whatever the loading flag
   * and the data; then loading (off unless the caller sets it); then the
   * empty placeholder when the tenant has no calls; otherwise the tenant's
   * whole call list in fixture order.
   */
  function CallsView(role: string, tenant: string, isLoading: bool := false): (v: RenderState<Call>)
    ensures !RoleAllows(role, "view_calls") ==> v == Denied(DeniedNotice)
    ensures RoleAllows(role, "view_calls") && isLoading ==> v == Loading
    ensures RoleAllows(role, "view_calls") && !isLoading ==> (v == Empty <==> GetCallsByTenant(tenant) == [])
    ensures v.Populated? <==> RoleAllows(role, "view_calls") && !isLoading && GetCallsByTenant(tenant) != []
    ensures v.Populated? ==> v.rows == GetCallsByTenant(tenant)
  {
    var calls := GetCallsByTenant(tenant);
    if !RoleAllows(role, "view_calls") then Denied(DeniedNotice)
    else if isLoading then Loading
    else if |calls| == 0 then Empty
    else Populated(calls)
  }

  /** The denial is the permission gate's fallback box carrying the notice. */
  lemma DeniedIsGateFallback(role: string, tenant: string, isLoading: bool)
    requires CallsView(role, tenant, isLoading).Denied?
    ensures Gate(role, "view_calls", Some(DeniedNotice)) == FallbackBox(CallsView(role, tenant, isLoading).notice)
  {
  }

  /**
   * Every call shown refers to a lead of the same tenant and carries that
   * lead's name, so the table never shows a call about another tenant's lead.
   */
  lemma ShownCallsReferToTenantLeads(role: string, tenant: string, isLoading: bool)
    ensures CallsView(role, tenant, isLoading).Populated? ==>
      forall c :: c in CallsView(role, tenant, isLoading).rows ==>
        exists l :: l in GetLeadsByTenant(tenant) && l.id == c.leadId && l.name == c.leadName
  {
    FixtureWellFormed();
  }
}
