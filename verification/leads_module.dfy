/**
 * The leads module (src/components/Leads/LeadsModule.jsx): the status filter
 * it keeps, the leads it displays, what it renders in their place, and the
 * Add Lead control.
 */
module Leads {
  import opened Wrappers
  import opened MockData
  import opened TenantContext
  import opened PermissionGate
  import opened RenderStates

  /** The filter value that shows every lead. */
  const ShowAll: string := "all"

  const DeniedNotice: string := "\U{274C} Access Denied: You don't have permission to view leads."

  /**
   * `leads.filter(lead => lead.status === status)`: no longer than its input,
   * and every lead it keeps has the requested status.
   */
  function FilterByStatus(leads: seq<Lead>, status: string): (r: seq<Lead>)
    ensures |r| <= |leads|
    ensures forall k :: 0 <= k < |r| ==> r[k].status == status
    decreases |leads|
  {
    if leads == [] then []
    else
      var kept := FilterByStatus(leads[..|leads| - 1], status);
      var last := leads[|leads| - 1];
      assert leads == leads[..|leads| - 1] + [last];
      if last.status == status then kept + [last] else kept
  }

  /** A lead is kept exactly when it occurs in the input with the requested status. */
  lemma {:induction false} FilterMembership(leads: seq<Lead>, status: string)
    ensures forall l :: l in FilterByStatus(leads, status) <==> l in leads && l.status == status
    decreases |leads|
  {
    if leads != [] {
      var n := |leads| - 1;
      FilterMembership(leads[..n], status);
      assert leads == leads[..n] + [leads[n]];
    }
  }

  /** The positions of the leads with status `status`, in increasing order. */
  ghost function MatchingPositions(leads: seq<Lead>, status: string): (pos: seq<nat>)
    ensures forall i: nat :: i in pos <==> i < |leads| && leads[i].status == status
    ensures forall k, m :: 0 <= k < m < |pos| ==> pos[k] < pos[m]
    ensures forall k :: 0 <= k < |pos| ==> pos[k] < |leads|
    decreases |leads|
  {
    if leads == [] then []
    else
      var n := |leads| - 1;
      var before := MatchingPositions(leads[..n], status);
      if leads[n].status == status then before + [n] else before
  }

  /**
   * The filter is order-preserving and exact: its k-th element is the lead
   * at the k-th matching position.  With the contract of
   * `MatchingPositions` (exactly the matching positions, increasing), the
   * result is precisely the leads with the requested status, in the order
   * they have in the input.
   */
  lemma {:induction false} FilterPicksMatching(leads: seq<Lead>, status: string)
    ensures |FilterByStatus(leads, status)| == |MatchingPositions(leads, status)|
    ensures forall k :: 0 <= k < |MatchingPositions(leads, status)| ==>
      FilterByStatus(leads, status)[k] == leads[MatchingPositions(leads, status)[k]]
    decreases |leads|
  {
    if leads != [] {
      var n := |leads| - 1;
      FilterPicksMatching(leads[..n], status);
    }
  }

  /**
   * `filteredLeads`: everything for the filter "all", otherwise the filter
   * by the chosen status (exactly the leads of that status, in their
   * original order, by `FilterMembership` and `FilterPicksMatching`); never
   * more leads than the list it filters.
   */
  function DisplayedLeads(leads: seq<Lead>, statusFilter: string): (r: seq<Lead>)
    ensures statusFilter == ShowAll ==> r == leads
    ensures statusFilter != ShowAll ==> r == FilterByStatus(leads, statusFilter)
    ensures statusFilter != ShowAll ==> forall l :: l in r <==> l in leads && l.status == statusFilter
    ensures |r| <= |leads|
  {
    if statusFilter == ShowAll then leads
    else
      FilterMembership(leads, statusFilter);
      FilterByStatus(leads, statusFilter)
  }

  /**
   * What the module renders for the current role and tenant.  Denial comes
   * first, whatever the loading flag and the data; then loading; then the
   * empty placeholder when the filter leaves nothing; otherwise the table of
   * the displayed leads, all of them the current tenant's.
   */
  function LeadsView(role: string, tenant: string, statusFilter: string, isLoading: bool := false)
    : (v: RenderState<Lead>)
    ensures !RoleAllows(role, "view_leads") ==> v == Denied(DeniedNotice)
    ensures RoleAllows(role, "view_leads") && isLoading ==> v == Loading
    ensures RoleAllows(role, "view_leads") && !isLoading ==>
      (v == Empty <==> DisplayedLeads(GetLeadsByTenant(tenant), statusFilter) == [])
    ensures v.Populated? <==>
      RoleAllows(role, "view_leads") && !isLoading && DisplayedLeads(GetLeadsByTenant(tenant), statusFilter) != []
    ensures v.Populated? ==> v.rows == DisplayedLeads(GetLeadsByTenant(tenant), statusFilter)
    ensures v.Populated? ==> forall l :: l in v.rows ==> l in GetLeadsByTenant(tenant)
  {
    var filtered := DisplayedLeads(GetLeadsByTenant(tenant), statusFilter);
    if !RoleAllows(role, "view_leads") then Denied(DeniedNotice)
    else if isLoading then Loading
    else if |filtered| == 0 then Empty
    else Populated(filtered)
  }

  /** The denial is the permission gate's fallback box carrying the notice. */
  lemma DeniedIsGateFallback(role: string, tenant: string, statusFilter: string, isLoading: bool)
    requires LeadsView(role, tenant, statusFilter, isLoading).Denied?
    ensures Gate(role, "view_leads", Some(DeniedNotice)) == FallbackBox(LeadsView(role, tenant, statusFilter, isLoading).notice)
  {
  }

  /** The Add Lead control: shown exactly when the role may edit leads, with no fallback. */
  function AddLeadControl(role: string): (g: GateOutcome)
    ensures g == Children <==> RoleAllows(role, "edit_leads")
    ensures g == Children || g == Nothing
  {
    Gate(role, "edit_leads")
  }

  /** "Showing x of y leads": the displayed count and the tenant's total. */
  function ShowingCounts(tenant: string, statusFilter: string): (counts: (nat, nat))
    ensures counts.0 == |DisplayedLeads(GetLeadsByTenant(tenant), statusFilter)|
    ensures counts.1 == |GetLeadsByTenant(tenant)|
    ensures counts.0 <= counts.1
  {
    (|DisplayedLeads(GetLeadsByTenant(tenant), statusFilter)|, |GetLeadsByTenant(tenant)|)
  }

  /** The module's own state: the status filter, set only by the filter control. */
  class LeadsModule {
    var statusFilter: string

    constructor ()
      ensures statusFilter == ShowAll
    {
      statusFilter := ShowAll;
    }

    /**
     * `setStatusFilter`: any string is accepted; for a filter other than
     * "all", the leads displayed afterwards are exactly the tenant's leads
     * of that status.
     */
    method SetStatusFilter(filter: string)
      modifies this
      ensures statusFilter == filter
      ensures filter != ShowAll ==> forall tenant, l ::
        l in DisplayedLeads(GetLeadsByTenant(tenant), statusFilter) <==> l in GetLeadsByTenant(tenant) && l.status == filter
    {
      statusFilter := filter;
      if filter != ShowAll {
        forall tenant ensures forall l :: l in DisplayedLeads(GetLeadsByTenant(tenant), statusFilter) <==>
                                            l in GetLeadsByTenant(tenant) && l.status == filter
        {
          FilterMembership(GetLeadsByTenant(tenant), filter);
        }
      }
    }

    /**
     * The module rendered inside a session: the leads view for the session's
     * current role and tenant and this module's filter.  So its leads are
     * always the current tenant's, shown only under view_leads.
     */
    function Render(session: Session, isLoading: bool := false): (v: RenderState<Lead>)
      reads this, session
      ensures v == LeadsView(session.currentRole, session.currentTenant, statusFilter, isLoading)
      ensures v.Populated? ==> session.HasPermission("view_leads")
      ensures v.Populated? ==> forall l :: l in v.rows ==> l in GetLeadsByTenant(session.currentTenant)
      ensures v.Populated? && statusFilter != ShowAll ==> forall l :: l in v.rows ==> l.status == statusFilter
    {
      LeadsView(session.currentRole, session.currentTenant, statusFilter, isLoading)
    }
  }
}
