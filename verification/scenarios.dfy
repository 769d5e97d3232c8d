/**
 * End-to-end behaviour of the dashboard: what a user sees for a given
 * tenant, role, filter and active tab, put together from the modules above.
 */
module Scenarios {
  import opened Wrappers
  import opened Constants
  import opened MockData
  import opened TenantContext
  import opened PermissionGate
  import opened RenderStates
  import opened Leads
  import opened CallLogs
  import opened TabNavigation
  import opened Dashboard

  /** An admin in org-a sees org-a's five leads and the Add Lead control. */
  lemma AdminInOrgA()
    ensures LeadsView("admin", "org-a", ShowAll) == Populated(OrgALeads)
    ensures |OrgALeads| == 5
    ensures AddLeadControl("admin") == Children
  {
  }

  /**
   * An agent in org-a sees the same five leads without the Add Lead control,
   * and org-a's four calls.
   */
  lemma AgentInOrgA()
    ensures LeadsView("agent", "org-a", ShowAll) == Populated(OrgALeads)
    ensures AddLeadControl("agent") == Nothing
    ensures CallsView("agent", "org-a") == Populated(OrgACalls) && |OrgACalls| == 4
  {
  }

  /** After switching to org-b the leads shown are org-b's four, none of them org-a's. */
  lemma SwitchToOrgB(role: string)
    requires RoleAllows(role, "view_leads")
    ensures LeadsView(role, "org-b", ShowAll) == Populated(OrgBLeads) && |OrgBLeads| == 4
    ensures forall l, m :: l in LeadsView(role, "org-b", ShowAll).rows && m in OrgALeads ==> l.id != m.id
  {
  }

  /** A settings screen gated on view_settings shows an agent only the denial box. */
  lemma AgentDeniedSettings(notice: string)
    requires notice != ""
    ensures Gate("agent", "view_settings", Some(notice)) == FallbackBox(notice)
    ensures Gate("admin", "view_settings", Some(notice)) == Children
  {
  }

  /** Filtering org-a by "qualified" shows Sarah Johnson then David Lee. */
  lemma QualifiedInOrgA()
    ensures LeadsView("admin", "org-a", "qualified") == Populated([OrgALeads[1], OrgALeads[4]])
  {
    var l, q := OrgALeads, "qualified";
    assert FilterByStatus(l[..0], q) == [];
    assert l[..1][..0] == l[..0];
    assert FilterByStatus(l[..1], q) == [];
    assert l[..2][..1] == l[..1];
    assert FilterByStatus(l[..2], q) == [l[1]];
    assert l[..3][..2] == l[..2];
    assert FilterByStatus(l[..3], q) == [l[1]];
    assert l[..4][..3] == l[..3];
    assert FilterByStatus(l[..4], q) == [l[1]];
    assert l[..5] == l;
    assert FilterByStatus(l, q) == [l[1], l[4]];
  }

  /**
   * A role the table does not know sees no tab at all, yet the dashboard
   * still renders the leads module for the initial active tab, which shows
   * the denial.
   */
  lemma UnknownRoleSeesDenial(role: string, tenant: string, statusFilter: string)
    requires role !in Permissions.RolePermissions
    ensures Buttons(Tabs, role, TabLeads) == []
    ensures RenderedModules(TabLeads) == [LeadsPanel]
    ensures LeadsView(role, tenant, statusFilter).Denied?
    ensures CallsView(role, tenant).Denied?
  {
  }

  /** A fresh session, then a switch to the agent role and the calls tab. */
  method RoleSwitchWalkthrough()
  {
    var session := new Session();
    var dashboard := new DashboardState();
    var leads := new LeadsModule();
    assert RenderedModules(dashboard.activeTab) == [LeadsPanel];
    var view := leads.Render(session);
    AdminInOrgA();
    assert view == Populated(OrgALeads);

    session.SetCurrentRole("agent");
    assert !session.HasPermission("edit_leads") && session.HasPermission("view_calls");
    dashboard.SetActiveTab(TabCalls);
    assert RenderedModules(dashboard.activeTab) == [CallLogsPanel];
    AgentInOrgA();
    assert CallsView(session.currentRole, session.currentTenant) == Populated(OrgACalls);
  }

  /** Tenant switches, as the header's tenant switcher makes them. */
  method TenantSwitchWalkthrough()
  {
    var session := new Session();
    var leads := new LeadsModule();
    session.SetCurrentTenant("org-b");
    session.SetCurrentTenant("org-b");
    assert session.currentTenant == "org-b" && session.currentRole == "admin";
    assert session.currentUser == "John Doe";
    var view := leads.Render(session);
    SwitchToOrgB("admin");
    assert view == Populated(OrgBLeads);

    session.SetCurrentTenant("org-z");
    view := leads.Render(session);
    assert view == Empty;
  }
}
