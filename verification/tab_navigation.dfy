/**
 * The tab bar (src/components/Layout/TabNavigation.jsx): a constant list of
 * tabs, each shown only when the current role holds its permission, and
 * marked selected when it is the active tab.
 */
module TabNavigation {
  import opened Constants
  import opened TenantContext

  /** One entry of the tab list: its id, its label and the permission it needs. */
  datatype TabSpec = TabSpec(id: string, caption: string, permission: string)

  /** A rendered tab button. */
  datatype TabButton = TabButton(id: string, caption: string, selected: bool)

  const LeadsTab: TabSpec := TabSpec(TabLeads, "Leads", "view_leads")
  const CallsTab: TabSpec := TabSpec(TabCalls, "Call Logs", "view_calls")

  /** The tab list, leads first. */
  const Tabs: seq<TabSpec> := [LeadsTab, CallsTab]

  /** The button a tab renders as, given the active tab. */
  function Button(tab: TabSpec, activeTab: string): (b: TabButton)
    ensures b.id == tab.id && b.caption == tab.caption
    ensures b.selected <==> activeTab == tab.id
  {
    TabButton(tab.id, tab.caption, activeTab == tab.id)
  }

  /**
   * The buttons of the tabs whose permission the role holds, in list order;
   * each is selected exactly when its id is the active tab.
   */
  function Buttons(tabs: seq<TabSpec>, role: string, activeTab: string): (bs: seq<TabButton>)
    ensures |bs| <= |tabs|
    ensures forall b :: b in bs ==> (b.selected <==> b.id == activeTab)
    ensures forall t :: t in tabs && RoleAllows(role, t.permission) ==> Button(t, activeTab) in bs
    ensures forall b :: b in bs ==> exists t :: t in tabs && RoleAllows(role, t.permission) && b == Button(t, activeTab)
  {
    if tabs == [] then []
    else
      var rest := Buttons(tabs[1..], role, activeTab);
      assert forall t :: t in tabs ==> t == tabs[0] || t in tabs[1..];
      if RoleAllows(role, tabs[0].permission) then [Button(tabs[0], activeTab)] + rest else rest
  }

  /**
   * The tab bar for a role: the leads tab when the role may view leads, then
   * the calls tab when it may view calls, and nothing else.
   */
  lemma VisibleTabs(role: string, activeTab: string)
    ensures Buttons(Tabs, role, activeTab) ==
      (if RoleAllows(role, "view_leads") then [Button(LeadsTab, activeTab)] else []) +
      (if RoleAllows(role, "view_calls") then [Button(CallsTab, activeTab)] else [])
  {
  }

  /** At most one visible tab is selected, and none when the active tab is not a tab id. */
  lemma AtMostOneSelected(role: string, activeTab: string)
    ensures forall i, j :: 0 <= i < j < |Buttons(Tabs, role, activeTab)| ==>
      !(Buttons(Tabs, role, activeTab)[i].selected && Buttons(Tabs, role, activeTab)[j].selected)
    ensures activeTab != TabLeads && activeTab != TabCalls ==>
      forall b :: b in Buttons(Tabs, role, activeTab) ==> !b.selected
  {
  }
}
