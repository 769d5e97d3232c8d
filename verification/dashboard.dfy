/**
 * The dashboard (src/components/Layout/Dashboard.jsx): the active tab it
 * keeps and the module it renders for it.
 */
module Dashboard {
  import opened Constants

  /** The two modules the dashboard can render. */
  datatype Module = LeadsPanel | CallLogsPanel

  /**
   * The modules rendered for an active tab.  The source has two independent
   * guards, one per tab id; because the ids differ, at most one module is
   * rendered, and none for a value that is not a tab id.
   */
  function RenderedModules(activeTab: string): (ms: seq<Module>)
    ensures LeadsPanel in ms <==> activeTab == TabLeads
    ensures CallLogsPanel in ms <==> activeTab == TabCalls
    ensures |ms| <= 1
    ensures activeTab != TabLeads && activeTab != TabCalls ==> ms == []
  {
    TabIdsDistinct();
    (if activeTab == TabLeads then [LeadsPanel] else []) +
    (if activeTab == TabCalls then [CallLogsPanel] else [])
  }

  /** The dashboard's state: the active tab, changed only by the tab bar's setter. */
  class DashboardState {
    var activeTab: string

    constructor ()
      ensures activeTab == TabLeads
      ensures RenderedModules(activeTab) == [LeadsPanel]
    {
      activeTab := TabLeads;
    }

    /** `setActiveTab`, handed to the tab bar: a click on a tab sets its id. */
    method SetActiveTab(id: string)
      modifies this
      ensures activeTab == id
      ensures id == TabLeads ==> RenderedModules(activeTab) == [LeadsPanel]
      ensures id == TabCalls ==> RenderedModules(activeTab) == [CallLogsPanel]
    {
      activeTab := id;
    }
  }
}
