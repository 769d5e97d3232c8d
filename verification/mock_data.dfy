/**
 * The tenant directory and its accessors (src/utils/mockData.js).
 *
 * Dates, durations, phone numbers, e-mail addresses and notes are opaque
 * strings that nothing parses.  Lead statuses and call outcomes are kept as
 * the strings the fixture holds; `StatusesKnown` ties them to the badge tables.
 */
module MockData {
  import opened Wrappers
  import opened Constants

  datatype Lead = Lead(id: int, name: string, phone: string, status: string, created: string, email: string)

  datatype Call = Call(id: int, leadId: int, leadName: string, dateTime: string, duration: string,
                       outcome: string, notes: string)

  /** One directory entry: a tenant and the leads and calls it owns. */
  datatype Tenant = Tenant(id: string, name: string, leads: seq<Lead>, calls: seq<Call>)

  /** The `{id, name}` record the tenant lookups return. */
  datatype TenantInfo = TenantInfo(id: string, name: string)

  const OrgALeads: seq<Lead> := [
    Lead(1, "John Smith", "+1-234-567-8900", "contacted", "2025-01-15", "john.smith@example.com"),
    Lead(2, "Sarah Johnson", "+1-234-567-8901", "qualified", "2025-01-14", "sarah.johnson@example.com"),
    Lead(3, "Mike Wilson", "+1-234-567-8902", "new", "2025-01-10", "mike.wilson@example.com"),
    Lead(4, "Emily Brown", "+1-234-567-8903", "contacted", "2025-01-12", "emily.brown@example.com"),
    Lead(5, "David Lee", "+1-234-567-8904", "qualified", "2025-01-09", "david.lee@example.com")
  ]

  const OrgACalls: seq<Call> := [
    Call(1, 1, "John Smith", "2025-01-15 10:30", "15 mins", "interested", "Client expressed interest in demo"),
    Call(2, 2, "Sarah Johnson", "2025-01-14 14:45", "8 mins", "not-interested", "Not interested at this time"),
    Call(3, 3, "Mike Wilson", "2025-01-10 09:15", "12 mins", "callback", "Will call back next week"),
    Call(4, 4, "Emily Brown", "2025-01-13 11:45", "20 mins", "interested", "Ready for next steps")
  ]

  const OrgBLeads: seq<Lead> := [
    Lead(6, "Alex Kumar", "+91-9876-543-210", "new", "2025-01-16", "alex.kumar@example.com"),
    Lead(7, "Priya Sharma", "+91-9876-543-211", "qualified", "2025-01-13", "priya.sharma@example.com"),
    Lead(8, "Rajesh Patel", "+91-9876-543-212", "contacted", "2025-01-11", "rajesh.patel@example.com"),
    Lead(9, "Anita Desai", "+91-9876-543-213", "new", "2025-01-08", "anita.desai@example.com")
  ]

  const OrgBCalls: seq<Call> := [
    Call(5, 6, "Alex Kumar", "2025-01-16 11:00", "20 mins", "interested", "Very interested in enterprise plan"),
    Call(6, 7, "Priya Sharma", "2025-01-13 15:30", "10 mins", "interested", "Asked for pricing details"),
    Call(7, 8, "Rajesh Patel", "2025-01-12 10:00", "18 mins", "callback", "Schedule follow-up call")
  ]

  /** mockData */
  const Fixture: map<string, Tenant> := map[
    "org-a" := Tenant("org-a", "Organization A", OrgALeads, OrgACalls),
    "org-b" := Tenant("org-b", "Organization B", OrgBLeads, OrgBCalls)
  ]

  /** Every entry's `id` equals the key it is filed under. */
  ghost predicate IdsMatchKeys(dir: map<string, Tenant>)
  {
    forall t :: t in dir ==> dir[t].id == t
  }

  /** Every call names a lead of its own tenant, and copies that lead's name. */
  ghost predicate CallsReferToOwnLeads(dir: map<string, Tenant>)
  {
    forall t, c :: t in dir && c in dir[t].calls ==>
      exists l :: l in dir[t].leads && l.id == c.leadId && l.name == c.leadName
  }

  /** No two lead positions, in the same tenant or in two tenants, share an id. */
  ghost predicate LeadIdsUnique(dir: map<string, Tenant>)
  {
    forall t, u, i, j ::
      (t in dir && u in dir && 0 <= i < |dir[t].leads| && 0 <= j < |dir[u].leads| &&
       dir[t].leads[i].id == dir[u].leads[j].id) ==> t == u && i == j
  }

  /** No two call positions, in the same tenant or in two tenants, share an id. */
  ghost predicate CallIdsUnique(dir: map<string, Tenant>)
  {
    forall t, u, i, j ::
      (t in dir && u in dir && 0 <= i < |dir[t].calls| && 0 <= j < |dir[u].calls| &&
       dir[t].calls[i].id == dir[u].calls[j].id) ==> t == u && i == j
  }

  /** Every status and outcome the directory stores has a badge. */
  ghost predicate StatusesKnown(dir: map<string, Tenant>)
  {
    && (forall t, l :: t in dir && l in dir[t].leads ==> l.status in LeadStatusColors)
    && (forall t, c :: t in dir && c in dir[t].calls ==> c.outcome in CallOutcomeColors)
  }

  ghost predicate WellFormed(dir: map<string, Tenant>)
  {
    && IdsMatchKeys(dir)
    && CallsReferToOwnLeads(dir)
    && LeadIdsUnique(dir)
    && CallIdsUnique(dir)
    && StatusesKnown(dir)
  }

  /** getLeadsByTenant: the tenant's leads in fixture order, or none for an unknown id. */
  function GetLeadsByTenant(tenantId: string): (leads: seq<Lead>)
    ensures tenantId in Fixture ==> leads == Fixture[tenantId].leads
    ensures tenantId !in Fixture ==> leads == []
  {
    if tenantId in Fixture then Fixture[tenantId].leads else []
  }

  /** getCallsByTenant: the tenant's calls in fixture order, or none for an unknown id. */
  function GetCallsByTenant(tenantId: string): (calls: seq<Call>)
    ensures tenantId in Fixture ==> calls == Fixture[tenantId].calls
    ensures tenantId !in Fixture ==> calls == []
  {
    if tenantId in Fixture then Fixture[tenantId].calls else []
  }

  /**
   * getTenantById: present exactly for the directory's tenants, and then it
   * carries the id asked for and that tenant's name; `null` otherwise.
   */
  function GetTenantById(tenantId: string): (info: Option<TenantInfo>)
    ensures info.Some? <==> tenantId in Fixture
    ensures info.Some? ==> info.value == TenantInfo(tenantId, Fixture[tenantId].name)
  {
    if tenantId in Fixture then
      var tenant := Fixture[tenantId];
      Some(TenantInfo(tenant.id, tenant.name))
    else
      None
  }

  /**
   * getTenants: a literal list that names each directory tenant exactly once,
   * each entry being what `GetTenantById` returns for its id.
   */
  function GetTenants(): (ts: seq<TenantInfo>)
    ensures forall i :: 0 <= i < |ts| ==> GetTenantById(ts[i].id) == Some(ts[i])
    ensures forall t :: t in Fixture ==> exists i :: 0 <= i < |ts| && ts[i].id == t
    ensures forall i, j :: 0 <= i < j < |ts| ==> ts[i].id != ts[j].id
  {
    var ts := [TenantInfo("org-a", "Organization A"), TenantInfo("org-b", "Organization B")];
    assert ts[0].id == "org-a" && ts[1].id == "org-b";
    ts
  }

  /** The fixture satisfies every directory invariant. */
  lemma FixtureWellFormed()
    ensures WellFormed(Fixture)
  {
    FixtureCallsReferToOwnLeads();
    FixtureLeadIdsUnique();
    FixtureCallIdsUnique();
    FixtureStatusesKnown();
  }

  /** In both tenants the k-th call is about the k-th lead. */
  lemma FixtureCallsReferToOwnLeads()
    ensures CallsReferToOwnLeads(Fixture)
  {
    forall t, c | t in Fixture && c in Fixture[t].calls
      ensures exists l :: l in Fixture[t].leads && l.id == c.leadId && l.name == c.leadName
    {
      var ls, cs := Fixture[t].leads, Fixture[t].calls;
      var k :| 0 <= k < |cs| && cs[k] == c;
      if t == "org-a" {
        assert ls == OrgALeads && cs == OrgACalls;
      } else {
        assert ls == OrgBLeads && cs == OrgBCalls;
      }
      assert ls[k].id == c.leadId && ls[k].name == c.leadName;
    }
  }

  /** Lead ids run 1..5 in org-a and 6..9 in org-b. */
  lemma FixtureLeadIdsUnique()
    ensures LeadIdsUnique(Fixture)
  {
    assert forall k :: 0 <= k < |OrgALeads| ==> OrgALeads[k].id == k + 1;
    assert forall k :: 0 <= k < |OrgBLeads| ==> OrgBLeads[k].id == k + 6;
    forall t, u, i, j |
      t in Fixture && u in Fixture && 0 <= i < |Fixture[t].leads| && 0 <= j < |Fixture[u].leads| &&
      Fixture[t].leads[i].id == Fixture[u].leads[j].id
      ensures t == u && i == j
    {
      assert Fixture[t].leads == if t == "org-a" then OrgALeads else OrgBLeads;
      assert Fixture[u].leads == if u == "org-a" then OrgALeads else OrgBLeads;
    }
  }

  /** Call ids run 1..4 in org-a and 5..7 in org-b. */
  lemma FixtureCallIdsUnique()
    ensures CallIdsUnique(Fixture)
  {
    assert forall k :: 0 <= k < |OrgACalls| ==> OrgACalls[k].id == k + 1;
    assert forall k :: 0 <= k < |OrgBCalls| ==> OrgBCalls[k].id == k + 5;
    forall t, u, i, j |
      t in Fixture && u in Fixture && 0 <= i < |Fixture[t].calls| && 0 <= j < |Fixture[u].calls| &&
      Fixture[t].calls[i].id == Fixture[u].calls[j].id
      ensures t == u && i == j
    {
      assert Fixture[t].calls == if t == "org-a" then OrgACalls else OrgBCalls;
      assert Fixture[u].calls == if u == "org-a" then OrgACalls else OrgBCalls;
    }
  }

  /** Every fixture status and outcome is a key of its badge table. */
  lemma FixtureStatusesKnown()
    ensures StatusesKnown(Fixture)
  {
    forall t, l | t in Fixture && l in Fixture[t].leads
      ensures l.status in LeadStatusColors
    {
      var ls := Fixture[t].leads;
      var k :| 0 <= k < |ls| && ls[k] == l;
      if t == "org-a" { assert ls == OrgALeads; } else { assert ls == OrgBLeads; }
    }
    forall t, c | t in Fixture && c in Fixture[t].calls
      ensures c.outcome in CallOutcomeColors
    {
      var cs := Fixture[t].calls;
      var k :| 0 <= k < |cs| && cs[k] == c;
      if t == "org-a" { assert cs == OrgACalls; } else { assert cs == OrgBCalls; }
    }
  }

  /** org-a holds 5 leads and 4 calls; org-b holds 4 leads and 3 calls. */
  lemma FixtureSizes()
    ensures |GetLeadsByTenant("org-a")| == 5 && |GetCallsByTenant("org-a")| == 4
    ensures |GetLeadsByTenant("org-b")| == 4 && |GetCallsByTenant("org-b")| == 3
  {
  }

  /** Two different tenants never hand out a lead, or a lead id, in common. */
  lemma TenantsShareNoLeads(t: string, u: string)
    requires t != u
    ensures forall l, m :: l in GetLeadsByTenant(t) && m in GetLeadsByTenant(u) ==> l.id != m.id
  {
  }

  /** Two different tenants never hand out a call, or a call id, in common. */
  lemma TenantsShareNoCalls(t: string, u: string)
    requires t != u
    ensures forall c, d :: c in GetCallsByTenant(t) && d in GetCallsByTenant(u) ==> c.id != d.id
  {
  }
}
