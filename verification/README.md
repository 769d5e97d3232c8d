# Multi-tenant sales dashboard: a Dafny model

This project models the decision logic of a browser dashboard that shows sales
leads and call logs for one organisation (tenant) at a time. What a user sees
depends on their role. The model covers:

- the role/permission table and the `hasPermission` check;
- the session context: current tenant, role and user, with setters for tenant and role;
- the in-memory tenant directory (the fixture) and its tenant-scoped accessors;
- the choices the view components make: the lead status filter, the
  Denied → Loading → Empty → Populated precedence of the leads and call-logs
  modules, the Add Lead control, the permission gate, the tab bar, and
  which module the dashboard renders for the active tab;
- the status and outcome enumerations and their badge tables.

Roles, permissions, tenant ids and filter values are plain strings, as in the
source, so a value that is not a key of the table or the directory can be
passed. The model treats the tables as maps with only their own keys, so such a
value yields no permissions, no data and no tenant record. The source does the
same for ordinary unknown strings. It does not for strings that name a member
JavaScript objects inherit (such as "constructor" or "toString"); see "## Left out".
The closed enumerations `Permissions.Role`, `Permissions.Permission`,
`Constants.LeadStatus` and `Constants.CallOutcome` name the known values.
Lemmas tie the string tables to these enumerations.

State that the source keeps in React state slots is modelled as classes
whose methods overwrite fields:

- `TenantContext.Session` holds the current tenant, role and user.
- `Leads.LeadsModule` holds the status filter.
- `Dashboard.DashboardState` holds the active tab.

Everything else is pure functions and lemmas. There is one module per source
file. `RenderStates` holds the shared four-way render result, and `Scenarios`
combines the modules into end-to-end statements.

## Model

| member | source | states |
|---|---|---|
| `Constants.StatusBadge` | src/utils/constants.js:19-29 | the colour-table lookup is defined for every lead status; each status has its fixed label |
| `Constants.OutcomeBadge` | src/utils/constants.js:38-51 | the colour-table lookup is defined for every call outcome; each outcome has its fixed label ("not-interested" is "Not Interested") |
| `Constants.LeadStatusesDistinct` | src/utils/constants.js:11-17 | exactly five statuses, each listed once, with pairwise-distinct strings |
| `Constants.CallOutcomesDistinct` | src/utils/constants.js:31-36 | exactly four outcomes, each listed once, with pairwise-distinct strings |
| `Constants.LeadStatusColorsKeys` | src/utils/constants.js:11-29 | the keys of the status colour table are exactly the status values |
| `Constants.CallOutcomeColorsKeys` | src/utils/constants.js:31-51 | the keys of the outcome colour table are exactly the outcome values |
| `Constants.TabIdsDistinct` | src/utils/constants.js:53-56 | the tab ids "leads" and "calls" differ |
| `Permissions.PermissionsOf` | src/utils/permissions.js:5-16 | a role's permission list; empty for a role without a table entry |
| `Permissions.AgentGrantsExactly` | src/utils/permissions.js:15 | the agent role grants view_leads and view_calls and nothing else |
| `Permissions.AdminGrantsExactly` | src/utils/permissions.js:6-14 | the admin role grants exactly the seven listed permissions; edit_leads is granted to admin and not to agent |
| `Permissions.AgentWithinAdmin` | src/utils/permissions.js:6-15 | every permission agent has, admin has too |
| `Permissions.TableCoversRoles` | src/utils/permissions.js:5-24 | every ROLES value has a table entry and the table names no other role |
| `Permissions.TableUsesKnownPermissions` | src/utils/permissions.js:5-37 | every permission name in the table is a PERMISSIONS value |
| `Permissions.PermissionNamesDistinct` | src/utils/permissions.js:29-37 | the PERMISSIONS strings are pairwise distinct |
| `Permissions.TableAgreesWithGrants` | src/utils/permissions.js:5-16 | the string table and the enumerated grants agree, for every role and permission in both directions |
| `TenantContext.RoleAllows` | src/context/TenantContext.jsx:16-21 | true exactly when the strings name a known role and a permission that role grants; false for every permission under a role the table does not know |
| `TenantContext.Session.constructor` | src/context/TenantContext.jsx:7-9 | a session starts with tenant "org-a", role "admin" and user "John Doe" |
| `TenantContext.Session.HasPermission` | src/context/TenantContext.jsx:18 | membership of the permission in the current role's list; reads nothing but the role |
| `TenantContext.Session.SetCurrentTenant` | src/context/TenantContext.jsx:7 | replaces the tenant unchecked; role, user and every permission unchanged; setting the current tenant again changes nothing |
| `TenantContext.Session.SetCurrentRole` | src/context/TenantContext.jsx:8 | replaces the role unchecked; tenant and user unchanged; permissions become the new role's, none for an unknown role |
| `MockData.GetLeadsByTenant` | src/utils/mockData.js:170-172 | the tenant's leads in fixture order, empty for an unknown tenant |
| `MockData.GetCallsByTenant` | src/utils/mockData.js:177-179 | the tenant's calls in fixture order, empty for an unknown tenant |
| `MockData.GetTenantById` | src/utils/mockData.js:184-187 | `{id, name}` with the requested id for a known tenant, absent otherwise |
| `MockData.GetTenants` | src/utils/mockData.js:162-165 | names every directory tenant exactly once, each entry equal to what the id lookup returns |
| `MockData.FixtureWellFormed` | src/utils/mockData.js:5-157 | the fixture satisfies every directory invariant: ids match keys, calls refer to their tenant's leads, ids are unique, statuses and outcomes are known |
| `MockData.FixtureCallsReferToOwnLeads` | src/utils/mockData.js:51-155 | each call's leadId names a lead of the same tenant, and its leadName equals that lead's name |
| `MockData.FixtureLeadIdsUnique` | src/utils/mockData.js:9-126 | no two lead positions share an id, within a tenant or across tenants |
| `MockData.FixtureCallIdsUnique` | src/utils/mockData.js:51-155 | no two call positions share an id, within a tenant or across tenants |
| `MockData.FixtureStatusesKnown` | src/utils/mockData.js:9-155 | every stored status and outcome has a colour-table entry, so the table lookups never miss |
| `MockData.FixtureSizes` | src/utils/mockData.js:9-155 | org-a has 5 leads and 4 calls; org-b has 4 leads and 3 calls |
| `MockData.TenantsShareNoLeads` | src/utils/mockData.js:170-172 | two different tenant ids never yield leads with a common id |
| `MockData.TenantsShareNoCalls` | src/utils/mockData.js:177-179 | two different tenant ids never yield calls with a common id |
| `PermissionGate.Gate` | src/components/Common/PermissionGate.jsx:10-21 | children if and only if the permission holds; the fallback in the denial box if and only if it fails and a fallback is given; nothing if and only if it fails and none is given (the default) |
| `PermissionGate.GateDependsOnPermissionAndFallback` | src/components/Common/PermissionGate.jsx:13-21 | the outcome depends only on the permission's result and on the fallback |
| `Leads.FilterByStatus` | src/components/Leads/LeadsModule.jsx:28 | never longer than the input; every lead kept has the requested status |
| `Leads.FilterMembership` | src/components/Leads/LeadsModule.jsx:28 | a lead is kept if and only if it occurs in the input with the requested status |
| `Leads.FilterPicksMatching` | src/components/Leads/LeadsModule.jsx:28 | the k-th lead kept is the lead at the k-th matching position. The matching positions are exactly those with the requested status, in increasing order, so the result is the matching leads in their original relative order |
| `Leads.DisplayedLeads` | src/components/Leads/LeadsModule.jsx:25-29 | the whole list for "all"; otherwise the status filter, so exactly the leads of the chosen status in their original relative order; never more than the total |
| `Leads.LeadsView` | src/components/Leads/LeadsModule.jsx:31-70 | Denied without view_leads, whatever the loading flag and data; then Loading; then Empty if and only if nothing is displayed; Populated if and only if permitted, not loading and something is displayed, and then with exactly the displayed leads, all of them the tenant's |
| `Leads.DeniedIsGateFallback` | src/components/Leads/LeadsModule.jsx:31-38 | a denial is the gate's fallback box with the leads denial notice |
| `Leads.AddLeadControl` | src/components/Leads/LeadsModule.jsx:45-49 | the Add Lead control is shown if and only if the role has edit_leads, and nothing replaces it otherwise |
| `Leads.ShowingCounts` | src/components/Leads/LeadsModule.jsx:56 | the shown count is the length of the displayed list, the total is the tenant's lead count, and the first never exceeds the second |
| `Leads.LeadsModule.constructor` | src/components/Leads/LeadsModule.jsx:18 | the status filter starts as "all" |
| `Leads.LeadsModule.SetStatusFilter` | src/components/Leads/LeadsModule.jsx:54 | stores any filter string; for a filter other than "all", the leads displayed afterwards are exactly the tenant's leads of that status |
| `Leads.LeadsModule.Render` | src/components/Leads/LeadsModule.jsx:17-20 | the leads view for the session's current role and tenant and the module's filter; rows shown only under view_leads, always from the current tenant, all of the chosen status |
| `CallLogs.CallsView` | src/components/CallLogs/CallLogsModule.jsx:15-44 | Denied without view_calls; then Loading (off by default); then Empty if and only if the tenant has no calls; otherwise the tenant's full call list, unfiltered |
| `CallLogs.DeniedIsGateFallback` | src/components/CallLogs/CallLogsModule.jsx:20-27 | a denial is the gate's fallback box with the call-logs denial notice |
| `CallLogs.ShownCallsReferToTenantLeads` | src/components/CallLogs/CallLogsModule.jsx:18-43 | every call shown refers to a lead of the same tenant and carries that lead's name |
| `TabNavigation.Button` | src/components/Layout/TabNavigation.jsx:33-41 | a tab button is marked selected if and only if the active tab is its id |
| `TabNavigation.Buttons` | src/components/Layout/TabNavigation.jsx:28-47 | a button appears for a tab if and only if the role holds that tab's permission; each button is selected if and only if it is the active tab |
| `TabNavigation.VisibleTabs` | src/components/Layout/TabNavigation.jsx:13-32 | the bar is the leads tab (needs view_leads), then the calls tab (needs view_calls), and nothing else |
| `TabNavigation.AtMostOneSelected` | src/components/Layout/TabNavigation.jsx:36-41 | at most one tab is selected, and none when the active tab is not a tab id |
| `Dashboard.RenderedModules` | src/components/Layout/Dashboard.jsx:23-24 | the leads module if and only if the active tab is "leads"; the call-logs module if and only if it is "calls"; at most one, and none for any other value |
| `Dashboard.DashboardState.constructor` | src/components/Layout/Dashboard.jsx:13 | the active tab starts as "leads", so only the leads module is rendered |
| `Dashboard.DashboardState.SetActiveTab` | src/components/Layout/Dashboard.jsx:13-20 | the tab bar's setter stores the clicked tab's id and switches the rendered module |
| `Scenarios.AdminInOrgA` | src/components/Leads/LeadsModule.jsx:20-70 | an admin in org-a sees all five of org-a's leads and the Add Lead control |
| `Scenarios.AgentInOrgA` | src/components/Leads/LeadsModule.jsx:31-49 | an agent in org-a sees the five leads without Add Lead, and org-a's four calls |
| `Scenarios.SwitchToOrgB` | src/components/Leads/LeadsModule.jsx:20 | after switching to org-b the four org-b leads are shown, none of them org-a's |
| `Scenarios.AgentDeniedSettings` | src/components/Common/PermissionGate.jsx:13-21 | a screen gated on view_settings shows an agent only the denial box, and shows an admin its content |
| `Scenarios.QualifiedInOrgA` | src/components/Leads/LeadsModule.jsx:25-29 | filtering org-a by "qualified" shows Sarah Johnson, then David Lee |
| `Scenarios.UnknownRoleSeesDenial` | src/components/Layout/Dashboard.jsx:13-24 | a role without a table entry sees no tab, yet the initial leads module is still rendered, and it shows the denial |

## Left out

- JSX markup, CSS class strings, icons and the icon-library imports are presentation. The model keeps only each component's decision: the render state, the visible tab buttons and the gate outcome.
- `src/components/Leads/LeadsTable.jsx` and `src/components/CallLogs/CallLogsTable.jsx` only map rows to cells. Their one table lookup is covered by `Constants.StatusBadge` and `Constants.OutcomeBadge`.
- The loading, empty, header and app components are presentational and are not modelled. `RenderStates` only records which placeholder is shown.
- The open/closed state of the tenant and role dropdowns is UI toggling. Their only effect on the core is calling `SetCurrentTenant` and `SetCurrentRole`.
- `useTenant` throws when used outside a provider. This is framework wiring and is not modelled; every view here takes the session's role and tenant directly.
- `useMemo` and `useCallback` only memoise, and re-render propagation is the framework's job. The model recomputes each view from the current state.
- A module loses its own state when React unmounts it. For example, switching tabs away from the leads module and back resets its filter to "all". The model keeps one `Leads.LeadsModule` object and does not capture this.
- The filter control offers only "all", "new", "contacted" and "qualified". The model accepts any filter string.
- `APP_CONFIG` is not used by any modelled logic.
- Dates, durations, phone numbers, e-mails and notes are opaque strings and are never parsed.
- `PermissionGate.Gate`: the fallback is a React node in the source and a string here. Only the empty string is modelled among the falsy values a node can take.
- `TenantContext.RoleAllows`: the model treats a role as a table entry only if it is an own key of the table, and gives any other role no permissions. In the source, a role that names an inherited member of a JavaScript object (for example "constructor", "toString", "valueOf" or "__proto__") makes `rolePermissions[role]` a function or the object prototype. The `?.` does not stop there, and the `.includes` call throws a TypeError.
- `TenantContext.Session.HasPermission`: for a current role that names an inherited object member, the source throws instead of returning false. The model returns false.
- `TenantContext.Session.SetCurrentRole`: "no permissions for a role the table does not know" holds in the source only for roles that are not inherited object members. For those, every later permission check throws.
- `MockData.GetTenantById`: the model returns absent for every id outside the fixture. The source returns a record for an id that names an inherited object member. For example, "constructor" gives an undefined id and the name "Object". The leads and calls lookups are not affected: their `|| []` default applies to those ids too.
- `Scenarios.UnknownRoleSeesDenial`: it covers roles outside the table that are not inherited object members. For those, the source's tab bar and leads module throw on the permission check rather than showing no tab and the denial.
- Nothing in the repository sets the modules' `isLoading` flag. It is a parameter of `Leads.LeadsView` and `CallLogs.CallsView` and defaults to false.
