/**
 * The role/permission table (src/utils/permissions.js).
 *
 * `RolePermissions` is the table exactly as the source keeps it: role names
 * to lists of permission names, both plain strings.  `Role` and `Permission`
 * are the closed enumerations ROLES and PERMISSIONS.  `Grants` restates the
 * table over those enumerations, and `TableAgreesWithGrants` proves the two
 * agree, so either may be used to reason about what a role may do.
 */
module Permissions {

  /** ROLES */
  datatype Role = Admin | Agent
  {
    function Id(): string
    {
      match this
      case Admin => "admin"
      case Agent => "agent"
    }
  }

  /** PERMISSIONS */
  datatype Permission =
    | ViewLeads | EditLeads | CreateLeads | DeleteLeads
    | ViewCalls | ViewSettings | AccessAllFeatures
  {
    function Name(): string
    {
      match this
      case ViewLeads => "view_leads"
      case EditLeads => "edit_leads"
      case CreateLeads => "create_leads"
      case DeleteLeads => "delete_leads"
      case ViewCalls => "view_calls"
      case ViewSettings => "view_settings"
      case AccessAllFeatures => "access_all_features"
    }
  }

  /** rolePermissions */
  const RolePermissions: map<string, seq<string>> := map[
    "admin" := ["view_leads", "edit_leads", "create_leads", "delete_leads",
                "view_calls", "view_settings", "access_all_features"],
    "agent" := ["view_leads", "view_calls"]
  ]

  /**
   * The permission list of a role name; a name without a table entry has
   * none (the `?.` / `|| false` default of the lookup).
   */
  function PermissionsOf(role: string): (ps: seq<string>)
    ensures role !in RolePermissions ==> ps == []
    ensures role in RolePermissions ==> ps == RolePermissions[role]
  {
    if role in RolePermissions then RolePermissions[role] else []
  }

  /** What each role is meant to grant, over the enumerations. */
  function Grants(r: Role): set<Permission>
  {
    match r
    case Admin => {ViewLeads, EditLeads, CreateLeads, DeleteLeads, ViewCalls, ViewSettings, AccessAllFeatures}
    case Agent => {ViewLeads, ViewCalls}
  }

  /** The agent role grants exactly view_leads and view_calls. */
  lemma AgentGrantsExactly()
    ensures forall p: string :: p in PermissionsOf("agent") <==> p == "view_leads" || p == "view_calls"
  {
  }

  /** The admin role grants exactly the seven listed permissions, edit_leads among them. */
  lemma AdminGrantsExactly()
    ensures forall p: string :: p in PermissionsOf("admin") <==>
      p in {"view_leads", "edit_leads", "create_leads", "delete_leads",
            "view_calls", "view_settings", "access_all_features"}
    ensures "edit_leads" in PermissionsOf("admin") && "edit_leads" !in PermissionsOf("agent")
  {
  }

  /** Every permission the agent role grants, the admin role grants too. */
  lemma AgentWithinAdmin()
    ensures forall p: string :: p in PermissionsOf("agent") ==> p in PermissionsOf("admin")
  {
  }

  /**
   * The table's keys are exactly the ROLES values: every role has an entry
   * and the table names no other role.
   */
  lemma TableCoversRoles()
    ensures forall r: Role :: r.Id() in RolePermissions
    ensures forall name :: name in RolePermissions ==> exists r: Role :: r.Id() == name
  {
    forall name | name in RolePermissions
      ensures exists r: Role :: r.Id() == name
    {
      if name == "admin" { assert Admin.Id() == name; } else { assert Agent.Id() == name; }
    }
  }

  /** Every permission name in the table is one of the PERMISSIONS values. */
  lemma TableUsesKnownPermissions()
    ensures forall role, p :: role in RolePermissions && p in RolePermissions[role] ==>
      exists q: Permission :: q.Name() == p
  {
    forall role, p | role in RolePermissions && p in RolePermissions[role]
      ensures exists q: Permission :: q.Name() == p
    {
      assert p in RolePermissions["admin"];
      if p == "view_leads" { assert ViewLeads.Name() == p; }
      else if p == "edit_leads" { assert EditLeads.Name() == p; }
      else if p == "create_leads" { assert CreateLeads.Name() == p; }
      else if p == "delete_leads" { assert DeleteLeads.Name() == p; }
      else if p == "view_calls" { assert ViewCalls.Name() == p; }
      else if p == "view_settings" { assert ViewSettings.Name() == p; }
      else { assert AccessAllFeatures.Name() == p; }
    }
  }

  /** The PERMISSIONS values are pairwise distinct. */
  lemma PermissionNamesDistinct()
    ensures forall a: Permission, b: Permission :: a.Name() == b.Name() ==> a == b
  {
  }

  /**
   * The string table and the enumerated grants agree: a role's list holds a
   * permission's name exactly when that role grants that permission.
   */
  lemma TableAgreesWithGrants()
    ensures forall r: Role, p: Permission :: p.Name() in PermissionsOf(r.Id()) <==> p in Grants(r)
  {
  }
}
