/**
 * The attribute names under which the external application expects each access-control
 * role, per object type: Control and Risk have their own tables and every other type
 * uses the default table.
 */
module RoleAttrNames {
  import opened Wrappers

  const CONTROL_ROLES: map<string, string> := map[
    "Admin" := "owner",
    "Control Operators" := "control_operator",
    "Control Owners" := "control_owner",
    "Principal Assignees" := "principal_assignee",
    "Secondary Assignees" := "secondary_assignee",
    "Other Contacts" := "other_contact"]

  const RISK_ROLES: map<string, string> := map[
    "Admin" := "owner",
    "Risk Owners" := "risk_owner",
    "Other Contacts" := "other_contact"]

  const DEFAULT_ROLES: map<string, string> := map[
    "Admin" := "owner",
    "Primary Contacts" := "contact",
    "Secondary Contacts" := "secondary_contact"]

  /** The table `roleToLinkMap` picks for a model type: its own one, or the defaults. */
  function RolesFor(modelType: string): (roles: map<string, string>)
    ensures modelType == "Control" ==> roles == CONTROL_ROLES
    ensures modelType == "Risk" ==> roles == RISK_ROLES
    ensures modelType != "Control" && modelType != "Risk" ==> roles == DEFAULT_ROLES
  {
    if modelType == "Control" then CONTROL_ROLES
    else if modelType == "Risk" then RISK_ROLES
    else DEFAULT_ROLES
  }

  /** `linkAttrName`: the role's attribute name in the chosen table, or undefined. */
  function LinkAttrName(modelType: string, roleName: string): (r: Option<string>)
    ensures r.Some? <==> roleName in RolesFor(modelType)
    ensures r.Some? ==> r.value == RolesFor(modelType)[roleName]
  {
    var roles := RolesFor(modelType);
    if roleName in roles then Some(roles[roleName]) else None
  }

  /** The admin role is the owner for every type. */
  lemma AdminIsOwner(modelType: string)
    ensures LinkAttrName(modelType, "Admin") == Some("owner")
  {
  }

  /**
   * Control and Risk do not fall back to the defaults: a default role they lack, such as
   * "Primary Contacts", has no attribute name for them, while any other type gets one.
   */
  lemma NoFallbackToDefaults(otherType: string)
    requires otherType != "Control" && otherType != "Risk"
    ensures LinkAttrName("Control", "Primary Contacts").None?
    ensures LinkAttrName("Risk", "Primary Contacts").None?
    ensures LinkAttrName(otherType, "Primary Contacts") == Some("contact")
    ensures LinkAttrName("Control", "Other Contacts") == Some("other_contact")
    ensures LinkAttrName("Risk", "Other Contacts") == Some("other_contact")
  {
    assert "Primary Contacts" !in CONTROL_ROLES;
    assert "Primary Contacts" !in RISK_ROLES;
  }
}
