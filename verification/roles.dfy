/** Which roles see only the pages explicitly assigned to them. */
module Roles {

  /** The role ids whose users are scoped to their assigned pages. */
  const PageScopedRoles: set<string> := {"user", "viewer"}

  /** `needsPageAssignment` of both modals. */
  function NeedsPageAssignment(role: string): (r: bool)
    ensures r <==> role == "user" || role == "viewer"
  {
    role in PageScopedRoles
  }
}
