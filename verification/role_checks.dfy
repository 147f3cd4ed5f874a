/** The two admin checks of the system side by side: the backend compares
    the role ignoring case, the client compares it exactly. */
module RoleChecks {
  import opened Wrappers
  import Text
  import Api
  import CourseController

  /** A role of "Admin" passes the backend's check but the client hides the
      admin controls for it. */
  lemma CapitalisedAdminDisagrees()
    ensures CourseController.EqualsIgnoreCase("Admin", "admin")
    ensures !Api.ShowsAdminControls(Some("Admin"))
  {
    CourseController.AdminInAnyCase("Admin");
  }

  /** Whenever the client shows the admin controls for a role, the backend
      accepts that role as admin. */
  lemma ClientGateImpliesBackendGate(role: Option<string>)
    requires Api.ShowsAdminControls(role)
    ensures CourseController.EqualsIgnoreCase(role.value, "admin")
  {
  }
}
