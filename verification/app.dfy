/** The root shell: the login screen when signed out, otherwise one of the
    two list screens chosen by the current page. */
module App {
  import opened Wrappers
  import opened AuthContext
  import Api

  datatype Page = CoursesPage | SpecialisationsPage

  datatype Screen = LoginScreen | CoursesScreen | SpecialisationsScreen

  /** `AppContent`'s choice of screen. */
  function AppContent(authenticated: bool, page: Page): (s: Screen)
    ensures !authenticated <==> s == LoginScreen
    ensures authenticated ==> (s == SpecialisationsScreen <==> page == SpecialisationsPage)
    ensures authenticated ==> (s == CoursesScreen <==> page != SpecialisationsPage)
  {
    if !authenticated then LoginScreen
    else if page == SpecialisationsPage then SpecialisationsScreen
    else CoursesScreen
  }

  /** The shell's page state, which is not persisted. */
  class Shell {
    var currentPage: Page

    constructor ()
      ensures currentPage == CoursesPage
    {
      currentPage := CoursesPage;
    }

    /** What the app shows for the current session and page. */
    function Render(auth: AuthProvider): (s: Screen)
      reads this, auth
      ensures s == LoginScreen <==> auth.token.None? || auth.token.value == ""
      ensures s == SpecialisationsScreen <==> auth.IsAuthenticated() && currentPage == SpecialisationsPage
    {
      AppContent(auth.IsAuthenticated(), currentPage)
    }

    /** The courses screen's `onNavigateToSpecialisations`. */
    method NavigateToSpecialisations()
      modifies this
      ensures currentPage == SpecialisationsPage
    {
      currentPage := SpecialisationsPage;
    }

    /** The specialisations screen's `onNavigateToCourses`. */
    method NavigateToCourses()
      modifies this
      ensures currentPage == CoursesPage
    {
      currentPage := CoursesPage;
    }
  }

  /** From a signed-out start, signing in with any non-empty token turns the
      login screen into the courses screen, with the admin controls shown
      exactly when the role is "admin". */
  method SignIn(token: string, role: string) returns (before: Screen, after: Screen, adminControls: bool)
    requires token != ""
    ensures before == LoginScreen && after == CoursesScreen
    ensures adminControls <==> role == "admin"
  {
    var storage := new LocalStorage(map[]);
    var auth := new AuthProvider(storage);
    var shell := new Shell();
    before := shell.Render(auth);
    auth.Login(token, role);
    after := shell.Render(auth);
    adminControls := Api.ShowsAdminControls(auth.role);
  }

  /** Signed in, the navigation callbacks switch between the two list
      screens, and a reload starts again on the courses screen. */
  method NavigateWhileSignedIn(auth: AuthProvider) returns (afterToSpecs: Screen, afterToCourses: Screen, afterReload: Screen)
    requires auth.IsAuthenticated()
    ensures afterToSpecs == SpecialisationsScreen && afterToCourses == CoursesScreen && afterReload == CoursesScreen
  {
    var shell := new Shell();
    shell.NavigateToSpecialisations();
    afterToSpecs := shell.Render(auth);
    shell.NavigateToCourses();
    afterToCourses := shell.Render(auth);
    shell.NavigateToSpecialisations();
    var reloaded := new Shell();
    afterReload := reloaded.Render(auth);
  }
}
