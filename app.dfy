/** The top-level page switch: which page is selected as the signed-in user
    changes, and which screen is drawn for a page and a user. */
module App {
  import opened Text
  import Auth

  datatype PageId = SignInPage | AdminPage | EmployeePage

  /** What the application draws. */
  datatype Screen = LoadingScreen | AdminScreen | EmployeeScreen | SignInScreen

  /** The page selected once the user (given by its stored role, None when
      nobody is signed in) is known: admins go to the admin page, employees
      to theirs, nobody to sign-in; any other role, and any change while
      loading, keeps the page. */
  function SyncPage(loading: bool, userRole: Option<string>, current: PageId): (p: PageId)
    ensures loading ==> p == current
    ensures !loading && userRole == Some("admin") ==> p == AdminPage
    ensures !loading && userRole == Some("employee") ==> p == EmployeePage
    ensures !loading && userRole.None? ==> p == SignInPage
    ensures !loading && userRole.Some? && userRole.value != "admin" && userRole.value != "employee" ==> p == current
  {
    if !loading && userRole.Some? then
      if userRole.value == "admin" then AdminPage
      else if userRole.value == "employee" then EmployeePage
      else current
    else if !loading && userRole.None? then SignInPage
    else current
  }

  /** The screen for a page: nothing but the loading indicator while
      loading; a dashboard only when the page and the user's role agree;
      the sign-in form in every other case. */
  function Render(loading: bool, page: PageId, userRole: Option<string>): (s: Screen)
    ensures s == LoadingScreen <==> loading
    ensures s == AdminScreen <==> !loading && page == AdminPage && userRole == Some("admin")
    ensures s == EmployeeScreen <==> !loading && page == EmployeePage && userRole == Some("employee")
  {
    if loading then LoadingScreen
    else if page == AdminPage && userRole == Some("admin") then AdminScreen
    else if page == EmployeePage && userRole == Some("employee") then EmployeeScreen
    else SignInScreen
  }

  /** Once loading is over and the page has followed the user, an admin
      sees the admin dashboard, an employee the employee dashboard, and
      anyone else (nobody, or a user with another role) the sign-in form,
      whatever page was selected before. */
  lemma SyncThenRender(userRole: Option<string>, before: PageId)
    ensures Render(false, SyncPage(false, userRole, before), userRole)
      == if userRole == Some("admin") then AdminScreen
         else if userRole == Some("employee") then EmployeeScreen
         else SignInScreen
  {
  }

  /** The page reached after a successful sign-in with the given role. */
  function SignInSuccessPage(role: Auth.Role): (p: PageId)
    ensures p == AdminPage <==> role == Auth.Admin
    ensures p != SignInPage
  {
    if role == Auth.Admin then AdminPage else EmployeePage
  }

  /** The application shell and its selected page. */
  class AppContent {
    var currentPage: PageId

    constructor ()
      ensures currentPage == SignInPage
    {
      currentPage := SignInPage;
    }

    /** Reaction to a change of the signed-in user or of loading. */
    method SyncWithAuth(loading: bool, userRole: Option<string>)
      modifies this
      ensures currentPage == SyncPage(loading, userRole, old(currentPage))
    {
      currentPage := SyncPage(loading, userRole, currentPage);
    }

    method HandleSignInSuccess(role: Auth.Role)
      modifies this
      ensures currentPage == SignInSuccessPage(role)
    {
      currentPage := SignInSuccessPage(role);
    }

    /** Sign-out always returns to the sign-in page. */
    method HandleSignOut()
      modifies this
      ensures currentPage == SignInPage
    {
      currentPage := SignInPage;
    }

    function CurrentScreen(loading: bool, userRole: Option<string>): Screen
      reads this
    {
      Render(loading, currentPage, userRole)
    }
  }
}
