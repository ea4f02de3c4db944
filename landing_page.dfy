// The landing page's "Get Started" button: where it navigates, given the values
// stored in the session.
module LandingPage {
  import opened Outcomes

  /** `sessionStorage.getItem('isLoggedIn') === 'true'`. */
  predicate LoggedIn(stored: Option<string>) {
    stored == Some("true")
  }

  /** `!userRole`: no stored role, or the empty string. */
  predicate NoRole(role: Option<string>) {
    role.None? || role == Some("")
  }

  /** `handleGetStarted`: the path it pushes, or `None` when it does not navigate. */
  function GetStarted(isLoggedIn: Option<string>, userRole: Option<string>): (r: Option<string>)
    ensures !LoggedIn(isLoggedIn) <==> r == Some("/register")
    ensures LoggedIn(isLoggedIn) && userRole == Some("company") <==> r == Some("/company/dashboard")
    ensures LoggedIn(isLoggedIn) && (userRole == Some("coach") || NoRole(userRole)) <==> r == Some("/analyze")
    ensures r.None? <==> LoggedIn(isLoggedIn) && !NoRole(userRole) && userRole.value != "company" && userRole.value != "coach"
  {
    if LoggedIn(isLoggedIn) then
      if userRole == Some("company") then Some("/company/dashboard")
      else if userRole == Some("coach") || NoRole(userRole) then Some("/analyze")
      else None
    else Some("/register")
  }

  /** Any stored value other than exactly `"true"` counts as logged out, for every role. */
  lemma OnlyTrueLogsIn(isLoggedIn: Option<string>, userRole: Option<string>)
    requires isLoggedIn != Some("true")
    ensures GetStarted(isLoggedIn, userRole) == Some("/register")
  {
  }

  /** An individual account gets no navigation. */
  lemma IndividualStays()
    ensures GetStarted(Some("true"), Some("individual")).None?
  {
  }
}
