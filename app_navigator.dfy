/** The root stack navigator: which screens exist, and which one opens first, depending on
    whether an access token is present. */
module AppNavigator {
  import opened Common

  /** `!!accessToken`: a missing or empty token is not authenticated. */
  predicate IsAuthenticated(accessToken: Option<string>)
  {
    accessToken.Some? && accessToken.value != ""
  }

  function InitialRoute(accessToken: Option<string>): string
  {
    if IsAuthenticated(accessToken) then "MainAppScreen" else "Landing"
  }

  const GuestScreens: set<string> := {"Landing", "Login", "ForgotPassword", "ResetPassword"}
  const SignedInScreens: set<string> := {"MainAppScreen", "Profile", "PromotionDetail"}

  /** The screens registered in the stack. */
  function Screens(accessToken: Option<string>): set<string>
  {
    if IsAuthenticated(accessToken) then SignedInScreens else GuestScreens
  }

  /** Whether a registered screen shows a header, and whether it is the custom one. */
  datatype Header = NoHeader | CustomHeader

  function HeaderOf(screen: string): (r: Header)
    ensures r == CustomHeader <==> screen == "MainAppScreen"
  {
    if screen == "MainAppScreen" then CustomHeader else NoHeader
  }

  /** The initial route is always one of the registered screens; the two screen sets are
      disjoint, so no screen survives a change of authentication; the login screen is reachable
      only without a token and the profile only with one. */
  lemma NavigatorShape(accessToken: Option<string>, other: Option<string>)
    ensures InitialRoute(accessToken) in Screens(accessToken)
    ensures IsAuthenticated(accessToken) != IsAuthenticated(other) ==>
              Screens(accessToken) * Screens(other) == {}
    ensures "Login" in Screens(accessToken) <==> !IsAuthenticated(accessToken)
    ensures "Profile" in Screens(accessToken) <==> IsAuthenticated(accessToken)
  {
    assert "Landing"[0] !in {'M', 'P'} && "Login"[0] !in {'M', 'P'};
    assert "ForgotPassword"[0] !in {'M', 'P'} && "ResetPassword"[0] !in {'M', 'P'};
  }
}
