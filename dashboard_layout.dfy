/**
 * `DashboardLayout`, which guards every dashboard route: from the session's user
 * and loading flag it decides whether to send the visitor to the login page and
 * what to render.
 */
module DashboardLayout {
  import opened Wrappers
  import opened Ui
  import AuthContext

  /** A spinner, nothing at all, or the page inside the navbar-and-footer shell. */
  datatype LayoutView = Spinner | Blank | Shell

  datatype Decision = Decision(redirectToLogin: bool, view: LayoutView)

  function Decide(user: Option<SessionUser>, loading: bool): (d: Decision)
    ensures d.redirectToLogin <==> !loading && user.None?
    ensures d.view == Spinner <==> loading
    ensures d.view == Blank <==> !loading && user.None?
    ensures d.view == Shell <==> !loading && user.Some?
  {
    Decision(!loading && user.None?, if loading then Spinner else if user.None? then Blank else Shell)
  }

  /** The page is hidden exactly when the visitor is being sent away, or while loading. */
  lemma RedirectExactlyWhenBlank(user: Option<SessionUser>, loading: bool)
    ensures Decide(user, loading).redirectToLogin <==> Decide(user, loading).view == Blank
    ensures Decide(user, loading).view == Shell ==> !Decide(user, loading).redirectToLogin
  {
  }

  /**
   * Opening a dashboard route in a fresh tab: the provider mounts over the stored
   * token and runs its start-up check, then the layout decides. It never settles
   * on the spinner: it shows the dashboard when a token was stored and the user
   * fetch succeeded, and sends the visitor to the login page otherwise.
   */
  method OpenInFreshTab(stored: Option<string>, fetched: ApiOutcome<SessionUser>) returns (d: Decision)
    ensures d.view != Spinner
    ensures d.view == Shell <==> AuthContext.HasToken(stored) && fetched.ApiOk?
    ensures d.redirectToLogin <==> !(AuthContext.HasToken(stored) && fetched.ApiOk?)
  {
    var provider := new AuthContext.AuthProvider(stored);
    provider.CheckAuth(fetched);
    d := Decide(provider.user, provider.loading);
  }
}
