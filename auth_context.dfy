/**
 * The frontend's session: `AuthProvider` keeps the signed-in user, a loading flag
 * and the token in browser storage, and changes them on start-up, sign-in,
 * sign-out and a currency change. Each awaited API call is a parameter holding
 * its outcome; navigation is recorded as the last route pushed.
 */
module AuthContext {
  import opened Wrappers
  import opened Ui

  /** The body of a successful `/auth/login` or `/auth/register`. */
  datatype AuthResponse = AuthResponse(token: string, id: nat, username: string, email: string, preferredCurrency: string)

  /** The user the provider keeps after a sign-in: the response without its token. */
  function SignedInUser(response: AuthResponse): (u: SessionUser)
    ensures u.id == response.id && u.username == response.username
    ensures u.email == response.email && u.preferredCurrency == response.preferredCurrency
  {
    SessionUser(response.id, response.username, response.email, response.preferredCurrency)
  }

  /** `if (token)`: a stored token counts only when it is non-empty. */
  predicate HasToken(stored: Option<string>) {
    Truthy(stored)
  }

  /** What the context hands to its consumers. */
  datatype AuthSnapshot = AuthSnapshot(user: Option<SessionUser>, loading: bool)

  const OutsideProvider := "useAuth must be used within an AuthProvider"

  /** `useAuth`: the provider's value, or an error when there is no provider above the caller. */
  function UseAuth(context: Option<AuthSnapshot>): (r: Result<AuthSnapshot>)
    ensures r.Success? <==> context.Some?
    ensures r.Success? ==> r.value == context.value
    ensures r.Failure? ==> r.error == IllegalArgument(OutsideProvider)
  {
    match context
    case Some(c) => Success(c)
    case None => Failure(IllegalArgument(OutsideProvider))
  }

  class AuthProvider {
    var user: Option<SessionUser>
    var loading: bool
    /** The `token` entry of local storage. */
    var storedToken: Option<string>
    /** The last route pushed to the router, if any. */
    var route: Option<string>

    /** A signed-in user always has a token in storage. */
    ghost predicate Valid()
      reads this
    {
      user.Some? ==> storedToken.Some?
    }

    function Snapshot(): (s: AuthSnapshot)
      reads this
      ensures s.user == user && s.loading == loading
    {
      AuthSnapshot(user, loading)
    }

    /** The provider mounts with no user, loading, over whatever storage holds. */
    constructor (stored: Option<string>)
      ensures Valid()
      ensures user.None? && loading && storedToken == stored && route.None?
    {
      user := None;
      loading := true;
      storedToken := stored;
      route := None;
    }

    /**
     * `checkAuth`, run once on mount. With a token the current user is fetched; a
     * failed fetch removes the token. Without a token nothing is fetched. Loading
     * ends in every case.
     */
    method CheckAuth(fetched: ApiOutcome<SessionUser>)
      modifies this
      ensures !loading && route == old(route)
      ensures HasToken(old(storedToken)) && fetched.ApiOk? ==> user == Some(fetched.value) && storedToken == old(storedToken)
      ensures HasToken(old(storedToken)) && fetched.ApiFailed? ==> user == old(user) && storedToken.None?
      ensures !HasToken(old(storedToken)) ==> user == old(user) && storedToken == old(storedToken)
      ensures old(Valid()) && old(user).None? ==> Valid()
    {
      if HasToken(storedToken) {
        match fetched {
          case ApiOk(u) =>
            user := Some(u);
          case ApiFailed(_) =>
            storedToken := None;
        }
      }
      loading := false;
    }

    /** The start of `login` or `register`: loading is set before the request. */
    method BeginSignIn()
      modifies this
      ensures loading
      ensures user == old(user) && storedToken == old(storedToken) && route == old(route)
      ensures old(Valid()) ==> Valid()
    {
      loading := true;
    }

    /**
     * The end of `login` or `register`, which differ only in the request sent. On
     * success the token is stored, the user is taken from the response and the
     * router goes to the dashboard; on failure the error is rethrown (`rethrown`)
     * and nothing but loading changes. Loading ends either way.
     */
    method FinishSignIn(response: ApiOutcome<AuthResponse>) returns (rethrown: bool)
      modifies this
      ensures !loading
      ensures rethrown <==> response.ApiFailed?
      ensures response.ApiOk? ==> (storedToken == Some(response.value.token)
        && user == Some(SignedInUser(response.value)) && route == Some("/dashboard"))
      ensures response.ApiFailed? ==> user == old(user) && storedToken == old(storedToken) && route == old(route)
      ensures old(Valid()) ==> Valid()
    {
      match response {
        case ApiOk(r) =>
          storedToken := Some(r.token);
          user := Some(SignedInUser(r));
          route := Some("/dashboard");
          rethrown := false;
        case ApiFailed(_) =>
          rethrown := true;
      }
      loading := false;
    }

    /** `logout`: the token and the user are dropped and the router goes home. */
    method Logout()
      modifies this
      ensures storedToken.None? && user.None? && route == Some("/")
      ensures loading == old(loading)
      ensures Valid()
    {
      storedToken := None;
      user := None;
      route := Some("/");
    }

    /**
     * `updateCurrency`: after a successful request only the user's preferred
     * currency changes, to the requested one (the response body is not used); a
     * failure is rethrown and changes nothing.
     */
    method UpdateCurrency(currency: string, response: ApiOutcome<SessionUser>) returns (rethrown: bool)
      modifies this
      ensures rethrown <==> response.ApiFailed?
      ensures loading == old(loading) && storedToken == old(storedToken) && route == old(route)
      ensures response.ApiOk? ==> user == (if old(user).Some? then Some(old(user).value.(preferredCurrency := currency)) else None)
      ensures response.ApiFailed? ==> user == old(user)
      ensures old(Valid()) ==> Valid()
    {
      match response
      case ApiOk(_) =>
        if user.Some? {
          user := Some(user.value.(preferredCurrency := currency));
        }
        rethrown := false;
      case ApiFailed(_) =>
        rethrown := true;
    }
  }
}
