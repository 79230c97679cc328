/**
 * The route gate wrapped around every role-restricted page: a spinner while
 * the session is being restored, a redirect to the login page of the required
 * role when there is no session of that role, and the page otherwise.
 */
module ProtectedRoute {
  import opened Wrappers
  import opened Auth

  datatype Outcome = LoadingIndicator | Redirect(to: string) | RenderChildren

  /** The paths the application's router declares. */
  const DeclaredRoutes: seq<string> := [
    "/", "/recipient",
    "/donor/login", "/donor/register", "/donor/profile", "/donor/donate",
    "/bloodbank/login", "/bloodbank/register", "/bloodbank/profile", "/bloodbank/donors", "/bloodbank/inventory"
  ]

  /** `/${userType}/login` for the role the route requires. */
  function LoginPath(required: UserType): (path: string)
    ensures path in DeclaredRoutes
    ensures required == Donor ==> path == "/donor/login"
    ensures required == BloodBank ==> path == "/bloodbank/login"
  {
    var path := "/" + required.Name() + "/login";
    assert path == if required == Donor then DeclaredRoutes[2] else DeclaredRoutes[6];
    path
  }

  /** The gate's decision from the session state and the role the route requires. */
  function Decide(loading: bool, currentUser: Option<User>, sessionType: Option<UserType>, required: UserType)
    : (o: Outcome)
    ensures loading ==> o == LoadingIndicator
    ensures o == RenderChildren <==> !loading && currentUser.Some? && sessionType == Some(required)
    ensures o.Redirect? <==> !loading && (currentUser.None? || sessionType != Some(required))
    ensures o.Redirect? ==> o.to == LoginPath(required)
  {
    if loading then LoadingIndicator
    else if currentUser.None? || sessionType != Some(required) then Redirect(LoginPath(required))
    else RenderChildren
  }

  /** The gate as the page sees it, reading the session provider. */
  function Gate(auth: AuthProvider, required: UserType): (o: Outcome)
    reads auth
    ensures auth.loading ==> o == LoadingIndicator
    ensures o == RenderChildren <==> !auth.loading && auth.currentUser.Some? && auth.userType == Some(required)
    ensures o.Redirect? <==> !auth.loading && (auth.currentUser.None? || auth.userType != Some(required))
    ensures o.Redirect? ==> o.to == LoginPath(required)
  {
    Decide(auth.loading, auth.currentUser, auth.userType, required)
  }

  /** A session of the other role is turned away even though a user is present, for every pair of roles. */
  lemma WrongRoleRedirects(user: User, sessionType: UserType, required: UserType)
    requires sessionType != required
    ensures Decide(false, Some(user), Some(sessionType), required) == Redirect(LoginPath(required))
  {
  }

  /** Whatever the session, the redirect target depends only on the required role. */
  lemma RedirectDependsOnlyOnRequired(
    u1: Option<User>, t1: Option<UserType>, u2: Option<User>, t2: Option<UserType>, required: UserType)
    requires Decide(false, u1, t1, required).Redirect? && Decide(false, u2, t2, required).Redirect?
    ensures Decide(false, u1, t1, required) == Decide(false, u2, t2, required)
  {
  }

  /**
   * A page load followed by a visit to a route that requires `required`: the
   * outcome is decided by what the browser had stored. A login record of the
   * right role shows the page, any other record or none redirects, and over an
   * entry `JSON.parse` rejects the restore aborts, `loading` stays true and the
   * gate keeps deciding for the loading indicator.
   */
  method VisitAfterPageLoad(initial: Option<StoredItem>, required: UserType) returns (o: Outcome)
    ensures match RestoreFrom(initial)
      case Rehydrate(_, t) => o == (if t == required then RenderChildren else Redirect(LoginPath(required)))
      case NothingStored => o == Redirect(LoginPath(required))
      case ParseThrows => o == LoadingIndicator
  {
    var storage := new BrowserStorage(initial);
    var auth := new AuthProvider(storage);
    var completed := auth.Restore();
    o := Gate(auth, required);
  }

  /** After a login as `t` the pages of role `t` render and the pages of the other role redirect. */
  method VisitAfterLogin(initial: Option<StoredItem>, user: User, t: UserType, required: UserType)
    returns (o: Outcome)
    requires RestoreFrom(initial) != ParseThrows
    ensures o == RenderChildren <==> t == required
    ensures t != required ==> o == Redirect(LoginPath(required))
  {
    var storage := new BrowserStorage(initial);
    var auth := new AuthProvider(storage);
    var completed := auth.Restore();
    var ok := auth.Login(user, t);
    o := Gate(auth, required);
  }

  /** After a logout every protected page redirects to its login page. */
  method VisitAfterLogout(initial: Option<StoredItem>, required: UserType) returns (o: Outcome)
    requires RestoreFrom(initial) != ParseThrows
    ensures o == Redirect(LoginPath(required))
  {
    var storage := new BrowserStorage(initial);
    var auth := new AuthProvider(storage);
    var completed := auth.Restore();
    auth.Logout();
    o := Gate(auth, required);
  }
}
