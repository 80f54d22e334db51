/** The access guard (`PrivateRoute`) around the listing management view. */
module Guard {
  import opened Js
  import opened Browser
  import Auth

  /** The route the guard sends a visitor without a token to. */
  const SignInRoute: string := "/sing-in"

  /** What the guard renders: its children, or a `<Navigate>` element. */
  datatype View = Children | Navigate(to: string, replace: bool)

  /** The guard reads the stored token itself (not the context flag) and tests
      its truthiness, so an empty stored token counts as absent. */
  function PrivateRoute(storage: Storage): (v: View)
    reads storage
    ensures v == Children <==> Truthy(storage.GetItem(TokenKey))
    ensures v != Children ==> v == Navigate(SignInRoute, true)
  {
    var token := storage.GetItem(TokenKey);
    if Truthy(token) then Children else Navigate(SignInRoute, true)
  }

  /** While the session invariant holds, the guard and the context flag agree. */
  lemma GuardAgreesWithSession(auth: Auth.AuthProvider)
    requires auth.Valid()
    ensures PrivateRoute(auth.storage) == Children <==> auth.isLoggedIn
  {
  }

  /** `login("")` is where the two part ways: the flag says logged in, the guard redirects. */
  method EmptyLoginIsRedirected(auth: Auth.AuthProvider)
    modifies auth, auth.storage
    ensures auth.isLoggedIn
    ensures PrivateRoute(auth.storage) == Navigate(SignInRoute, true)
  {
    auth.Login("");
  }
}
