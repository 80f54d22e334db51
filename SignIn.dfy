/** The sign-in page (`SingIn`): a free-form form object and the classification
    of the sign-in response. */
module SignIn {
  import opened Js
  import opened Api
  import opened Browser
  import Auth
  import Guard

  const SignInPath: string := "/auth/signin"
  const HomeRoute: string := "/"
  const LoginAlert: string := "Login successful!"
  const RejectedAlert: string := "Sign in failed. Please try again."
  const NetworkAlert: string := "A network error occurred. Please try again later."

  /** What `localStorage.setItem` stores for `data.token`: the string itself, or
      "undefined" when the reply has no token (the value is converted to a string).
      The stored value is truthy unless the reply's token was the empty string, so a
      missing token still counts as logged in everywhere storage is read. */
  function StoredToken(token: Option<string>): (s: string)
    ensures Truthy(Some(s)) <==> token != Some("")
  {
    match token
    case Some(t) => t
    case None => "undefined"
  }

  /** How `handleSubmit` reacts to the response. */
  datatype Outcome =
    | LoggedIn(token: string)   // alert success, `login(data.token)`, go to "/"
    | Rejected(alert: string)   // alert the server's message or the fallback
    | NetworkFailure            // the request or `res.json()` threw

  /** The body is parsed before the status is looked at, so an unreadable body is a
      network failure whatever the status; an ok reply logs in, any other is rejected. */
  function Classify(resp: Response): (o: Outcome)
    ensures o.NetworkFailure? <==> resp.NetworkError? || resp.payload.Unparseable?
    ensures o.LoggedIn? <==> Accepted(resp) && resp.payload.Json?
    ensures o.LoggedIn? ==> o.token == StoredToken(resp.payload.token)
    ensures o.Rejected? ==> o.alert == Or(resp.payload.message, RejectedAlert)
  {
    match resp
    case NetworkError(_) => NetworkFailure
    case Reply(_, Unparseable(_)) => NetworkFailure
    case Reply(ok, Json(_, message, token)) =>
      if ok then LoggedIn(StoredToken(token)) else Rejected(Or(message, RejectedAlert))
  }

  /** A successful reply without a token still logs in, with the string "undefined",
      which is truthy: the session invariant holds and the guard lets the user through. */
  lemma MissingTokenStillLogsIn(message: Option<string>, casas: Option<seq<Casa>>)
    ensures Classify(Reply(true, Json(casas, message, None))) == LoggedIn("undefined")
    ensures Truthy(Some(StoredToken(None)))
  {
  }

  class SignInPage {
    /** `formData`, keyed by the inputs' ids. */
    var formData: map<string, string>

    constructor ()
      ensures formData == map[]
    {
      formData := map[];
    }

    /** `handleChange`: set the input's id to its value, keep every other key. */
    method HandleChange(id: string, value: string)
      modifies this
      ensures formData == old(formData)[id := value]
      ensures forall k :: k in old(formData) && k != id ==> k in formData && formData[k] == old(formData)[k]
    {
      formData := formData[id := value];
    }

    /** `handleSubmit`: post the form, then log in and go home, or alert. The page's
        own state is not changed. */
    method HandleSubmit(auth: Auth.AuthProvider, resp: Response)
      returns (request: Request, alertText: string, navigateTo: Option<string>)
      modifies auth, auth.storage
      ensures request == Request(POST, SignInPath, None, Some(formData))
      ensures formData == old(formData)
      ensures Classify(resp).LoggedIn? ==>
        && auth.storage.items == old(auth.storage.items)[TokenKey := Classify(resp).token]
        && auth.isLoggedIn
        && alertText == LoginAlert && navigateTo == Some(HomeRoute)
      ensures Classify(resp).Rejected? ==>
        && unchanged(auth, auth.storage)
        && alertText == Classify(resp).alert && navigateTo == None
      ensures Classify(resp).NetworkFailure? ==>
        && unchanged(auth, auth.storage)
        && alertText == NetworkAlert && navigateTo == None
    {
      request := Request(POST, SignInPath, None, Some(formData));
      match Classify(resp) {
        case LoggedIn(token) =>
          alertText := LoginAlert;
          auth.Login(token);
          navigateTo := Some(HomeRoute);
        case Rejected(message) =>
          alertText := message;
          navigateTo := None;
        case NetworkFailure =>
          alertText := NetworkAlert;
          navigateTo := None;
      }
    }
  }

  /** A successful sign-in whose reply carries no token opens the protected route:
      the handler stores "undefined", which the guard reads as a token. */
  method MissingTokenOpensGuard(page: SignInPage, auth: Auth.AuthProvider)
    modifies auth, auth.storage
    ensures auth.isLoggedIn && auth.Valid()
    ensures Guard.PrivateRoute(auth.storage) == Guard.Children
  {
    var request, alertText, navigateTo := page.HandleSubmit(auth, Reply(true, Json(None, None, None)));
  }
}
