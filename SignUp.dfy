/** The sign-up page (`SingUp`): a free-form form object, the `isLoading` flag that
    disables the submit button, and the classification of the sign-up response. */
module SignUp {
  import opened Js
  import opened Api
  import Guard

  const SignUpPath: string := "/auth/signup"
  const DuplicateMessage: string := "Username or email already exists"
  const CreatedAlert: string := "User created successfully!"
  const DuplicateAlert: string := "The username or email is already taken. Please choose another."
  const FailedAlert: string := "Signup failed. Please try again."
  const NetworkAlert: string := "A network error occurred. Please try again later."

  /** Where a successful sign-up navigates to, as written. */
  const AfterSignUpRoute: string := "/sign-in"

  /** The paths the application's router defines. */
  const AppRoutes: set<string> := {"/", Guard.SignInRoute, "/sing-up", "/about", "/profile", "/edit-listing"}

  /** The route a successful sign-up navigates to is not one the router defines:
      it is spelt "/sign-in", the sign-in route "/sing-in". */
  lemma AfterSignUpRouteIsNotDefined()
    ensures AfterSignUpRoute !in AppRoutes
    ensures Guard.SignInRoute in AppRoutes
  {
  }

  datatype Outcome = Created | Duplicate | Failed | NetworkFailure

  /** The body is parsed first, so an unreadable body counts as a network failure;
      a non-ok reply is a duplicate exactly when its `message` is the server's
      duplicate-account text. */
  function Classify(resp: Response): (o: Outcome)
    ensures o == NetworkFailure <==> resp.NetworkError? || resp.payload.Unparseable?
    ensures o == Created <==> Accepted(resp) && resp.payload.Json?
    ensures o == Duplicate <==>
      resp.Reply? && !resp.ok && resp.payload.Json? && resp.payload.message == Some(DuplicateMessage)
  {
    match resp
    case NetworkError(_) => NetworkFailure
    case Reply(_, Unparseable(_)) => NetworkFailure
    case Reply(ok, Json(_, message, _)) =>
      if ok then Created
      else if message == Some(DuplicateMessage) then Duplicate
      else Failed
  }

  /** The alert shown for each outcome; the four texts differ, so the alert tells
      the user which outcome occurred. */
  function AlertFor(o: Outcome): (a: string)
    ensures a == CreatedAlert <==> o == Created
    ensures a == DuplicateAlert <==> o == Duplicate
    ensures a == FailedAlert <==> o == Failed
    ensures a == NetworkAlert <==> o == NetworkFailure
  {
    match o
    case Created => CreatedAlert
    case Duplicate => DuplicateAlert
    case Failed => FailedAlert
    case NetworkFailure => NetworkAlert
  }

  class SignUpPage {
    var formData: map<string, string>
    var isLoading: bool

    constructor ()
      ensures formData == map[] && !isLoading
    {
      formData := map[];
      isLoading := false;
    }

    /** `disabled={isLoading}` on the submit button. */
    predicate SubmitEnabled()
      reads this
    {
      !isLoading
    }

    /** `handleChange`: set the input's id to its value, keep every other key. */
    method HandleChange(id: string, value: string)
      modifies this
      ensures formData == old(formData)[id := value]
      ensures forall k :: k in old(formData) && k != id ==> k in formData && formData[k] == old(formData)[k]
      ensures isLoading == old(isLoading)
    {
      formData := formData[id := value];
    }

    /** Pressing the submit button: while a sign-up is in flight the button is
        disabled and nothing happens; otherwise `handleSubmit` raises `isLoading`
        and sends the form. */
    method PressSubmit() returns (request: Option<Request>)
      modifies this
      ensures formData == old(formData)
      ensures old(isLoading) ==> request == None && isLoading
      ensures !old(isLoading) ==> request == Some(Request(POST, SignUpPath, None, Some(formData))) && isLoading
      ensures request.Some? <==> old(SubmitEnabled())
      ensures !SubmitEnabled()
    {
      if isLoading {
        request := None;
        return;
      }
      isLoading := true;
      request := Some(Request(POST, SignUpPath, None, Some(formData)));
    }

    /** The rest of `handleSubmit` once the response is in: alert, reset the form and
        navigate after a success, keep the form otherwise; `finally` lowers `isLoading`
        whatever the outcome. */
    method FinishSubmit(resp: Response) returns (alertText: string, navigateTo: Option<string>)
      modifies this
      ensures !isLoading && SubmitEnabled()
      ensures alertText == AlertFor(Classify(resp))
      ensures Classify(resp) == Created ==> formData == map[] && navigateTo == Some(AfterSignUpRoute)
      ensures Classify(resp) != Created ==> formData == old(formData) && navigateTo == None
    {
      var outcome := Classify(resp);
      alertText := AlertFor(outcome);
      if outcome == Created {
        formData := map[];
        navigateTo := Some(AfterSignUpRoute);
      } else {
        navigateTo := None;
      }
      isLoading := false;
    }
  }

  /** One whole submission from an idle page: the flag is up while the request is
      out and down afterwards, and the form survives every outcome but success. */
  method SubmitOnce(page: SignUpPage, resp: Response)
    returns (request: Option<Request>, alertText: string, navigateTo: Option<string>)
    requires page.SubmitEnabled()
    modifies page
    ensures request.Some? && request.value.body == Some(old(page.formData))
    ensures !page.isLoading
    ensures Classify(resp) == Duplicate ==> alertText == DuplicateAlert && navigateTo == None
    ensures Classify(resp) != Created ==> page.formData == old(page.formData)
  {
    request := page.PressSubmit();
    assert page.isLoading;
    alertText, navigateTo := page.FinishSubmit(resp);
  }
}
