# Real-estate catalog client: a Dafny model of its session and listing logic

The client is a single-page React application for a property catalog. It has a
session store that keeps a token in `localStorage`, a route guard in front of the
listing management page, a public catalog page with a contact modal, and
sign-in and sign-up pages. This project models the logic of those parts as Dafny
state machines and proves what each handler does. Rendering, styling and the HTTP
transport are not part of the model.

Every HTTP call is an input to the handler that awaits it (`Api.Response`). A call
either rejects (`NetworkError`) or resolves with an ok or non-ok status and a body.
`res.json()` may throw on that body (`Unparseable`), or yield an object whose
`casas`, `message` and `token` fields may be present or missing. The requests a
handler sends are returned as `Api.Request` values. `localStorage` is the class
`Browser.Storage`, shared by every view. `window.confirm` is a boolean input. Each
handler runs atomically.

Files and modules:

- `Js.dfy`, module `Js`: `Option`, JavaScript truthiness of a string-or-missing value, and `a || b` on such values.
- `Api.dfy`, module `Api`: listings, response bodies, responses and requests.
- `Browser.dfy`, module `Browser`: `localStorage` as a class.
- `AuthContext.dfy`, module `Auth`: `AuthProvider`. It has two fields (the storage and `isLoggedIn`) and the invariant `Valid()`: the flag equals "a truthy token is stored".
- `PrivateRoute.dfy`, module `Guard`: the guard decision as a function that reads storage.
- `ListingSpec.dfy`, module `ListingSpec`: the management view's handlers as pure step functions on `ViewState`.
- `Listing.dfy`, module `Listing`: `ListingView`, a class whose handler methods update the five state fields step by step and are proved equal to the step functions.
- `ListingTrace.dfy`, module `ListingTrace`: properties over any sequence of handler calls.
- `Home.dfy`, module `Home`: `truncateText`, the full-description condition and `CatalogView`.
- `SignIn.dfy` and `SignUp.dfy`, modules `SignIn` and `SignUp`: the source files `SingIn.jsx` and `SingUp.jsx`.

Behaviours of the code that the model keeps as written:

- `login("")` raises `isLoggedIn`, but the stored empty token is falsy. The session invariant then fails, and the guard redirects a user the context calls logged in (`Guard.EmptyLoginIsRedirected`).
- A successful sign-in reply without a `token` field stores the string "undefined". That string is truthy, so the guard lets the user through (`SignIn.MissingTokenStillLogsIn`, `SignIn.MissingTokenOpensGuard`).
- The catalog fetch on `Home` does not check `res.ok` and has no `|| []`. So any reply with a readable body replaces the list, and a body without `casas` leaves the list `undefined` (`Home.CatalogView.LoadCatalog`).
- A successful sign-up navigates to "/sign-in", which is not a route of the router; the sign-in route is "/sing-in" (`SignUp.AfterSignUpRouteIsNotDefined`).
- After a successful submit, `handleSubmit` clears `error` after its re-fetch. So a failed re-fetch leaves no error shown (`ListingSpec.Submit`).

Three more facts about the code that shape the model:

- The guard reads the stored token itself, not the context flag, and tests its truthiness rather than its presence, so an empty stored token counts as none.
- `handleSubmit` validates no fields; only the inputs' `required` and `min` attributes do, in the browser.
- Neither the listing form nor the listing fetch guards against double submits or stale replies; only the sign-up button is disabled while its request is out. The model takes each handler as atomic, so it cannot show such a race.

## Model

| member | source | states |
|---|---|---|
| `Auth.AuthProvider.constructor` | src/context/AuthContext.jsx:6 | the flag starts as the truthiness of the stored token, so the invariant holds |
| `Auth.AuthProvider.Login` | src/context/AuthContext.jsx:17-20 | stores the token under "token" and touches no other key; the flag is true afterwards; the invariant holds afterwards exactly when the token is non-empty |
| `Auth.AuthProvider.Logout` | src/context/AuthContext.jsx:22-25 | removes only the "token" key and lowers the flag; the invariant holds afterwards |
| `Auth.AuthProvider.HandleStorageChange` | src/context/AuthContext.jsx:9-11 | re-derives the flag from the stored token and changes nothing else; restores the invariant |
| `Auth.LogoutTwice` | src/context/AuthContext.jsx:22-25 | two logouts leave the same storage and flag as one |
| `Auth.OtherTabLogsOut` | src/context/AuthContext.jsx:8-15 | after another tab removes the token, the flag is stale; the storage handler makes it false and valid again |
| `Guard.PrivateRoute` | src/components/PrivateRoute.jsx:3-7 | renders the children if and only if the stored token is truthy (an empty token counts as absent); otherwise it is `Navigate` to "/sing-in" with `replace`; it only reads storage |
| `Guard.GuardAgreesWithSession` | src/components/PrivateRoute.jsx:4-6 | while the session invariant holds, the guard renders the children exactly when `isLoggedIn` is true |
| `Guard.EmptyLoginIsRedirected` | src/context/AuthContext.jsx:17-20 | after `login("")` the flag is true but the guard redirects to sign-in |
| `ListingSpec.Change` | src/pages/Listing.jsx:58-63 | the named draft field takes the value; the other three fields and the rest of the state are unchanged |
| `ListingSpec.Edit` | src/pages/Listing.jsx:141-150 | the draft becomes the listing's four fields and `editId` its id; the list and the notices are unchanged |
| `ListingSpec.Cancel` | src/pages/Listing.jsx:287-294 | the draft becomes four empty strings and `editId` null (create mode); the rest is unchanged |
| `ListingSpec.Fetch` | src/pages/Listing.jsx:30-52 | without a token: the "No estás autenticado." error and no request; with a token: one GET of /casas/mis-casas with the bearer token; success sets the list to `data.casas` or [] and clears the error; failure keeps the list and sets an error ("Error al obtener las casas" for a non-ok status); the draft, `editId` and `success` are never touched |
| `ListingSpec.Submit` | src/pages/Listing.jsx:65-107 | without a token: the error, no request, nothing else changed; otherwise the first request is PUT /casas/{editId} in edit mode or POST /casas in create mode, with the draft as body; on success: draft emptied, `editId` null, list re-fetched, error null even if the re-fetch failed, success "actualizada" or "agregada" by the mode at submission; on failure: only that request, draft and `editId` kept, error the server `message` or "Error al procesar la solicitud", success null |
| `ListingSpec.Delete` | src/pages/Listing.jsx:109-139 | checks the token before asking for confirmation; not confirmed: no request and no change; success: DELETE /casas/{id}, re-fetch, error null, "Casa eliminada correctamente"; failure: "Error al eliminar la casa" (or the network error) with the list unchanged; the draft and `editId` are never touched |
| `ListingSpec.DismissSuccess` | src/pages/Listing.jsx:102 | the timer callback clears the success notice and nothing else |
| `ListingSpec.SubmitAfterEditUpdatesThatListing` | src/pages/Listing.jsx:75-84 | selecting a listing and then submitting sends a PUT to that listing's path with its fields |
| `ListingSpec.SubmitAfterCancelCreates` | src/pages/Listing.jsx:75-84 | after cancel and typing into the four inputs, a submit sends a POST to /casas whose body is exactly the typed values |
| `Listing.ListingView.constructor` | src/pages/Listing.jsx:19-28 | the initial state: empty draft, no `editId`, empty list, no notices |
| `Listing.ListingView.FetchCasas` | src/pages/Listing.jsx:30-52 | the new state and the requests sent are those of `ListingSpec.Fetch` for the stored token |
| `Listing.ListingView.HandleChange` | src/pages/Listing.jsx:58-63 | the new state is that of `ListingSpec.Change` |
| `Listing.ListingView.HandleEdit` | src/pages/Listing.jsx:141-150 | the new state is that of `ListingSpec.Edit` |
| `Listing.ListingView.HandleCancel` | src/pages/Listing.jsx:287-294 | the new state is that of `ListingSpec.Cancel` |
| `Listing.ListingView.HandleSubmit` | src/pages/Listing.jsx:65-107 | the new state and the requests sent are those of `ListingSpec.Submit` for the stored token |
| `Listing.ListingView.HandleDelete` | src/pages/Listing.jsx:109-139 | the new state and the requests sent are those of `ListingSpec.Delete` for the stored token |
| `Listing.ListingView.DismissSuccessNotice` | src/pages/Listing.jsx:134 | the new state is that of `ListingSpec.DismissSuccess` |
| `ListingTrace.ApplyCasas` | src/pages/Listing.jsx:44-51 | one handler changes the list exactly when it applies a successful listing reply, and then to that reply's list |
| `ListingTrace.ShownListIsLastServerList` | src/pages/Listing.jsx:92-97 | after any sequence of handlers, the displayed list is the list of the latest successful listing reply (read-after-write; never a local edit) |
| `ListingTrace.EveryRequestIsAuthenticated` | src/pages/Listing.jsx:31-41 | every request the view ever sends carries a non-empty bearer token |
| `ListingTrace.EditTargetWasSelected` | src/pages/Listing.jsx:141-148 | whenever `editId` is set, it is the id of a listing the user selected earlier with the edit button |
| `ListingTrace.EditTargetIsLatestShownSelection` | src/pages/Listing.jsx:141-148 | on any sequence the page can produce (edit and delete only on shown cards, cancel only in edit mode, lines 284-287 and 337-371), `editId` is the id of the latest edit selection, and that listing was shown, i.e. returned by the server, when it was selected |
| `ListingTrace.SuccessFollowsAcceptedMutation` | src/pages/Listing.jsx:96-100 | a success notice is shown only after the server accepted some create, update or delete |
| `Home.TruncateText` | src/pages/Home.jsx:63-67 | an empty text gives "Descripción no disponible"; a text of at most `maxLength` (default 120) comes back unchanged; a longer one gives its first `maxLength` characters then "...", of length `maxLength + 3` |
| `Home.ShowFullDescription` | src/pages/Home.jsx:118-120 | the button is shown exactly when the card text is the shortened one; otherwise the card shows the whole description or the placeholder |
| `Home.CatalogView.constructor` | src/pages/Home.jsx:12-18 | the initial state satisfies the modal invariant |
| `Home.CatalogView.LoadCatalog` | src/pages/Home.jsx:22-29 | GET /api/casas without a token; a rejected fetch or an unreadable body leaves all state unchanged; any reply with a readable body, whatever its status, sets the list to its `casas` (possibly undefined) |
| `Home.CatalogView.HandleOpenModal` | src/pages/Home.jsx:31-39 | without a token it navigates to "/sing-in" and changes nothing; with one it selects the listing and shows the modal; opening a closed modal always starts with an empty subject and message |
| `Home.CatalogView.HandleOpenDescModal` | src/pages/Home.jsx:41-44 | stores the text and shows the description modal; nothing else changes |
| `Home.CatalogView.HandleCloseModal` | src/pages/Home.jsx:46-50 | hides the contact modal and clears subject and message; the selected listing is kept |
| `Home.CatalogView.HandleCloseDescModal` | src/pages/Home.jsx:52-55 | hides the description modal and clears its text |
| `Home.CatalogView.HandleEnviar` | src/pages/Home.jsx:57-60 | alerts "Mensaje enviado" and ends in the same state as closing the modal |
| `Home.CatalogView.EditTitulo` | src/pages/Home.jsx:198-204 | the subject input, rendered only with the modal open, sets only the subject |
| `Home.CatalogView.EditMensaje` | src/pages/Home.jsx:211-217 | the message textarea, rendered only with the modal open, sets only the message |
| `SignIn.Classify` | src/pages/SingIn.jsx:30-46 | a network error or unreadable body is the network failure; an ok reply logs in with `data.token` (or "undefined"); any other reply is rejected with the server `message` or "Sign in failed. Please try again." |
| `SignIn.MissingTokenStillLogsIn` | src/pages/SingIn.jsx:37 | an ok reply without a token logs in with the truthy string "undefined" |
| `SignIn.StoredToken` | src/pages/SingIn.jsx:37 | the string `setItem` stores for `data.token` is truthy unless the token was the empty string; a missing token becomes "undefined" |
| `SignIn.MissingTokenOpensGuard` | src/pages/SingIn.jsx:32-39 | running the sign-in handler on an ok reply without a token leaves the session valid and logged in, and the guard renders the protected view |
| `SignIn.SignInPage.constructor` | src/pages/SingIn.jsx:6 | the form object starts empty |
| `SignIn.SignInPage.HandleChange` | src/pages/SingIn.jsx:13-15 | sets only the key `e.target.id` and keeps every other key |
| `SignIn.SignInPage.HandleSubmit` | src/pages/SingIn.jsx:17-48 | posts the form to /auth/signin; on login, stores the token, raises the flag, alerts success and navigates to "/"; on a rejection or network failure, alerts without any login or navigation, and session and storage stay unchanged |
| `SignUp.Classify` | src/pages/SingUp.jsx:29-50 | network failure exactly on a network error or unreadable body; created exactly on an ok reply; duplicate exactly on a non-ok reply whose message is exactly "Username or email already exists" |
| `SignUp.AfterSignUpRouteIsNotDefined` | src/pages/SingUp.jsx:37 | "/sign-in", the target after sign-up, is not among the router's paths, while "/sing-in" is |
| `SignUp.AlertFor` | src/pages/SingUp.jsx:33-50 | each outcome has its own alert text, and the text identifies the outcome |
| `SignUp.SignUpPage.constructor` | src/pages/SingUp.jsx:5-6 | the form object starts empty and `isLoading` false |
| `SignUp.SignUpPage.HandleChange` | src/pages/SingUp.jsx:12-14 | sets only the key `e.target.id`, keeps every other key and the loading flag |
| `SignUp.SignUpPage.PressSubmit` | src/pages/SingUp.jsx:16-27 | a request goes out exactly when the button is enabled (`disabled={isLoading}`, line 87); it raises `isLoading` and posts the form to /auth/signup; while loading, nothing is sent |
| `SignUp.SignUpPage.FinishSubmit` | src/pages/SingUp.jsx:29-53 | alerts the outcome's text; success resets the form to {} and navigates to "/sign-in"; every other outcome keeps the form and does not navigate; `isLoading` is false afterwards in every case |
| `SignUp.SubmitOnce` | src/pages/SingUp.jsx:16-54 | one whole submission sends the form, ends with `isLoading` false, keeps the form unless it succeeded, and shows the duplicate-account alert for a duplicate |

## Left out

- HTTP transport, JSON parsing and the remote API: each call's outcome is an input. The server's scoping by owner and its id assignment are outside the client.
- The `VITE_API_URL` base URL: request paths are relative to it. Home's "/api/casas" is kept literally; in development it goes through the dev-server proxy, which is not modelled.
- Rendering, styling, animations, icons and price formatting with `toLocaleString`.
- Field types of the listing: every field is a string. The number the server returns for `precio` and its conversion to and from the number input are not modelled.
- Form constraint validation: the browser enforces the inputs' `required` and `min="0"` attributes before `onSubmit` fires. `handleSubmit` has no validation of its own, and the model follows `handleSubmit`.
- Timers: the three-second `setTimeout` after a successful mutation is the explicit `DismissSuccessNotice` event. No clock is modelled.
- `alert`, `console` logging and `window.scrollTo`: an alert is returned as its text, and logging and scrolling are dropped.
- Registering and removing the `storage` event listener: only the handler's effect is modelled.
- Asynchrony: each handler runs atomically with its responses given, so in-flight requests cannot interleave. The exception is the sign-up page, which is split into `PressSubmit` and `FinishSubmit` to show the `isLoading` lifecycle.
- `About`, `Header`, `App` routing, `main` mounting and the dev-proxy configuration. `Header`'s logout is `logout()` plus navigation. `Profile` is not part of this model. The router's path set appears only as the constant `SignUp.AppRoutes`.
- String length: JavaScript counts UTF-16 code units; the model counts Dafny characters.
- SignIn.StoredToken: a reply whose `token` is JSON `null` makes the code store the string "null"; the model does not tell `null` from a missing field and stores "undefined" for both, so later requests would carry `Bearer undefined` where the code sends `Bearer null`.
