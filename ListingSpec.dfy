/** The listing management view (`Listing`) as a state machine on values: one
    function per handler, giving the next state and the requests the handler
    sends. Listing.ListingView runs the same handlers on mutable fields. */
module ListingSpec {
  import opened Js
  import opened Api

  /** The four inputs of the form, each bound to the draft key of its `name`. */
  datatype Field = Nombre | Precio | Ubicacion | Descripcion {
    function Key(): string {
      match this
      case Nombre => "nombre"
      case Precio => "precio"
      case Ubicacion => "ubicacion"
      case Descripcion => "descripcion"
    }
  }

  /** The form state `formData`. */
  datatype Draft = Draft(nombre: string, precio: string, ubicacion: string, descripcion: string) {
    function Get(f: Field): string {
      match f
      case Nombre => nombre
      case Precio => precio
      case Ubicacion => ubicacion
      case Descripcion => descripcion
    }

    /** The object `JSON.stringify(formData)` serialises. */
    function Json(): (m: map<string, string>)
      ensures forall f: Field :: f.Key() in m && m[f.Key()] == Get(f)
      ensures |m| == 4
    {
      map[Nombre.Key() := nombre, Precio.Key() := precio,
          Ubicacion.Key() := ubicacion, Descripcion.Key() := descripcion]
    }
  }

  const EmptyDraft: Draft := Draft("", "", "", "")

  /** The draft `handleEdit` loads from a listing. */
  function DraftOf(casa: Casa): Draft {
    Draft(casa.nombre, casa.precio, casa.ubicacion, casa.descripcion)
  }

  /** The view's state: the draft, `editId`, the list `casas`, and the `error` and `success` notices. */
  datatype ViewState = ViewState(draft: Draft, editId: Option<string>, casas: seq<Casa>,
                                 error: Option<string>, success: Option<string>)

  /** The state before the mount effect has fetched anything. */
  const Initial: ViewState := ViewState(EmptyDraft, None, [], None, None)

  /** The state after a handler, and the requests it sent, in order. */
  datatype Step = Step(state: ViewState, requests: seq<Request>)

  const NotAuthenticated: string := "No estás autenticado."
  const FetchFailed: string := "Error al obtener las casas"
  const SubmitFailed: string := "Error al procesar la solicitud"
  const DeleteFailed: string := "Error al eliminar la casa"
  const Updated: string := "Casa actualizada correctamente"
  const Added: string := "Casa agregada correctamente"
  const Deleted: string := "Casa eliminada correctamente"

  const CasasPath: string := "/casas"
  const MisCasasPath: string := "/casas/mis-casas"

  /** The form is in edit mode when `editId` is truthy. */
  predicate Editing(s: ViewState) {
    Truthy(s.editId)
  }

  /** `GET /casas/mis-casas` with the session token. */
  function ListMine(token: string): Request {
    Request(GET, MisCasasPath, Some(token), None)
  }

  /** The list a listing reply carries, `data.casas || []`, when the reply is a
      success whose body could be read; None otherwise. */
  function ListReply(resp: Response): (l: Option<seq<Casa>>)
    ensures l.Some? <==> Accepted(resp) && resp.payload.Json?
  {
    match resp
    case Reply(true, Json(casas, _, _)) => Some(casas.GetOr([]))
    case _ => None
  }

  /** `handleChange`: set the input's field of the draft. */
  function Change(s: ViewState, f: Field, value: string): (r: ViewState)
    ensures r.draft.Get(f) == value
    ensures forall g: Field :: g != f ==> r.draft.Get(g) == s.draft.Get(g)
    ensures r == s.(draft := r.draft)
  {
    var d := s.draft;
    var d' := match f
      case Nombre => d.(nombre := value)
      case Precio => d.(precio := value)
      case Ubicacion => d.(ubicacion := value)
      case Descripcion => d.(descripcion := value);
    s.(draft := d')
  }

  /** `handleEdit(casa)`: load the listing into the form and enter edit mode for its id. */
  function Edit(s: ViewState, casa: Casa): (r: ViewState)
    ensures forall f: Field :: r.draft.Get(f) == DraftOf(casa).Get(f)
    ensures r.editId == Some(casa.id)
    ensures Editing(r) <==> casa.id != ""
    ensures r.casas == s.casas && r.error == s.error && r.success == s.success
  {
    s.(draft := DraftOf(casa), editId := Some(casa.id))
  }

  /** The cancel button: back to create mode with an empty form. */
  function Cancel(s: ViewState): (r: ViewState)
    ensures forall f: Field :: r.draft.Get(f) == ""
    ensures r.editId == None && !Editing(r)
    ensures r.casas == s.casas && r.error == s.error && r.success == s.success
  {
    s.(draft := EmptyDraft, editId := None)
  }

  /** `fetchCasas`: without a token, report it and send nothing; otherwise request
      the user's listings and either take the returned list or keep the old one
      and report the failure. The form is never touched. */
  function Fetch(s: ViewState, token: Option<string>, resp: Response): (r: Step)
    ensures r.state.draft == s.draft && r.state.editId == s.editId && r.state.success == s.success
    ensures !Truthy(token) ==> r.requests == [] && r.state == s.(error := Some(NotAuthenticated))
    ensures Truthy(token) ==> r.requests == [ListMine(token.value)]
    ensures Truthy(token) ==> r.state.casas == ListReply(resp).GetOr(s.casas)
    ensures Truthy(token) ==> (r.state.error == None <==> ListReply(resp).Some?)
    ensures Truthy(token) && resp.Reply? && !resp.ok ==> r.state.error == Some(FetchFailed)
  {
    if !Truthy(token) then
      Step(s.(error := Some(NotAuthenticated)), [])
    else
      var next := match resp
        case NetworkError(reason) => s.(error := Some(reason))
        case Reply(false, _) => s.(error := Some(FetchFailed))
        case Reply(true, Unparseable(reason)) => s.(error := Some(reason))
        case Reply(true, Json(casas, _, _)) => s.(casas := casas.GetOr([]), error := None);
      Step(next, [ListMine(token.value)])
  }

  /** The message `handleSubmit` reports when the create or update call fails:
      the thrown error's, or the server's `message`, or the fixed fallback. */
  function SubmitError(resp: Response): (m: string)
    ensures resp.Reply? && resp.payload.Json? ==> m == Or(resp.payload.message, SubmitFailed)
  {
    match resp
    case NetworkError(reason) => reason
    case Reply(_, Unparseable(reason)) => reason
    case Reply(_, Json(_, message, _)) => Or(message, SubmitFailed)
  }

  /** The create or update call `handleSubmit` sends for the current draft. */
  function Mutation(s: ViewState, token: string): (q: Request)
    ensures Editing(s) ==> q == Request(PUT, CasasPath + "/" + s.editId.value, Some(token), Some(s.draft.Json()))
    ensures !Editing(s) ==> q == Request(POST, CasasPath, Some(token), Some(s.draft.Json()))
  {
    var path := if Editing(s) then CasasPath + "/" + s.editId.value else CasasPath;
    Request(if Editing(s) then PUT else POST, path, Some(token), Some(s.draft.Json()))
  }

  /** `handleSubmit`: without a token, report it and send nothing. Otherwise send the
      draft (PUT in edit mode, POST in create mode). On success reset the form, re-fetch
      the whole list, clear the error (whatever the re-fetch did) and announce the mode
      the form was in. On failure keep the form and the list and report the error. */
  function Submit(s: ViewState, token: Option<string>, resp: Response, refetch: Response): (r: Step)
    ensures !Truthy(token) ==> r == Step(s.(error := Some(NotAuthenticated)), [])
    ensures Truthy(token) ==> |r.requests| >= 1 && r.requests[0] == Mutation(s, token.value)
    ensures Truthy(token) && Accepted(resp) ==>
      && r.state.draft == EmptyDraft && r.state.editId == None
      && r.requests == [Mutation(s, token.value), ListMine(token.value)]
      && r.state.casas == ListReply(refetch).GetOr(s.casas)
      && r.state.error == None
      && r.state.success == Some(if Editing(s) then Updated else Added)
    ensures Truthy(token) && !Accepted(resp) ==>
      && r.requests == [Mutation(s, token.value)]
      && r.state == s.(error := Some(SubmitError(resp)), success := None)
  {
    if !Truthy(token) then
      Step(s.(error := Some(NotAuthenticated)), [])
    else if !Accepted(resp) then
      Step(s.(error := Some(SubmitError(resp)), success := None), [Mutation(s, token.value)])
    else
      var fetched := Fetch(s.(draft := EmptyDraft, editId := None), token, refetch);
      var done := fetched.state.(error := None, success := Some(if Editing(s) then Updated else Added));
      Step(done, [Mutation(s, token.value)] + fetched.requests)
  }

  /** The message `handleDelete` reports when the delete call fails. */
  function DeleteError(resp: Response): (m: string)
    ensures resp.Reply? ==> m == DeleteFailed
  {
    match resp
    case NetworkError(reason) => reason
    case Reply(_, _) => DeleteFailed
  }

  /** `DELETE /casas/{id}` with the session token. */
  function Remove(id: string, token: string): Request {
    Request(DELETE, CasasPath + "/" + id, Some(token), None)
  }

  /** `handleDelete(id)`: without a token, report it and send nothing; if the user
      does not confirm, do nothing at all. Otherwise send the delete; on success
      re-fetch the whole list, clear the error and announce it; on failure keep the
      list and report the error. The form is never touched. */
  function Delete(s: ViewState, token: Option<string>, id: string, confirmed: bool,
                  resp: Response, refetch: Response): (r: Step)
    ensures r.state.draft == s.draft && r.state.editId == s.editId
    ensures !Truthy(token) ==> r == Step(s.(error := Some(NotAuthenticated)), [])
    ensures Truthy(token) && !confirmed ==> r == Step(s, [])
    ensures Truthy(token) && confirmed && Accepted(resp) ==>
      && r.requests == [Remove(id, token.value), ListMine(token.value)]
      && r.state.casas == ListReply(refetch).GetOr(s.casas)
      && r.state.error == None
      && r.state.success == Some(Deleted)
    ensures Truthy(token) && confirmed && !Accepted(resp) ==>
      && r.requests == [Remove(id, token.value)]
      && r.state == s.(error := Some(DeleteError(resp)), success := None)
  {
    if !Truthy(token) then
      Step(s.(error := Some(NotAuthenticated)), [])
    else if !confirmed then
      Step(s, [])
    else if !Accepted(resp) then
      Step(s.(error := Some(DeleteError(resp)), success := None), [Remove(id, token.value)])
    else
      var fetched := Fetch(s, token, refetch);
      Step(fetched.state.(error := None, success := Some(Deleted)), [Remove(id, token.value)] + fetched.requests)
  }

  /** The timer callback `setSuccess(null)` that dismisses a success notice. */
  function DismissSuccess(s: ViewState): (r: ViewState)
    ensures r.success == None
    ensures r == s.(success := None)
  {
    s.(success := None)
  }

  /** Selecting a listing and submitting sends that listing's fields to its own
      address with PUT (the listing's id being non-empty). */
  lemma SubmitAfterEditUpdatesThatListing(s: ViewState, casa: Casa, token: Option<string>, resp: Response, refetch: Response)
    requires Truthy(token) && casa.id != ""
    ensures Submit(Edit(s, casa), token, resp, refetch).requests[0]
         == Request(PUT, CasasPath + "/" + casa.id, token, Some(DraftOf(casa).Json()))
  {
  }

  /** After cancelling and filling in the four inputs, a submit creates a new listing
      with POST, whose body is exactly what was typed. (The browser's `required`
      attributes keep the form from being submitted before the inputs are filled.) */
  lemma SubmitAfterCancelCreates(s: ViewState, nombre: string, precio: string, ubicacion: string,
                                 descripcion: string, token: Option<string>, resp: Response, refetch: Response)
    requires Truthy(token)
    ensures var typed := Change(Change(Change(Change(Cancel(s), Nombre, nombre), Precio, precio),
                                       Ubicacion, ubicacion), Descripcion, descripcion);
            Submit(typed, token, resp, refetch).requests[0]
              == Request(POST, CasasPath, token, Some(Draft(nombre, precio, ubicacion, descripcion).Json()))
  {
  }
}
