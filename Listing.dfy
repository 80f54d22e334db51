/** The listing management view (`Listing`) as the component runs it: handlers that
    update the state fields one after another, with early returns. Each handler is
    proved to do what the matching function of ListingSpec describes. */
module Listing {
  import opened Js
  import opened Api
  import opened Browser
  import opened ListingSpec

  class ListingView {
    var draft: Draft
    var editId: Option<string>
    var casas: seq<Casa>
    var error: Option<string>
    var success: Option<string>

    /** All five state fields as one value. */
    function State(): ViewState
      reads this
    {
      ViewState(draft, editId, casas, error, success)
    }

    /** The component's initial `useState` values. */
    constructor ()
      ensures State() == Initial
    {
      draft := EmptyDraft;
      editId := None;
      casas := [];
      error := None;
      success := None;
    }

    /** `fetchCasas`, with `resp` the outcome of the request it sends. */
    method FetchCasas(storage: Storage, resp: Response) returns (requests: seq<Request>)
      modifies this
      ensures Step(State(), requests) == Fetch(old(State()), storage.GetItem(TokenKey), resp)
    {
      var token := storage.GetItem(TokenKey);
      if !Truthy(token) {
        error := Some(NotAuthenticated);
        requests := [];
        return;
      }
      requests := [ListMine(token.value)];
      match resp {
        case NetworkError(reason) =>
          error := Some(reason);
        case Reply(ok, payload) =>
          if !ok {
            error := Some(FetchFailed);
          } else {
            match payload {
              case Unparseable(reason) =>
                error := Some(reason);
              case Json(list, _, _) =>
                casas := list.GetOr([]);
                error := None;
            }
          }
      }
    }

    /** `handleChange` for the input bound to `field`. */
    method HandleChange(field: Field, value: string)
      modifies this
      ensures State() == Change(old(State()), field, value)
    {
      match field {
        case Nombre => draft := draft.(nombre := value);
        case Precio => draft := draft.(precio := value);
        case Ubicacion => draft := draft.(ubicacion := value);
        case Descripcion => draft := draft.(descripcion := value);
      }
    }

    /** `handleEdit(casa)`; the scroll to the top of the page is not modelled. */
    method HandleEdit(casa: Casa)
      modifies this
      ensures State() == Edit(old(State()), casa)
    {
      draft := DraftOf(casa);
      editId := Some(casa.id);
    }

    /** The cancel button's click handler. */
    method HandleCancel()
      modifies this
      ensures State() == Cancel(old(State()))
    {
      editId := None;
      draft := EmptyDraft;
    }

    /** `handleSubmit`, with `resp` the outcome of the create or update call and
        `refetch` the outcome of the listing request sent after a success. */
    method HandleSubmit(storage: Storage, resp: Response, refetch: Response) returns (requests: seq<Request>)
      modifies this
      ensures Step(State(), requests) == Submit(old(State()), storage.GetItem(TokenKey), resp, refetch)
    {
      var token := storage.GetItem(TokenKey);
      if !Truthy(token) {
        error := Some(NotAuthenticated);
        requests := [];
        return;
      }
      // the handler sees the `editId` of the render it was created in
      var editing := Truthy(editId);
      var url := if editing then CasasPath + "/" + editId.value else CasasPath;
      var request := Request(if editing then PUT else POST, url, Some(token.value), Some(draft.Json()));
      requests := [request];
      if !Accepted(resp) {
        error := Some(SubmitError(resp));
        success := None;
        return;
      }
      draft := EmptyDraft;
      editId := None;
      var fetched := FetchCasas(storage, refetch);
      requests := requests + fetched;
      error := None;
      success := Some(if editing then Updated else Added);
    }

    /** `handleDelete(id)`, with `confirmed` the answer to `window.confirm`, `resp` the
        outcome of the delete call and `refetch` that of the listing request after it. */
    method HandleDelete(storage: Storage, id: string, confirmed: bool, resp: Response, refetch: Response)
      returns (requests: seq<Request>)
      modifies this
      ensures Step(State(), requests) == Delete(old(State()), storage.GetItem(TokenKey), id, confirmed, resp, refetch)
    {
      var token := storage.GetItem(TokenKey);
      if !Truthy(token) {
        error := Some(NotAuthenticated);
        requests := [];
        return;
      }
      if !confirmed {
        requests := [];
        return;
      }
      requests := [Remove(id, token.value)];
      if !Accepted(resp) {
        error := Some(DeleteError(resp));
        success := None;
        return;
      }
      var fetched := FetchCasas(storage, refetch);
      requests := requests + fetched;
      error := None;
      success := Some(Deleted);
    }

    /** The delayed `setSuccess(null)` scheduled after a successful mutation. */
    method DismissSuccessNotice()
      modifies this
      ensures State() == DismissSuccess(old(State()))
    {
      success := None;
    }
  }
}
