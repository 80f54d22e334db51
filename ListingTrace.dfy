/** Properties of the listing management view over any sequence of user actions
    and server replies, starting from the freshly mounted component. */
module ListingTrace {
  import opened Js
  import opened Api
  import opened ListingSpec

  /** One handler invocation together with the inputs it receives: the stored
      token it reads, the confirmation answer and the responses to its requests. */
  datatype Event =
    | ChangeField(field: Field, value: string)
    | SelectForEdit(casa: Casa)
    | CancelEdit
    | FetchList(token: Option<string>, resp: Response)
    | SubmitForm(token: Option<string>, resp: Response, refetch: Response)
    | DeleteListing(token: Option<string>, id: string, confirmed: bool, resp: Response, refetch: Response)
    | SuccessTimeout

  function Apply(s: ViewState, e: Event): Step {
    match e
    case ChangeField(f, v) => Step(Change(s, f, v), [])
    case SelectForEdit(casa) => Step(Edit(s, casa), [])
    case CancelEdit => Step(Cancel(s), [])
    case FetchList(token, resp) => Fetch(s, token, resp)
    case SubmitForm(token, resp, refetch) => Submit(s, token, resp, refetch)
    case DeleteListing(token, id, confirmed, resp, refetch) => Delete(s, token, id, confirmed, resp, refetch)
    case SuccessTimeout => Step(DismissSuccess(s), [])
  }

  /** The state after the events, in order, from the initial state. */
  function Run(evs: seq<Event>): ViewState
    decreases |evs|
  {
    if evs == [] then Initial else Apply(Run(evs[..|evs| - 1]), evs[|evs| - 1]).state
  }

  /** Every request sent along the way, in order. */
  function Requests(evs: seq<Event>): seq<Request>
    decreases |evs|
  {
    if evs == [] then []
    else Requests(evs[..|evs| - 1]) + Apply(Run(evs[..|evs| - 1]), evs[|evs| - 1]).requests
  }

  /** The listing reply an event hands to the list, if it sends a listing request
      at all: read off the event's inputs alone, without running any handler. */
  function ListingReplyOf(e: Event): Option<Response> {
    match e
    case FetchList(token, resp) =>
      if Truthy(token) then Some(resp) else None
    case SubmitForm(token, resp, refetch) =>
      if Truthy(token) && Accepted(resp) then Some(refetch) else None
    case DeleteListing(token, _, confirmed, resp, refetch) =>
      if Truthy(token) && confirmed && Accepted(resp) then Some(refetch) else None
    case _ => None
  }

  /** The list carried by the last successful listing reply among the events,
      or the empty initial list if there was none. */
  function LastServerList(evs: seq<Event>): seq<Casa>
    decreases |evs|
  {
    if evs == [] then []
    else
      var reply := ListingReplyOf(evs[|evs| - 1]);
      if reply.Some? && ListReply(reply.value).Some? then ListReply(reply.value).value
      else LastServerList(evs[..|evs| - 1])
  }

  /** One event changes the list exactly when it hands a successful listing reply to it. */
  lemma ApplyCasas(s: ViewState, e: Event)
    ensures var reply := ListingReplyOf(e);
            Apply(s, e).state.casas
              == if reply.Some? && ListReply(reply.value).Some? then ListReply(reply.value).value else s.casas
  {
    match e
    case FetchList(token, resp) =>
    case SubmitForm(token, resp, refetch) =>
    case DeleteListing(token, id, confirmed, resp, refetch) =>
    case _ =>
  }

  /** Read-after-write: the view never edits its list locally. What it shows is,
      at every point, the list of the server's most recent successful listing reply. */
  lemma {:induction false} ShownListIsLastServerList(evs: seq<Event>)
    ensures Run(evs).casas == LastServerList(evs)
    decreases |evs|
  {
    if evs != [] {
      var prefix := evs[..|evs| - 1];
      ShownListIsLastServerList(prefix);
      ApplyCasas(Run(prefix), evs[|evs| - 1]);
    }
  }

  /** Every request the view sends carries a non-empty bearer token. */
  lemma {:induction false} EveryRequestIsAuthenticated(evs: seq<Event>)
    ensures forall q :: q in Requests(evs) ==> Truthy(q.bearer)
    decreases |evs|
  {
    if evs != [] {
      var prefix := evs[..|evs| - 1];
      EveryRequestIsAuthenticated(prefix);
      var e := evs[|evs| - 1];
      var step := Apply(Run(prefix), e);
      assert forall q :: q in step.requests ==> Truthy(q.bearer) by {
        match e
        case FetchList(token, resp) =>
        case SubmitForm(token, resp, refetch) =>
        case DeleteListing(token, id, confirmed, resp, refetch) =>
        case _ =>
      }
    }
  }

  /** When the form is in edit mode, its target is the id of a listing the user
      selected with the edit button at some earlier point. */
  lemma {:induction false} EditTargetWasSelected(evs: seq<Event>)
    ensures Run(evs).editId.Some? ==>
      exists i :: 0 <= i < |evs| && evs[i].SelectForEdit? && evs[i].casa.id == Run(evs).editId.value
    decreases |evs|
  {
    if evs != [] {
      var prefix := evs[..|evs| - 1];
      var e := evs[|evs| - 1];
      var s := Run(prefix);
      if Run(evs).editId.Some? {
        if e.SelectForEdit? {
          assert evs[|evs| - 1].SelectForEdit?;
        } else {
          assert Run(evs).editId == s.editId by {
            match e
            case ChangeField(f, v) =>
            case CancelEdit =>
            case FetchList(token, resp) =>
            case SubmitForm(token, resp, refetch) =>
            case DeleteListing(token, id, confirmed, resp, refetch) =>
            case SuccessTimeout =>
          }
          EditTargetWasSelected(prefix);
          var i :| 0 <= i < |prefix| && prefix[i].SelectForEdit? && prefix[i].casa.id == s.editId.value;
          assert evs[i] == prefix[i];
        }
      }
    }
  }

  /** A success notice is only ever shown after the server accepted a create,
      update or delete. */
  lemma {:induction false} SuccessFollowsAcceptedMutation(evs: seq<Event>)
    ensures Run(evs).success.Some? ==>
      exists i :: 0 <= i < |evs| &&
        ((evs[i].SubmitForm? && Truthy(evs[i].token) && Accepted(evs[i].resp)) ||
         (evs[i].DeleteListing? && Truthy(evs[i].token) && evs[i].confirmed && Accepted(evs[i].resp)))
    decreases |evs|
  {
    if evs != [] {
      var prefix := evs[..|evs| - 1];
      var e := evs[|evs| - 1];
      var s := Run(prefix);
      var n := Apply(s, e).state;
      if n.success.Some? {
        if (e.SubmitForm? && Truthy(e.token) && Accepted(e.resp)) ||
           (e.DeleteListing? && Truthy(e.token) && e.confirmed && Accepted(e.resp)) {
          assert evs[|evs| - 1] == e;
        } else {
          assert s.success.Some? by {
            match e
            case ChangeField(f, v) =>
            case SelectForEdit(casa) =>
            case CancelEdit =>
            case FetchList(token, resp) =>
            case SubmitForm(token, resp, refetch) =>
            case DeleteListing(token, id, confirmed, resp, refetch) =>
            case SuccessTimeout =>
          }
          SuccessFollowsAcceptedMutation(prefix);
          var i :| 0 <= i < |prefix| &&
            ((prefix[i].SubmitForm? && Truthy(prefix[i].token) && Accepted(prefix[i].resp)) ||
             (prefix[i].DeleteListing? && Truthy(prefix[i].token) && prefix[i].confirmed && Accepted(prefix[i].resp)));
          assert evs[i] == prefix[i];
        }
      }
    }
  }

  /** Whether the page offers the action in state `s`: the edit and delete buttons
      exist only on the cards of the listings shown, and the cancel button only in
      edit mode. The other handlers are always reachable. */
  predicate Offered(s: ViewState, e: Event) {
    match e
    case SelectForEdit(casa) => casa in s.casas
    case DeleteListing(_, id, _, _, _) => exists c :: c in s.casas && c.id == id
    case CancelEdit => Editing(s)
    case _ => true
  }

  /** Event sequences the page can produce: each action is offered when it happens. */
  predicate Reachable(evs: seq<Event>)
    decreases |evs|
  {
    evs == [] || (Reachable(evs[..|evs| - 1]) && Offered(Run(evs[..|evs| - 1]), evs[|evs| - 1]))
  }

  /** On a sequence the page can produce, edit mode always targets the listing of the
      latest edit selection, and that listing was one the view was showing (a listing
      the server returned) when the user selected it. */
  lemma {:induction false} EditTargetIsLatestShownSelection(evs: seq<Event>)
    requires Reachable(evs)
    ensures Run(evs).editId.Some? ==>
      exists i :: 0 <= i < |evs| && evs[i].SelectForEdit?
        && evs[i].casa.id == Run(evs).editId.value
        && evs[i].casa in Run(evs[..i]).casas
        && forall j :: i < j < |evs| ==> !evs[j].SelectForEdit?
    decreases |evs|
  {
    if evs != [] && Run(evs).editId.Some? {
      var k := |evs| - 1;
      var prefix := evs[..k];
      var e := evs[k];
      var s := Run(prefix);
      if e.SelectForEdit? {
        assert evs[..k] == prefix;
        assert e.casa in Run(evs[..k]).casas;
      } else {
        assert Run(evs).editId == s.editId by {
          match e
          case ChangeField(f, v) =>
          case CancelEdit =>
          case FetchList(token, resp) =>
          case SubmitForm(token, resp, refetch) =>
          case DeleteListing(token, id, confirmed, resp, refetch) =>
          case SuccessTimeout =>
        }
        EditTargetIsLatestShownSelection(prefix);
        var i :| 0 <= i < |prefix| && prefix[i].SelectForEdit?
          && prefix[i].casa.id == s.editId.value
          && prefix[i].casa in Run(prefix[..i]).casas
          && forall j :: i < j < |prefix| ==> !prefix[j].SelectForEdit?;
        assert evs[i] == prefix[i];
        assert evs[..i] == prefix[..i];
        assert forall j :: i < j < |evs| ==> !evs[j].SelectForEdit? by {
          forall j | i < j < |evs|
            ensures !evs[j].SelectForEdit?
          {
            if j < k { assert evs[j] == prefix[j]; }
          }
        }
      }
    }
  }
}

