/** The public catalog view (`Home`): the description shortening, the two modals
    and the gate in front of the contact modal. */
module Home {
  import opened Js
  import opened Api
  import opened Browser
  import Guard

  const NoDescription: string := "Descripción no disponible"
  const DefaultMaxLength: nat := 120
  const Ellipsis: string := "..."
  const CatalogPath: string := "/api/casas"
  const SentAlert: string := "Mensaje enviado"

  /** `truncateText`: a placeholder for a missing description, the text itself when
      it fits, and otherwise its first `maxLength` characters followed by "...". */
  function TruncateText(text: string, maxLength: nat := DefaultMaxLength): (r: string)
    ensures text == "" ==> r == NoDescription
    ensures text != "" && |text| <= maxLength ==> r == text
    ensures |text| > maxLength ==> |r| == maxLength + |Ellipsis|
    ensures |text| > maxLength ==> r[..maxLength] == text[..maxLength] && r[maxLength..] == Ellipsis
  {
    if text == "" then NoDescription
    else if |text| <= maxLength then text
    else text[..maxLength] + Ellipsis
  }

  /** The condition for the "full description" button: a description longer than
      120 characters. It holds exactly when the catalog card shows a shortened text,
      and when it fails the card shows the description whole (or the placeholder). */
  function ShowFullDescription(descripcion: string): (b: bool)
    ensures b <==> |TruncateText(descripcion)| > DefaultMaxLength
    ensures b ==> TruncateText(descripcion) == descripcion[..DefaultMaxLength] + Ellipsis
    ensures !b && descripcion != "" ==> TruncateText(descripcion) == descripcion
  {
    descripcion != "" && |descripcion| > DefaultMaxLength
  }

  /** All state fields of the view as one value. */
  datatype CatalogState = CatalogState(
    casas: Option<seq<Casa>>, modalVisible: bool, descModalVisible: bool,
    selectedCasa: Option<Casa>, fullDescription: string, titulo: string, mensaje: string)

  class CatalogView {
    /** The catalog list; None stands for `undefined`, which the fetch effect stores
        when a reply has no `casas` field. */
    var casas: Option<seq<Casa>>
    var modalVisible: bool
    var descModalVisible: bool
    var selectedCasa: Option<Casa>
    var fullDescription: string
    var titulo: string
    var mensaje: string

    function State(): CatalogState
      reads this
    {
      CatalogState(casas, modalVisible, descModalVisible, selectedCasa, fullDescription, titulo, mensaje)
    }

    /** A visible contact modal has a listing; a hidden one holds no draft message;
        a hidden description modal holds no text. */
    ghost predicate Valid()
      reads this
    {
      && (modalVisible ==> selectedCasa.Some?)
      && (!modalVisible ==> titulo == "" && mensaje == "")
      && (!descModalVisible ==> fullDescription == "")
    }

    /** The initial `useState` values. */
    constructor ()
      ensures State() == CatalogState(Some([]), false, false, None, "", "", "")
      ensures Valid()
    {
      casas := Some([]);
      modalVisible := false;
      descModalVisible := false;
      selectedCasa := None;
      fullDescription := "";
      titulo := "";
      mensaje := "";
    }

    /** The mount effect: `GET /api/casas` without a token, then `setCasas(data.casas)`.
        The status is not checked, so any reply whose body parses replaces the list
        (with `undefined` if it has no `casas`); a rejected fetch or an unreadable body
        is only logged and leaves the list as it was. */
    method LoadCatalog(resp: Response) returns (request: Request)
      requires Valid()
      modifies this
      ensures Valid()
      ensures request == Request(GET, CatalogPath, None, None)
      ensures resp.NetworkError? || resp.payload.Unparseable? ==> State() == old(State())
      ensures resp.Reply? && resp.payload.Json? ==> State() == old(State()).(casas := resp.payload.casas)
    {
      request := Request(GET, CatalogPath, None, None);
      match resp {
        case NetworkError(_) =>
        case Reply(_, payload) =>
          match payload {
            case Unparseable(_) =>
            case Json(list, _, _) => casas := list;
          }
      }
    }

    /** `handleOpenModal(casa)`: without a stored token, send the visitor to sign in
        and leave the modal as it is; otherwise select the listing and show the modal. */
    method HandleOpenModal(storage: Storage, casa: Casa) returns (navigateTo: Option<string>)
      requires Valid()
      modifies this
      ensures Valid()
      ensures !Truthy(storage.GetItem(TokenKey)) ==> navigateTo == Some(Guard.SignInRoute) && State() == old(State())
      ensures Truthy(storage.GetItem(TokenKey)) ==>
        navigateTo == None && State() == old(State()).(selectedCasa := Some(casa), modalVisible := true)
      ensures !old(modalVisible) ==> titulo == "" && mensaje == ""
    {
      var token := storage.GetItem(TokenKey);
      if !Truthy(token) {
        navigateTo := Some(Guard.SignInRoute);
      } else {
        navigateTo := None;
        selectedCasa := Some(casa);
        modalVisible := true;
      }
    }

    /** `handleOpenDescModal(descripcion)`. */
    method HandleOpenDescModal(descripcion: string)
      requires Valid()
      modifies this
      ensures Valid()
      ensures State() == old(State()).(fullDescription := descripcion, descModalVisible := true)
    {
      fullDescription := descripcion;
      descModalVisible := true;
    }

    /** `handleCloseModal`: hide the modal and clear its inputs; the selected
        listing is kept. */
    method HandleCloseModal()
      requires Valid()
      modifies this
      ensures Valid()
      ensures State() == old(State()).(modalVisible := false, titulo := "", mensaje := "")
    {
      modalVisible := false;
      titulo := "";
      mensaje := "";
    }

    /** `handleCloseDescModal`. */
    method HandleCloseDescModal()
      requires Valid()
      modifies this
      ensures Valid()
      ensures State() == old(State()).(descModalVisible := false, fullDescription := "")
    {
      descModalVisible := false;
      fullDescription := "";
    }

    /** `handleEnviar`: acknowledge the message (nothing is sent) and close the
        modal exactly as its cancel button does. */
    method HandleEnviar() returns (alertText: string)
      requires Valid()
      modifies this
      ensures Valid()
      ensures alertText == SentAlert
      ensures State() == old(State()).(modalVisible := false, titulo := "", mensaje := "")
    {
      alertText := SentAlert;
      HandleCloseModal();
    }

    /** The subject input's change handler; the input is only rendered while the
        contact modal is shown for a listing. */
    method EditTitulo(value: string)
      requires Valid() && modalVisible && selectedCasa.Some?
      modifies this
      ensures Valid()
      ensures State() == old(State()).(titulo := value)
    {
      titulo := value;
    }

    /** The message textarea's change handler, under the same rendering condition. */
    method EditMensaje(value: string)
      requires Valid() && modalVisible && selectedCasa.Some?
      modifies this
      ensures Valid()
      ensures State() == old(State()).(mensaje := value)
    {
      mensaje := value;
    }
  }
}
