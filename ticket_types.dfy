/**
 * The administrators' ticket-type page: the list with its name search, the create / edit
 * dialog, the save request (PUT for an edit, POST for a new type) and the delete dialog,
 * each guarded by the session token.
 */
module TicketTypes {
  import opened Wrappers
  import opened Seqs
  import opened Text

  datatype TicketType = TicketType(id: nat, ticketName: string, description: string)

  /** The dialog's two inputs. */
  datatype TypeForm = TypeForm(ticketName: string, description: string)

  datatype FormField = NameField | DescriptionField

  const EmptyForm: TypeForm := TypeForm("", "")
  const NotAuthenticated: string := "No estás autenticado."
  const LoadFailed: string := "No se pudieron cargar los tipos de boleta. Intenta de nuevo más tarde."
  const SaveFailed: string := "No se pudo guardar el tipo de boleta. Inténtalo de nuevo."
  const CollectionPath: string := "/ticket-types/"

  // ---------------------------------------------------------------- search

  /** The lower-cased name includes the lower-cased term. */
  predicate NameMatches(term: string, t: TicketType)
  {
    ContainsIgnoringCase(t.ticketName, term)
  }

  function NameTest(term: string): TicketType -> bool
  {
    t => NameMatches(term, t)
  }

  /** The search effect's list. */
  function FilteredTypes(types: seq<TicketType>, term: string): seq<TicketType>
  {
    Filter(types, NameTest(term))
  }

  /** The list shown holds the types whose name matches, in their original order. */
  lemma FilteredTypesSpec(types: seq<TicketType>, term: string)
    ensures IsSubsequence(FilteredTypes(types, term), types)
    ensures forall t :: t in FilteredTypes(types, term) <==> t in types && NameMatches(term, t)
  {
    FilterIsSubsequence(types, NameTest(term));
    forall t ensures t in FilteredTypes(types, term) <==> t in types && NameMatches(term, t) {
      FilterMember(types, NameTest(term), t);
    }
  }

  /** An empty search shows every type. */
  lemma EmptySearchShowsAll(types: seq<TicketType>)
    ensures FilteredTypes(types, "") == types
  {
    forall i | 0 <= i < |types| ensures NameTest("")(types[i]) {
      ContainsEmpty(Lower(types[i].ticketName));
    }
    FilterKeepsAll(types, NameTest(""));
  }

  // ---------------------------------------------------------------- requests

  /** `/ticket-types/{id}/`. */
  function TypePath(id: nat): (path: string)
    ensures |path| > |CollectionPath| && path[..|CollectionPath|] == CollectionPath
    ensures path[|path| - 1] == '/' && path != CollectionPath
  {
    CollectionPath + DecimalString(id) + "/"
  }

  /** Different types are saved and deleted at different paths. */
  lemma TypePathInjective(a: nat, b: nat)
    requires TypePath(a) == TypePath(b)
    ensures a == b
  {
    var pa, pb := TypePath(a), TypePath(b);
    assert pa[|CollectionPath|..|pa| - 1] == DecimalString(a);
    assert pb[|CollectionPath|..|pb| - 1] == DecimalString(b);
    DigitsValueOfDecimal(a);
    DigitsValueOfDecimal(b);
  }

  datatype Verb = Put | Post

  datatype SaveRequest = SaveRequest(verb: Verb, path: string, body: TypeForm)

  /** The save's outcome: accepted, refused with the server's messages, or no reply. */
  datatype SaveReply = Saved | RejectedWith(messages: seq<string>) | NoResponse

  // ---------------------------------------------------------------- page state

  class TicketTypeAdmin {
    var ticketTypes: seq<TicketType>
    var filteredTicketTypes: seq<TicketType>
    var searchTerm: string
    var isLoading: bool
    var error: Option<string>
    var isFormOpen: bool
    var isDeleteOpen: bool
    var isEditMode: bool
    var currentTicketType: Option<TicketType>
    var formData: TypeForm
    var formError: Option<string>

    /** The list shown follows the search, and an edit always has the type it edits. */
    predicate Valid()
      reads this
    {
      filteredTicketTypes == FilteredTypes(ticketTypes, searchTerm) &&
      (isEditMode ==> currentTicketType.Some?)
    }

    constructor ()
      ensures Valid()
      ensures ticketTypes == [] && searchTerm == "" && isLoading && error.None?
      ensures !isFormOpen && !isDeleteOpen && !isEditMode && currentTicketType.None?
      ensures formData == EmptyForm && formError.None?
    {
      ticketTypes := [];
      filteredTicketTypes := [];
      searchTerm := "";
      isLoading := true;
      error := None;
      isFormOpen := false;
      isDeleteOpen := false;
      isEditMode := false;
      currentTicketType := None;
      formData := EmptyForm;
      formError := None;
    }

    /** The search effect: recompute the list shown. */
    method Refilter()
      modifies this
      ensures filteredTicketTypes == FilteredTypes(ticketTypes, searchTerm)
      ensures ticketTypes == old(ticketTypes) && searchTerm == old(searchTerm)
      ensures isLoading == old(isLoading) && error == old(error)
      ensures isFormOpen == old(isFormOpen) && isDeleteOpen == old(isDeleteOpen)
      ensures isEditMode == old(isEditMode) && currentTicketType == old(currentTicketType)
      ensures formData == old(formData) && formError == old(formError)
    {
      filteredTicketTypes := FilteredTypes(ticketTypes, searchTerm);
    }

    /** Typing in the search box. */
    method Search(term: string)
      modifies this
      requires Valid()
      ensures Valid()
      ensures searchTerm == term && ticketTypes == old(ticketTypes)
      ensures isLoading == old(isLoading) && error == old(error)
      ensures isFormOpen == old(isFormOpen) && isDeleteOpen == old(isDeleteOpen)
      ensures isEditMode == old(isEditMode) && currentTicketType == old(currentTicketType)
      ensures formData == old(formData) && formError == old(formError)
    {
      searchTerm := term;
      Refilter();
    }

    /**
     * `fetchTicketTypes`, with the reply as an input (`None` when the request fails):
     * returns whether a request was made. Without a token an error is set instead.
     */
    method Fetch(token: Option<string>, reply: Option<seq<TicketType>>) returns (requested: bool)
      modifies this
      requires Valid()
      ensures Valid()
      ensures requested <==> Truthy(token)
      ensures !isLoading
      ensures !requested ==> ticketTypes == old(ticketTypes) && error == Some(NotAuthenticated)
      ensures requested && reply.Some? ==> ticketTypes == reply.value && error == old(error)
      ensures requested && reply.None? ==> ticketTypes == old(ticketTypes) && error == Some(LoadFailed)
      ensures searchTerm == old(searchTerm)
      ensures isFormOpen == old(isFormOpen) && isDeleteOpen == old(isDeleteOpen)
      ensures isEditMode == old(isEditMode) && currentTicketType == old(currentTicketType)
      ensures formData == old(formData) && formError == old(formError)
    {
      if !Truthy(token) {
        isLoading := false;
        error := Some(NotAuthenticated);
        return false;
      }
      isLoading := true;
      if reply.Some? {
        ticketTypes := reply.value;
        filteredTicketTypes := reply.value;
      } else {
        error := Some(LoadFailed);
      }
      isLoading := false;
      Refilter();
      return true;
    }

    /** `handleOpenCreateModal`. */
    method OpenCreate()
      modifies this
      requires Valid()
      ensures Valid()
      ensures !isEditMode && formError.None? && formData == EmptyForm && currentTicketType.None? && isFormOpen
      ensures ticketTypes == old(ticketTypes) && filteredTicketTypes == old(filteredTicketTypes)
      ensures searchTerm == old(searchTerm) && isLoading == old(isLoading) && error == old(error)
      ensures isDeleteOpen == old(isDeleteOpen)
    {
      isEditMode := false;
      formError := None;
      formData := EmptyForm;
      currentTicketType := None;
      isFormOpen := true;
    }

    /** `handleOpenEditModal`: the dialog starts from the type's name and description. */
    method OpenEdit(t: TicketType)
      modifies this
      requires Valid()
      ensures Valid()
      ensures isEditMode && formError.None? && formData == TypeForm(t.ticketName, t.description)
      ensures currentTicketType == Some(t) && isFormOpen
      ensures ticketTypes == old(ticketTypes) && filteredTicketTypes == old(filteredTicketTypes)
      ensures searchTerm == old(searchTerm) && isLoading == old(isLoading) && error == old(error)
      ensures isDeleteOpen == old(isDeleteOpen)
    {
      isEditMode := true;
      formError := None;
      formData := TypeForm(t.ticketName, t.description);
      currentTicketType := Some(t);
      isFormOpen := true;
    }

    /** `handleOpenDeleteModal`. */
    method OpenDelete(t: TicketType)
      modifies this
      requires Valid()
      ensures Valid()
      ensures currentTicketType == Some(t) && isDeleteOpen
      ensures ticketTypes == old(ticketTypes) && filteredTicketTypes == old(filteredTicketTypes)
      ensures searchTerm == old(searchTerm) && isLoading == old(isLoading) && error == old(error)
      ensures isFormOpen == old(isFormOpen) && isEditMode == old(isEditMode)
      ensures formData == old(formData) && formError == old(formError)
    {
      currentTicketType := Some(t);
      isDeleteOpen := true;
    }

    /** `handleFormChange`: one input takes the typed value. */
    method FormChange(field: FormField, value: string)
      modifies this
      requires Valid()
      ensures Valid()
      ensures field == NameField ==> formData == old(formData).(ticketName := value)
      ensures field == DescriptionField ==> formData == old(formData).(description := value)
      ensures ticketTypes == old(ticketTypes) && filteredTicketTypes == old(filteredTicketTypes)
      ensures searchTerm == old(searchTerm) && isLoading == old(isLoading) && error == old(error)
      ensures isFormOpen == old(isFormOpen) && isDeleteOpen == old(isDeleteOpen)
      ensures isEditMode == old(isEditMode) && currentTicketType == old(currentTicketType)
      ensures formError == old(formError)
    {
      if field == NameField {
        formData := formData.(ticketName := value);
      } else {
        formData := formData.(description := value);
      }
    }

    /**
     * `handleSubmit`, with the server's reply as an input: returns the request sent, if
     * any. An edit is a PUT to the edited type's path, anything else a POST to the
     * collection; the dialog closes only after a save.
     */
    method Submit(token: Option<string>, reply: SaveReply) returns (request: Option<SaveRequest>)
      modifies this
      requires Valid()
      ensures Valid()
      ensures request.None? <==> !Truthy(token)
      ensures request.Some? ==> request.value.body == old(formData)
      ensures request.Some? ==> (request.value.verb == Put <==> old(isEditMode))
      ensures request.Some? && old(isEditMode) ==> request.value.path == TypePath(old(currentTicketType).value.id)
      ensures request.Some? && !old(isEditMode) ==> request.value.path == CollectionPath
      ensures isFormOpen == (old(isFormOpen) && !(request.Some? && reply.Saved?))
      ensures request.None? || reply.Saved? ==> formError.None?
      ensures request.Some? && reply.RejectedWith? ==> formError == Some("Error: " + Join(reply.messages, ", "))
      ensures request.Some? && reply.NoResponse? ==> formError == Some(SaveFailed)
      ensures ticketTypes == old(ticketTypes) && filteredTicketTypes == old(filteredTicketTypes)
      ensures searchTerm == old(searchTerm) && isLoading == old(isLoading) && error == old(error)
      ensures isDeleteOpen == old(isDeleteOpen) && isEditMode == old(isEditMode)
      ensures currentTicketType == old(currentTicketType) && formData == old(formData)
    {
      formError := None;
      if !Truthy(token) {
        return None;
      }
      var path := if isEditMode then TypePath(currentTicketType.value.id) else CollectionPath;
      var verb := if isEditMode then Put else Post;
      request := Some(SaveRequest(verb, path, formData));
      match reply {
        case Saved =>
          isFormOpen := false;
        case RejectedWith(messages) =>
          formError := Some("Error: " + Join(messages, ", "));
        case NoResponse =>
          formError := Some(SaveFailed);
      }
    }

    /**
     * `handleDelete`, with whether the server accepted as an input: returns the path
     * deleted, if any. Nothing without a token or a chosen type; the dialog closes only
     * after an accepted delete.
     */
    method Delete(token: Option<string>, accepted: bool) returns (path: Option<string>)
      modifies this
      requires Valid()
      ensures Valid()
      ensures path.None? <==> !Truthy(token) || old(currentTicketType).None?
      ensures path.Some? ==> path.value == TypePath(old(currentTicketType).value.id)
      ensures isDeleteOpen == (old(isDeleteOpen) && !(path.Some? && accepted))
      ensures ticketTypes == old(ticketTypes) && filteredTicketTypes == old(filteredTicketTypes)
      ensures searchTerm == old(searchTerm) && isLoading == old(isLoading) && error == old(error)
      ensures isFormOpen == old(isFormOpen) && isEditMode == old(isEditMode)
      ensures currentTicketType == old(currentTicketType)
      ensures formData == old(formData) && formError == old(formError)
    {
      if !Truthy(token) || currentTicketType.None? {
        return None;
      }
      path := Some(TypePath(currentTicketType.value.id));
      if accepted {
        isDeleteOpen := false;
      }
    }
  }
}
