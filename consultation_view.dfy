/**
 * The users' document consultation screen,
 * `src/components/DocumentConsultation.tsx`: six filter fields, the sort
 * choice, the current page, a selection kept as a plain list of ids, the
 * rows and pagination of the last listing, its error text, the alerts and
 * the new-folder form.
 */
module ConsultationView {
  import opened Common
  import opened UiState

  /** The pagination record the listing endpoint answers. */
  datatype Pagination = Pagination(total: int, pages: int, currentPage: int, perPage: int)

  const DefaultPagination := Pagination(0, 0, 1, 10)

  datatype Filters = Filters(
    search: string, date: string, documentType: string, department: string, user: string, folder: string)

  const NoFilters := Filters("", "", "", "", "", "")

  datatype FilterField = SearchField | DateField | TypeField | DepartmentField | UserField | FolderField

  datatype ConsultState = ConsultState(
    documents: seq<ListedDocument>,
    pagination: Pagination,
    error: Option<string>,
    filters: Filters,
    sortBy: string,
    sortOrder: string,
    currentPage: int,
    selected: seq<string>,
    alerts: seq<string>,
    newFolder: NewFolderForm)

  /** The new-folder form: the name typed, the colour chosen and whether the form is shown. */
  datatype NewFolderForm = NewFolderForm(name: string, color: string, shown: bool)

  const InitialNewFolder := NewFolderForm("", "#ef4444", false)

  const InitialConsult := ConsultState([], DefaultPagination, None, NoFilters, "created_at", "desc", 1, [], [],
                                       InitialNewFolder)

  /** The body createFolder posts to `/api/folders`. */
  datatype FolderRequest = FolderRequest(name: string, description: string, color: string)

  /** The answer to the listing request; absent fields are `None`. */
  datatype ListingReply =
    | ListingOk(rows: Option<seq<ListedDocument>>, pagination: Option<Pagination>)
    | ListingRejected(error: Option<string>)
    | ListingUnreachable

  /** loadDocuments; a signed-out user loads nothing. */
  function Loaded(c: ConsultState, signedIn: bool, reply: ListingReply): ConsultState
  {
    if !signedIn then c
    else match reply
      case ListingOk(rows, pagination) =>
        c.(error := None, documents := OrElse(rows, []), pagination := OrElse(pagination, DefaultPagination))
      case ListingRejected(error) =>
        c.(error := Some("Error al cargar documentos: " + OrElse(error, "Error desconocido")))
      case ListingUnreachable =>
        c.(error := Some("Error de conexión al cargar documentos"))
  }

  /** Every filter input sets its field and returns to page 1. */
  function SetFilter(c: ConsultState, field: FilterField, value: string): ConsultState
  {
    var f := c.filters;
    var g := match field
      case SearchField => f.(search := value)
      case DateField => f.(date := value)
      case TypeField => f.(documentType := value)
      case DepartmentField => f.(department := value)
      case UserField => f.(user := value)
      case FolderField => f.(folder := value);
    c.(filters := g, currentPage := 1)
  }

  /** A folder card: choosing the chosen folder again clears the choice. */
  function FolderCardClick(c: ConsultState, folderId: string): ConsultState
  {
    SetFilter(c, FolderField, if c.filters.folder == folderId then "" else folderId)
  }

  /** clearFilters. */
  function ClearFilters(c: ConsultState): ConsultState
  {
    c.(filters := NoFilters, currentPage := 1)
  }

  /** A row's checkbox: checking appends the id, unchecking removes every copy of it. */
  function CheckDocument(c: ConsultState, id: string, checked: bool): ConsultState
  {
    c.(selected := if checked then c.selected + [id] else Filter(c.selected, (x: string) => x != id))
  }

  /** The header checkbox: every loaded row's id, or none. */
  function CheckAll(c: ConsultState, checked: bool): ConsultState
  {
    c.(selected := if checked then Column(c.documents, (d: ListedDocument) => d.id) else [])
  }

  /** handleDeleteDocument: on success the listing is reloaded and the id leaves the selection. */
  function DeleteDocument(c: ConsultState, id: string, confirmed: bool, signedIn: bool, reply: Outcome,
                          listing: ListingReply): ConsultState
  {
    if !confirmed || !signedIn then c
    else match reply
      case Accepted =>
        var d := Loaded(c, signedIn, listing);
        d.(selected := Filter(d.selected, (x: string) => x != id))
      case Rejected(error) => c.(alerts := c.alerts + ["Error eliminando documento: " + error])
      case Unreachable => c.(alerts := c.alerts + ["Error eliminando documento"])
  }

  /**
   * moveToFolder: nothing at all with an empty selection or no user;
   * otherwise a request whose folder is `null` for the `''` choice, and on
   * success an empty selection and a reloaded listing.
   */
  function MoveToFolder(c: ConsultState, folderId: string, signedIn: bool, reply: Outcome, listing: ListingReply)
    : (ConsultState, Option<MoveRequest>)
  {
    if |c.selected| == 0 || !signedIn then (c, None)
    else
      var request := Some(MoveRequest(c.selected, if folderId == "" then None else Some(folderId)));
      match reply
      case Accepted => (Loaded(c.(selected := []), signedIn, listing), request)
      case Rejected(error) => (c.(alerts := c.alerts + ["Error moviendo documentos: " + error]), request)
      case Unreachable => (c.(alerts := c.alerts + ["Error moviendo documentos"]), request)
  }

  /** "Anterior" and "Siguiente" on the current page, clamped by the last listing's page count. */
  function PreviousClick(c: ConsultState): ConsultState
  {
    c.(currentPage := PreviousPage(c.currentPage))
  }

  function NextClick(c: ConsultState): ConsultState
  {
    c.(currentPage := NextPage(c.currentPage, c.pagination.pages))
  }

  /** The rows shown for the folder choice. */
  function Visible(c: ConsultState): seq<ListedDocument>
  {
    VisibleDocuments(c.documents, c.filters.folder)
  }

  /**
   * createFolder: nothing with a blank name or no user; otherwise the
   * trimmed name, an empty description and the chosen colour are posted, a
   * success clears the name and hides the form (and reloads the folder list,
   * which this state does not hold), and a failure raises an alert.
   */
  function CreateFolder(c: ConsultState, signedIn: bool, reply: Outcome): (ConsultState, Option<FolderRequest>)
  {
    var name := Trim(c.newFolder.name);
    if name == "" || !signedIn then (c, None)
    else
      var request := Some(FolderRequest(name, "", c.newFolder.color));
      match reply
      case Accepted => (c.(newFolder := c.newFolder.(name := "", shown := false)), request)
      case Rejected(error) => (c.(alerts := c.alerts + ["Error creando carpeta: " + error]), request)
      case Unreachable => (c.(alerts := c.alerts + ["Error creando carpeta"]), request)
  }

  // ------------------------------------------------------------------
  // Properties

  /** Clearing empties all six filters and returns to page 1, touching nothing else. */
  lemma ClearFiltersRule(c: ConsultState)
    ensures var d := ClearFilters(c);
            && d.filters.search == "" && d.filters.date == "" && d.filters.documentType == ""
            && d.filters.department == "" && d.filters.user == "" && d.filters.folder == ""
            && d.currentPage == 1
            && d == c.(filters := d.filters, currentPage := 1)
    ensures forall field, value :: ClearFilters(SetFilter(c, field, value)) == ClearFilters(c)
  {
  }

  /** Setting a filter changes that field only, and always lands on page 1. */
  lemma SetFilterRule(c: ConsultState, field: FilterField, value: string)
    ensures var d := SetFilter(c, field, value);
            && d.currentPage == 1 && d.selected == c.selected && d.documents == c.documents
            && (field == SearchField ==> d.filters == c.filters.(search := value))
            && (field == FolderField ==> d.filters == c.filters.(folder := value))
  {
  }

  /** Clicking the same folder card twice leaves no folder chosen. */
  lemma FolderCardTwice(c: ConsultState, folderId: string)
    requires folderId != "" && c.filters.folder != folderId
    ensures FolderCardClick(c, folderId).filters.folder == folderId
    ensures FolderCardClick(FolderCardClick(c, folderId), folderId).filters.folder == ""
  {
  }

  /**
   * A checkbox adds exactly its id when checked and removes exactly it when
   * unchecked; on a selection without repetitions a checked box is not
   * already in it, so the selection stays without repetitions.
   */
  lemma CheckDocumentRule(c: ConsultState, id: string, checked: bool)
    requires NoDuplicates(c.selected)
    requires checked ==> id !in c.selected
    ensures var d := CheckDocument(c, id, checked);
            && NoDuplicates(d.selected)
            && (forall x :: x in d.selected <==> (if x == id then checked else x in c.selected))
  {
    if !checked {
      FilterKeepsDistinct(c.selected, (x: string) => x != id);
    }
  }

  /** The header checkbox selects exactly the loaded ids, in row order, or none. */
  lemma CheckAllRule(c: ConsultState, checked: bool)
    ensures var d := CheckAll(c, checked);
            && (checked ==> |d.selected| == |c.documents|
                            && forall i | 0 <= i < |c.documents| :: d.selected[i] == c.documents[i].id)
            && (!checked ==> d.selected == [])
  {
  }

  /**
   * A move with an empty selection, or without a user, sends nothing and
   * changes nothing (no alert, unlike the manager); a move to `''` asks for
   * no folder; a successful one leaves the selection empty.
   */
  lemma MoveToFolderRule(c: ConsultState, folderId: string, signedIn: bool, reply: Outcome, listing: ListingReply)
    ensures var (d, request) := MoveToFolder(c, folderId, signedIn, reply, listing);
            && (c.selected == [] || !signedIn ==> d == c && request.None?)
            && (c.selected != [] && signedIn ==>
                  && request.Some? && request.value.documentIds == c.selected
                  && (request.value.folderId.None? <==> folderId == "")
                  && (reply.Accepted? ==> d.selected == [])
                  && (!reply.Accepted? ==> d.selected == c.selected && |d.alerts| == |c.alerts| + 1))
  {
  }

  /** A confirmed, accepted delete removes exactly that id from the selection. */
  lemma DeleteRule(c: ConsultState, id: string, confirmed: bool, signedIn: bool, reply: Outcome, listing: ListingReply)
    ensures var d := DeleteDocument(c, id, confirmed, signedIn, reply, listing);
            && (confirmed && signedIn && reply.Accepted? ==>
                  forall x :: x in d.selected <==> x in c.selected && x != id)
            && (!confirmed || !signedIn ==> d == c)
            && (!reply.Accepted? ==> d.selected == c.selected && d.documents == c.documents)
  {
  }

  /**
   * Paging keeps inside `1..pages` when it starts there, but with a listing
   * of no pages "Siguiente" moves to page 0 and "Anterior" back to 1.
   */
  lemma PagingRule(c: ConsultState)
    ensures 1 <= c.currentPage <= c.pagination.pages ==>
              1 <= PreviousClick(c).currentPage <= c.pagination.pages
              && 1 <= NextClick(c).currentPage <= c.pagination.pages
    ensures c.pagination.pages == 0 && c.currentPage >= 0 ==>
              NextClick(c).currentPage == 0 && PreviousClick(NextClick(c)).currentPage == 1
  {
    PageButtonsClamp(c.currentPage, c.pagination.pages);
  }

  /** The failed loads keep the rows and set a message; a successful one clears it. */
  lemma LoadedRule(c: ConsultState, signedIn: bool, reply: ListingReply)
    ensures var d := Loaded(c, signedIn, reply);
            && (!signedIn ==> d == c)
            && (signedIn && reply.ListingOk? ==>
                  && d.error.None?
                  && (reply.rows.None? ==> d.documents == [])
                  && (reply.pagination.None? ==> d.pagination == DefaultPagination))
            && (signedIn && !reply.ListingOk? ==> d.documents == c.documents && d.error.Some?)
            && d.selected == c.selected
  {
  }

  /**
   * A blank name or a signed-out user sends nothing and changes nothing.
   * Otherwise the request's name is the typed name trimmed, non-empty and
   * with no white space left at either end, with an empty description and
   * the chosen colour; only a success clears the form, and a failure keeps
   * it and adds one alert.
   */
  lemma CreateFolderRule(c: ConsultState, signedIn: bool, reply: Outcome)
    ensures var (d, request) := CreateFolder(c, signedIn, reply);
            && (Trim(c.newFolder.name) == "" || !signedIn ==> d == c && request.None?)
            && (Trim(c.newFolder.name) != "" && signedIn ==>
                  && request == Some(FolderRequest(Trim(c.newFolder.name), "", c.newFolder.color))
                  && request.value.name != "" && Trim(request.value.name) == request.value.name
                  && d.documents == c.documents && d.selected == c.selected && d.filters == c.filters
                  && (reply.Accepted? ==>
                        d.newFolder == NewFolderForm("", c.newFolder.color, false) && d.alerts == c.alerts)
                  && (!reply.Accepted? ==> d.newFolder == c.newFolder && |d.alerts| == |c.alerts| + 1))
  {
    TrimIdempotent(c.newFolder.name);
  }

  /** After a successful creation the name is empty, so pressing the button again sends nothing. */
  lemma CreateFolderOnce(c: ConsultState, signedIn: bool, reply: Outcome, again: Outcome)
    requires CreateFolder(c, signedIn, reply).1.Some? && reply.Accepted?
    ensures var d := CreateFolder(c, signedIn, reply).0;
            CreateFolder(d, signedIn, again) == (d, None)
  {
    assert Trim("") == "" by { TrimEmptyIffAllWhite(""); }
  }

  // ------------------------------------------------------------------
  // The component

  class DocumentConsultation {
    var documents: seq<ListedDocument>
    var pagination: Pagination
    var error: Option<string>
    var filters: Filters
    var sortBy: string
    var sortOrder: string
    var currentPage: int
    var selectedDocuments: seq<string>
    var alerts: seq<string>
    var showCreateFolder: bool
    var newFolderName: string
    var newFolderColor: string

    function State(): ConsultState
      reads this
    {
      ConsultState(documents, pagination, error, filters, sortBy, sortOrder, currentPage, selectedDocuments, alerts,
                   NewFolderForm(newFolderName, newFolderColor, showCreateFolder))
    }

    constructor ()
      ensures State() == InitialConsult
    {
      documents := [];
      pagination := DefaultPagination;
      error := None;
      filters := NoFilters;
      sortBy := "created_at";
      sortOrder := "desc";
      currentPage := 1;
      selectedDocuments := [];
      alerts := [];
      showCreateFolder := false;
      newFolderName := "";
      newFolderColor := "#ef4444";
    }

    method LoadDocuments(signedIn: bool, reply: ListingReply)
      modifies this
      ensures State() == Loaded(old(State()), signedIn, reply)
    {
      if !signedIn {
        return;
      }
      error := None;
      match reply {
        case ListingOk(rows, p) =>
          documents := if rows.Some? then rows.value else [];
          pagination := if p.Some? then p.value else DefaultPagination;
        case ListingRejected(e) =>
          error := Some("Error al cargar documentos: " + (if e.Some? then e.value else "Error desconocido"));
        case ListingUnreachable =>
          error := Some("Error de conexión al cargar documentos");
      }
    }

    method ChangeFilter(field: FilterField, value: string)
      modifies this
      ensures State() == SetFilter(old(State()), field, value)
    {
      match field {
        case SearchField => filters := filters.(search := value);
        case DateField => filters := filters.(date := value);
        case TypeField => filters := filters.(documentType := value);
        case DepartmentField => filters := filters.(department := value);
        case UserField => filters := filters.(user := value);
        case FolderField => filters := filters.(folder := value);
      }
      currentPage := 1;
    }

    method ClickFolderCard(folderId: string)
      modifies this
      ensures State() == FolderCardClick(old(State()), folderId)
    {
      ChangeFilter(FolderField, if filters.folder == folderId then "" else folderId);
    }

    /** The header's sort control. */
    method ChangeSort(field: string, order: string)
      modifies this
      ensures State() == old(State()).(sortBy := field, sortOrder := order, currentPage := 1)
    {
      sortBy := field;
      sortOrder := order;
      currentPage := 1;
    }

    method ClearAllFilters()
      modifies this
      ensures State() == ClearFilters(old(State()))
    {
      filters := filters.(search := "");
      filters := filters.(date := "");
      filters := filters.(documentType := "");
      filters := filters.(department := "");
      filters := filters.(user := "");
      filters := filters.(folder := "");
      currentPage := 1;
    }

    method ToggleCheckbox(id: string, checked: bool)
      modifies this
      ensures State() == CheckDocument(old(State()), id, checked)
    {
      if checked {
        selectedDocuments := selectedDocuments + [id];
      } else {
        selectedDocuments := Filter(selectedDocuments, (x: string) => x != id);
      }
    }

    method ToggleAll(checked: bool)
      modifies this
      ensures State() == CheckAll(old(State()), checked)
    {
      if checked {
        selectedDocuments := Column(documents, (d: ListedDocument) => d.id);
      } else {
        selectedDocuments := [];
      }
    }

    method HandleDeleteDocument(id: string, confirmed: bool, signedIn: bool, reply: Outcome, listing: ListingReply)
      modifies this
      ensures State() == DeleteDocument(old(State()), id, confirmed, signedIn, reply, listing)
    {
      if !confirmed || !signedIn {
        return;
      }
      match reply {
        case Accepted =>
          LoadDocuments(signedIn, listing);
          selectedDocuments := Filter(selectedDocuments, (x: string) => x != id);
        case Rejected(e) =>
          alerts := alerts + ["Error eliminando documento: " + e];
        case Unreachable =>
          alerts := alerts + ["Error eliminando documento"];
      }
    }

    method MoveSelectedToFolder(folderId: string, signedIn: bool, reply: Outcome, listing: ListingReply)
      returns (request: Option<MoveRequest>)
      modifies this
      ensures (State(), request) == MoveToFolder(old(State()), folderId, signedIn, reply, listing)
    {
      if |selectedDocuments| == 0 || !signedIn {
        return None;
      }
      request := Some(MoveRequest(selectedDocuments, if folderId == "" then None else Some(folderId)));
      match reply {
        case Accepted =>
          selectedDocuments := [];
          LoadDocuments(signedIn, listing);
        case Rejected(e) =>
          alerts := alerts + ["Error moviendo documentos: " + e];
        case Unreachable =>
          alerts := alerts + ["Error moviendo documentos"];
      }
    }

    /** The "Nueva carpeta" button shows or hides the form; the inputs set its fields. */
    method ToggleCreateFolder()
      modifies this
      ensures State() == old(State()).(newFolder := old(State().newFolder).(shown := !old(showCreateFolder)))
    {
      showCreateFolder := !showCreateFolder;
    }

    method TypeFolderName(name: string)
      modifies this
      ensures State() == old(State()).(newFolder := old(State().newFolder).(name := name))
    {
      newFolderName := name;
    }

    method ChooseFolderColor(color: string)
      modifies this
      ensures State() == old(State()).(newFolder := old(State().newFolder).(color := color))
    {
      newFolderColor := color;
    }

    method HandleCreateFolder(signedIn: bool, reply: Outcome) returns (request: Option<FolderRequest>)
      modifies this
      ensures (State(), request) == CreateFolder(old(State()), signedIn, reply)
    {
      var name := Trim(newFolderName);
      if name == "" || !signedIn {
        return None;
      }
      request := Some(FolderRequest(name, "", newFolderColor));
      match reply {
        case Accepted =>
          newFolderName := "";
          showCreateFolder := false;
        case Rejected(e) =>
          alerts := alerts + ["Error creando carpeta: " + e];
        case Unreachable =>
          alerts := alerts + ["Error creando carpeta"];
      }
    }

    method PreviousPageClick()
      modifies this
      ensures State() == PreviousClick(old(State()))
    {
      currentPage := if currentPage - 1 > 1 then currentPage - 1 else 1;
    }

    method NextPageClick()
      modifies this
      ensures State() == NextClick(old(State()))
    {
      currentPage := if currentPage + 1 < pagination.pages then currentPage + 1 else pagination.pages;
    }

    /** A numbered button: the `i`-th of the buttons `PageNumbers` lists. */
    method PageNumberClick(i: nat)
      requires i < |PageNumbers(pagination.pages)|
      modifies this
      ensures State() == old(State()).(currentPage := PageNumbers(old(pagination.pages))[i])
      ensures 1 <= currentPage <= pagination.pages
    {
      PageNumbersWithinRange(pagination.pages);
      currentPage := i + 1;
    }
  }
}
