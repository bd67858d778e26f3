/**
 * The administrator's document manager, `src/components/DocumentManager.tsx`:
 * the loaded page of documents, the selection `Set`, the filter record with
 * its page number, the page count last reported by the listing endpoint, the
 * alerts the handlers raise and the row open in the metadata editor.
 */
module DocumentManagerView {
  import opened Common
  import opened UiState
  import EditModal
  import Store
  import AdminDocuments
  import AdminRoutes

  datatype Filters = Filters(search: string, status: string, category: string, folderId: string, page: int)

  const InitialFilters := Filters("", "", "", "", 1)

  datatype ManagerState = ManagerState(
    documents: seq<ListedDocument>,
    selected: seq<string>,
    filters: Filters,
    pages: int,
    alerts: seq<string>,
    editing: Option<ListedDocument>,
    showEditModal: bool)

  /** The listing endpoint's answer to loadDocuments: the rows and the page count. */
  datatype Listing = Listing(documents: seq<ListedDocument>, pages: int)

  /** loadDocuments: a successful answer replaces the rows and the page count; anything else leaves them. */
  function Loaded(m: ManagerState, listing: Option<Listing>): ManagerState
  {
    if listing.Some? then m.(documents := listing.value.documents, pages := listing.value.pages) else m
  }

  /** handleSelectDocument. */
  function SelectDocument(m: ManagerState, id: string): ManagerState
  {
    m.(selected := Toggle(m.selected, id))
  }

  /** handleSelectAll: the set of the loaded rows' ids. */
  function SelectAll(m: ManagerState): ManagerState
  {
    m.(selected := IdsOf(m.documents))
  }

  /** handleDeleteDocument, after the confirmation dialog answered `confirmed`. */
  function DeleteDocument(m: ManagerState, id: string, confirmed: bool, reply: Outcome): ManagerState
  {
    if !confirmed then m
    else match reply
      case Accepted =>
        m.(documents := Filter(m.documents, (d: ListedDocument) => d.id != id),
           selected := Filter(m.selected, (x: string) => x != id))
      case Rejected(error) => m.(alerts := m.alerts + ["Error eliminando documento: " + error])
      case Unreachable => m.(alerts := m.alerts + ["Error eliminando documento"])
  }

  /**
   * handleBulkMove: with nothing selected, an alert and no request;
   * otherwise the request with the selected ids in the set's order, and on
   * success a reload of the rows and an empty selection.
   */
  function BulkMove(m: ManagerState, folderId: Option<string>, reply: Outcome, listing: Option<Listing>)
    : (ManagerState, Option<MoveRequest>)
  {
    if m.selected == [] then (m.(alerts := m.alerts + ["Selecciona al menos un documento"]), None)
    else
      var request := Some(MoveRequest(m.selected, folderId));
      match reply
      case Accepted => (Loaded(m, listing).(selected := []), request)
      case Rejected(error) => (m.(alerts := m.alerts + ["Error moviendo documentos: " + error]), request)
      case Unreachable => (m.(alerts := m.alerts + ["Error moviendo documentos"]), request)
  }

  /** The rows shown: those of the chosen folder, or all of them when none is chosen. */
  function Visible(m: ManagerState): seq<ListedDocument>
  {
    VisibleDocuments(m.documents, m.filters.folderId)
  }

  /** handleEditDocument: the row is held for the editor and the editor is shown. */
  function EditDocument(m: ManagerState, d: ListedDocument): ManagerState
  {
    m.(editing := Some(d), showEditModal := true)
  }

  /** The editor's `onClose`: hidden, and no row held. */
  function CloseEditModal(m: ManagerState): ManagerState
  {
    m.(editing := None, showEditModal := false)
  }

  /** The `document` the editor receives for a row: no description, the type falling back to the category. */
  function EditedFrom(d: ListedDocument): EditModal.EditedDocument
  {
    EditModal.EditedDocument(d.id, d.title, None, OrElse(d.documentType, d.category), d.folderId)
  }

  /**
   * The PUT body of handleSaveDocument: `document_id` and the editor's
   * updates spread beside it. A field holding `undefined` is dropped when
   * the body is encoded, so a missing description or folder is absent from
   * the request and leaves that column alone.
   */
  function SaveBody(documentId: string, u: EditModal.Updates): AdminRoutes.DocumentPutBody
  {
    AdminRoutes.DocumentPutBody(Some(documentId),
      AdminDocuments.DocumentUpdates(Some(u.title), None, None,
        if u.folderId.Some? then AdminDocuments.ToFolder(u.folderId.value) else AdminDocuments.Unchanged,
        u.description, Some(u.documentType)))
  }

  /**
   * handleSaveDocument, given the PUT's outcome: the body sent, the new
   * state and how the returned promise settles. A success reloads the rows
   * (and the statistics, which this state does not hold); a refusal rejects
   * with the server's `error`, a failed fetch with its own error, whose text
   * the editor never shows.
   */
  function SaveDocument(m: ManagerState, documentId: string, u: EditModal.Updates, reply: Outcome,
                        listing: Option<Listing>): (ManagerState, AdminRoutes.DocumentPutBody, Reply)
  {
    var body := SaveBody(documentId, u);
    match reply
    case Accepted => (Loaded(m, listing), body, Done)
    case Rejected(error) => (m, body, Failed(error))
    case Unreachable => (m, body, Failed(""))
  }

  // ------------------------------------------------------------------
  // Properties

  /** Toggling flips membership of exactly that id, and a selection without repetitions keeps none. */
  lemma SelectDocumentFlips(m: ManagerState, id: string)
    requires NoDuplicates(m.selected)
    ensures var n := SelectDocument(m, id);
            && NoDuplicates(n.selected)
            && (id in n.selected <==> id !in m.selected)
            && (forall x | x != id :: x in n.selected <==> x in m.selected)
            && n.documents == m.documents && n.filters == m.filters
  {
    ToggleFlips(m.selected, id);
  }

  /** Select-all selects exactly the loaded ids, each once; deselect-all selects none. */
  lemma SelectAllExact(m: ManagerState)
    ensures var n := SelectAll(m);
            && NoDuplicates(n.selected)
            && (forall x :: x in n.selected <==> exists d | d in m.documents :: d.id == x)
  {
  }

  /**
   * A confirmed, accepted delete removes the id from the rows and the
   * selection and keeps everything else in order; a refused or unconfirmed
   * one keeps both.
   */
  lemma DeleteRemovesEverywhere(m: ManagerState, id: string, confirmed: bool, reply: Outcome)
    requires NoDuplicates(m.selected)
    ensures var n := DeleteDocument(m, id, confirmed, reply);
            && NoDuplicates(n.selected)
            && (confirmed && reply.Accepted? ==>
                  && (forall d :: d in n.documents <==> d in m.documents && d.id != id)
                  && (forall x :: x in n.selected <==> x in m.selected && x != id)
                  && n.alerts == m.alerts)
            && (!(confirmed && reply.Accepted?) ==> n.documents == m.documents && n.selected == m.selected)
            && (!confirmed ==> n == m)
  {
    FilterKeepsDistinct(m.selected, (x: string) => x != id);
  }

  /**
   * With nothing selected no request is sent and only an alert is added;
   * otherwise the request carries the selection, a success empties the
   * selection and a failure keeps it.
   */
  lemma BulkMoveRule(m: ManagerState, folderId: Option<string>, reply: Outcome, listing: Option<Listing>)
    ensures var (n, request) := BulkMove(m, folderId, reply, listing);
            && (m.selected == [] ==>
                  request.None? && n == m.(alerts := m.alerts + ["Selecciona al menos un documento"]))
            && (m.selected != [] ==> request == Some(MoveRequest(m.selected, folderId)))
            && (m.selected != [] && reply.Accepted? ==> n.selected == [] && n.alerts == m.alerts)
            && (m.selected != [] && !reply.Accepted? ==>
                  n.selected == m.selected && n.documents == m.documents && |n.alerts| == |m.alerts| + 1)
  {
  }

  /** The folder filter shows exactly that folder's rows, and `'null'` never an unfiled row. */
  lemma VisibleRule(m: ManagerState)
    ensures m.filters.folderId == "" ==> Visible(m) == m.documents
    ensures m.filters.folderId != "" ==>
              forall d :: d in Visible(m) <==> d in m.documents && d.folderId == Some(m.filters.folderId)
    ensures m.filters.folderId == "null" ==> forall d | d in m.documents && d.folderId.None? :: d !in Visible(m)
  {
    VisibleIsFolderFilter(m.documents, m.filters.folderId);
    NullChoiceHidesUnfiled(m.documents);
  }

  /**
   * Opening the editor shows it on that row, and closing it hides it and
   * drops the row; neither touches the rows, the selection or the filters.
   */
  lemma EditModalToggles(m: ManagerState, d: ListedDocument)
    ensures var n := EditDocument(m, d);
            && n.showEditModal && n.editing == Some(d)
            && n == m.(editing := n.editing, showEditModal := n.showEditModal)
    ensures var n := CloseEditModal(EditDocument(m, d));
            && !n.showEditModal && n.editing.None?
            && n.documents == m.documents && n.selected == m.selected && n.filters == m.filters
  {
  }

  /**
   * The editor opened on a row shows the row's title, an empty description
   * and the row's type, or its category when it has none; its folder is the
   * row's, or `''` when the row is unfiled.
   */
  lemma EditorStartsFromRow(d: ListedDocument)
    ensures var f := EditModal.FormOf(EditedFrom(d));
            && f.title == d.title && f.description == ""
            && (d.documentType.Some? ==> f.documentType == d.documentType.value)
            && (d.documentType.None? ==> f.documentType == d.category)
            && (f.folderId == "" <==> d.folderId.None? || d.folderId == Some(""))
  {
  }

  /**
   * The promise handleSaveDocument returns resolves exactly when the PUT is
   * accepted, and only then are the rows reloaded; the body always names the
   * document and carries the editor's title and type.
   */
  lemma SaveDocumentRule(m: ManagerState, documentId: string, u: EditModal.Updates, reply: Outcome,
                         listing: Option<Listing>)
    ensures var (n, body, settled) := SaveDocument(m, documentId, u, reply, listing);
            && body.documentId == Some(documentId)
            && body.updates.title == Some(u.title) && body.updates.documentType == Some(u.documentType)
            && body.updates.status.None? && body.updates.category.None?
            && (settled.Done? <==> reply.Accepted?)
            && (reply.Accepted? ==> n == Loaded(m, listing))
            && (reply.Rejected? ==> n == m && settled == Failed(reply.error))
            && (reply.Unreachable? ==> n == m)
  {
  }

  /**
   * What a save from the editor does to the stored document, once the PUT
   * reaches the administrators' endpoint and its column update succeeds: the
   * title becomes the trimmed title and the type the chosen type; a blank
   * description keeps the stored one (the editor cannot clear it); status and
   * category are kept; and choosing no folder leaves the folder links as they
   * were, so the editor cannot unfile a document either. A row without an id
   * is refused with 400 and nothing changes.
   */
  lemma SavedEditReachesDocument(d: ListedDocument, f: EditModal.Form, s: Store.Snapshot, caller: Option<string>,
                                 env: AdminDocuments.UpdateEnv)
    requires Truthy(caller)
    ensures var (t, res) := AdminRoutes.AdminDocumentsPut(s, caller, Ok(SaveBody(d.id, EditModal.Payload(f))), env);
            && (d.id == "" ==> t == s && res.status == 400)
            && (d.id != "" && env.update.Done? ==>
                  && |t.documents| == |s.documents|
                  && forall i | 0 <= i < |s.documents| && s.documents[i].id == d.id ::
                       && t.documents[i].title == Trim(f.title)
                       && t.documents[i].documentType == Some(f.documentType)
                       && t.documents[i].description
                          == (if Trim(f.description) == "" then s.documents[i].description
                              else Some(Trim(f.description)))
                       && t.documents[i].status == s.documents[i].status
                       && t.documents[i].category == s.documents[i].category)
            && (d.id != "" && env.update.Done? && f.folderId == "" ==> t.folderDocuments == s.folderDocuments)
  {
    var body := SaveBody(d.id, EditModal.Payload(f));
    EditModal.PayloadRule(f);
    AdminRoutes.AdminPutChecks(s, caller, body, env);
    if d.id != "" && env.update.Done? {
      var u := body.updates;
      var s1 := s.(documents := AdminDocuments.UpdateRows(s.documents, d.id, u, env.now));
      var (s2, r) := AdminDocuments.UpdateLinks(s1, d.id, u.folder, env);
      AdminDocuments.UpdateDocumentFolderPart(s1, d.id, u.folder, env);
      if r.Done? {
        AdminDocuments.AdminLogFrame(s2, caller.value, "document_updated", env.log);
      }
    }
  }

  // ------------------------------------------------------------------
  // The component

  class DocumentManager {
    var documents: seq<ListedDocument>
    var selectedDocuments: seq<string>
    var filters: Filters
    var pages: int
    var alerts: seq<string>
    var editingDocument: Option<ListedDocument>
    var showEditModal: bool

    function State(): ManagerState
      reads this
    {
      ManagerState(documents, selectedDocuments, filters, pages, alerts, editingDocument, showEditModal)
    }

    /** The selection, being a `Set`, never holds an id twice. */
    predicate Valid()
      reads this
    {
      NoDuplicates(selectedDocuments)
    }

    constructor ()
      ensures State() == ManagerState([], [], InitialFilters, 0, [], None, false)
      ensures Valid()
    {
      documents := [];
      selectedDocuments := [];
      filters := InitialFilters;
      pages := 0;
      alerts := [];
      editingDocument := None;
      showEditModal := false;
    }

    method LoadDocuments(listing: Option<Listing>)
      modifies this
      ensures State() == Loaded(old(State()), listing)
      ensures old(Valid()) ==> Valid()
    {
      if listing.Some? {
        documents := listing.value.documents;
        pages := listing.value.pages;
      }
    }

    method HandleSelectDocument(id: string)
      requires Valid()
      modifies this
      ensures State() == SelectDocument(old(State()), id)
      ensures Valid()
    {
      ToggleFlips(selectedDocuments, id);
      if id in selectedDocuments {
        selectedDocuments := Filter(selectedDocuments, (x: string) => x != id);
      } else {
        selectedDocuments := selectedDocuments + [id];
      }
    }

    method HandleSelectAll()
      modifies this
      ensures State() == SelectAll(old(State()))
      ensures Valid()
    {
      selectedDocuments := IdsOf(documents);
    }

    method HandleDeselectAll()
      modifies this
      ensures State() == old(State()).(selected := [])
      ensures Valid()
    {
      selectedDocuments := [];
    }

    method HandleDeleteDocument(id: string, confirmed: bool, reply: Outcome)
      requires Valid()
      modifies this
      ensures State() == DeleteDocument(old(State()), id, confirmed, reply)
      ensures Valid()
    {
      DeleteRemovesEverywhere(State(), id, confirmed, reply);
      if !confirmed {
        return;
      }
      match reply {
        case Accepted =>
          documents := Filter(documents, (d: ListedDocument) => d.id != id);
          selectedDocuments := Filter(selectedDocuments, (x: string) => x != id);
        case Rejected(error) =>
          alerts := alerts + ["Error eliminando documento: " + error];
        case Unreachable =>
          alerts := alerts + ["Error eliminando documento"];
      }
    }

    method HandleBulkMove(folderId: Option<string>, reply: Outcome, listing: Option<Listing>)
      returns (request: Option<MoveRequest>)
      requires Valid()
      modifies this
      ensures (State(), request) == BulkMove(old(State()), folderId, reply, listing)
      ensures Valid()
    {
      var selectedIds := selectedDocuments;
      if |selectedIds| == 0 {
        alerts := alerts + ["Selecciona al menos un documento"];
        return None;
      }
      request := Some(MoveRequest(selectedIds, folderId));
      match reply {
        case Accepted =>
          LoadDocuments(listing);
          selectedDocuments := [];
        case Rejected(error) =>
          alerts := alerts + ["Error moviendo documentos: " + error];
        case Unreachable =>
          alerts := alerts + ["Error moviendo documentos"];
      }
    }

    method HandleEditDocument(d: ListedDocument)
      modifies this
      ensures State() == EditDocument(old(State()), d)
      ensures old(Valid()) ==> Valid()
    {
      editingDocument := Some(d);
      showEditModal := true;
    }

    /** The editor's `onClose`. */
    method CloseEditor()
      modifies this
      ensures State() == CloseEditModal(old(State()))
      ensures old(Valid()) ==> Valid()
    {
      showEditModal := false;
      editingDocument := None;
    }

    method HandleSaveDocument(documentId: string, updates: EditModal.Updates, reply: Outcome, listing: Option<Listing>)
      returns (body: AdminRoutes.DocumentPutBody, settled: Reply)
      modifies this
      ensures (State(), body, settled) == SaveDocument(old(State()), documentId, updates, reply, listing)
      ensures old(Valid()) ==> Valid()
    {
      body := SaveBody(documentId, updates);
      match reply {
        case Accepted =>
          LoadDocuments(listing);
          settled := Done;
        case Rejected(error) =>
          settled := Failed(error);
        case Unreachable =>
          settled := Failed("");
      }
    }

    /** Typing in the search box; the page goes back to 1. */
    method SetSearch(text: string)
      modifies this
      ensures State() == old(State()).(filters := old(filters).(search := text, page := 1))
    {
      filters := filters.(search := text, page := 1);
    }

    /** Choosing a status; the page goes back to 1. */
    method SetStatus(status: string)
      modifies this
      ensures State() == old(State()).(filters := old(filters).(status := status, page := 1))
    {
      filters := filters.(status := status, page := 1);
    }

    /** Choosing a folder (`""` for all, `"null"` for "Sin carpeta"); the page goes back to 1. */
    method SetFolder(folderId: string)
      modifies this
      ensures State() == old(State()).(filters := old(filters).(folderId := folderId, page := 1))
    {
      filters := filters.(folderId := folderId, page := 1);
    }

    /** "Anterior". */
    method PreviousPageClick()
      modifies this
      ensures State() == old(State()).(filters := old(filters).(page := PreviousPage(old(filters.page))))
      ensures filters.page >= 1
    {
      filters := filters.(page := if filters.page - 1 > 1 then filters.page - 1 else 1);
    }

    /** "Siguiente", clamped by the page count of the last listing. */
    method NextPageClick()
      modifies this
      ensures State() == old(State()).(filters := old(filters).(page := NextPage(old(filters.page), pages)))
      ensures filters.page <= pages
    {
      filters := filters.(page := if filters.page + 1 < pages then filters.page + 1 else pages);
    }
  }
}
