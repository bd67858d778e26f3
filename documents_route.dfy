/**
 * `src/app/api/documents/route.ts`: GET lists documents with filters, an
 * ordering, paging, the folders with their document counts and the
 * de-duplicated filter options; PUT moves documents to a folder by setting
 * their `folder_id`; DELETE removes one document row.
 */
module DocumentsRoute {
  import opened Common
  import opened Tables
  import opened Store
  import opened Query

  // ------------------------------------------------------------------
  // GET

  /** The query-string parameters; `page` and `limit` are the parsed values of present parameters. */
  datatype ListParams = ListParams(
    search: Option<string>,
    date: Option<string>,
    documentType: Option<string>,   // the `type` parameter
    category: Option<string>,
    folder: Option<string>,         // the `folder` parameter
    sortBy: Option<string>,
    sortOrder: Option<string>,
    page: Option<int>,
    limit: Option<int>)

  function ListPage(p: ListParams): int { OrElse(p.page, 1) }

  function ListLimit(p: ListParams): int { OrElse(p.limit, 10) }

  /** The folder filter: the text `'null'` asks for documents without a folder. */
  function FolderConds(folder: string): seq<Cond>
  {
    if folder == "" then []
    else if folder == "null" then [IsNull(FolderId)]
    else [Equals(FolderId, folder)]
  }

  function ListConds(p: ListParams): seq<Cond>
  {
    var search := OrElse(p.search, "");
    var date := OrElse(p.date, "");
    var kind := OrElse(p.documentType, "");
    var category := OrElse(p.category, "");
    [OwnerJoined]
    + When(search != "", TitleOrFilenameLike(search))
    + When(date != "", AtLeast(CreatedAt, date + "-01"))
    + When(date != "", Before(CreatedAt, date + "-31"))
    + When(kind != "", Equals(DocumentType, kind))
    + When(category != "", Equals(Category, category))
    + FolderConds(OrElse(p.folder, ""))
  }

  /** The sort fields GET accepts. */
  function ListSortColumn(field: string): Option<Column>
  {
    if field == "title" then Some(Title)
    else if field == "created_at" then Some(CreatedAt)
    else if field == "document_type" then Some(DocumentType)
    else if field == "category" then Some(Category)
    else None
  }

  function ListPlan(p: ListParams): Plan
  {
    var (from, to) := PageRange(ListPage(p), ListLimit(p));
    Plan(ListConds(p), OrElse(ListSortColumn(OrElse(p.sortBy, "created_at")), CreatedAt),
         p.sortOrder == Some("asc"), from, to)
  }

  datatype DocumentResponse = DocumentResponse(
    id: string,
    title: string,
    filename: string,
    status: Option<string>,
    category: Option<string>,
    documentType: Option<string>,
    fileSize: Option<int>,
    createdAt: string,
    folderId: Option<string>,
    ownerName: string,
    ownerEmail: string,
    folderName: Option<string>,
    folderColor: Option<string>)

  function OwnerName(r: Row): string
  {
    if r.owner.Some? then TemplateText(r.owner.value.firstName) + " " + TemplateText(r.owner.value.lastName)
    else "Usuario"
  }

  function DocumentResponseOf(r: Row): DocumentResponse
  {
    var d := r.doc;
    DocumentResponse(d.id, d.title, d.filename, d.status, d.category, d.documentType, d.fileSize, d.createdAt,
                     d.folderId, OwnerName(r), if r.owner.Some? then r.owner.value.email else "",
                     if r.folder.Some? then Some(r.folder.value.name) else None,
                     if r.folder.Some? then r.folder.value.color else None)
  }

  /** A folder with `documents(count)`: the documents whose `folder_id` names it. */
  datatype FolderEntry = FolderEntry(id: string, name: string, color: Option<string>, documentCount: nat)

  function InFolder(docs: seq<Document>, folderId: string): nat
  {
    Count(docs, (d: Document) => d.folderId == Some(folderId))
  }

  /** The folder listing (in the order `order('name')` returns it); a failed query lists none. */
  function FolderEntries(folders: Option<seq<Folder>>, docs: seq<Document>): (r: seq<FolderEntry>)
    ensures folders.None? ==> r == []
    ensures folders.Some? ==> |r| == |folders.value|
    ensures folders.Some? ==> forall i | 0 <= i < |r| ::
              r[i].id == folders.value[i].id && r[i].documentCount == InFolder(docs, folders.value[i].id)
  {
    if folders.None? then []
    else
      var fs := folders.value;
      seq(|fs|, i requires 0 <= i < |fs| => FolderEntry(fs[i].id, fs[i].name, fs[i].color, InFolder(docs, fs[i].id)))
  }

  /** The truthy values, in order (`.filter(Boolean)` over nullable texts). */
  function TruthyValues(xs: seq<Option<string>>): (r: seq<string>)
    ensures forall v :: v in r <==> exists i :: 0 <= i < |xs| && Truthy(xs[i]) && xs[i].value == v
    ensures "" !in r
  {
    if xs == [] then []
    else
      var init := xs[..|xs| - 1];
      var last := xs[|xs| - 1];
      var r := TruthyValues(init) + (if Truthy(last) then [last.value] else []);
      assert forall i | 0 <= i < |init| :: init[i] == xs[i];
      r
  }

  /** `[...new Set(values.filter(Boolean))]`. */
  function OptionList(xs: seq<Option<string>>): seq<string>
  {
    Dedupe(TruthyValues(xs))
  }

  /** The filter options are read from the first 1000 documents that have an owner (none when that query fails). */
  function FilterRows(table: seq<Row>, reply: Reply): seq<Row>
  {
    if reply.Failed? then [] else Take(Filter(table, (r: Row) => r.owner.Some?), 1000)
  }

  function TypesOf(rows: seq<Row>): seq<Option<string>>
  {
    seq(|rows|, i requires 0 <= i < |rows| => rows[i].doc.documentType)
  }

  function CategoriesOf(rows: seq<Row>): seq<Option<string>>
  {
    seq(|rows|, i requires 0 <= i < |rows| => rows[i].doc.category)
  }

  function UserNamesOf(rows: seq<Row>): seq<Option<string>>
  {
    seq(|rows|, i requires 0 <= i < |rows| => if rows[i].owner.Some? then Some(OwnerName(rows[i])) else None)
  }

  datatype Pagination = Pagination(currentPage: int, totalPages: Option<int>, totalDocuments: nat, limit: int)

  datatype DocumentsResponse =
    | Listed(documents: seq<DocumentResponse>, folders: seq<FolderEntry>, pagination: Pagination,
             types: seq<string>, categories: seq<string>, users: seq<string>)
    | Changed(message: string, changedFolders: seq<FolderEntry>)
    | Refused(status: int, error: string)

  /**
   * GET over `table` (every document joined with its owner and folder, in the
   * requested order), the folder rows (`None` when their query fails, which
   * is only logged) and the backend's replies to the listing and option queries.
   */
  function ListDocuments(caller: Option<string>, p: ListParams, table: seq<Row>, listReply: Reply,
                         folders: Option<seq<Folder>>, optionsReply: Reply): (r: DocumentsResponse)
    ensures !Truthy(caller) ==> r == Refused(401, "No autorizado")
  {
    if !Truthy(caller) then Refused(401, "No autorizado")
    else
      var a := Run(table, ListPlan(p), listReply);
      if a.QueryFailed? then Refused(500, "Error al obtener documentos")
      else
        var docs := seq(|table|, i requires 0 <= i < |table| => table[i].doc);
        var options := FilterRows(table, optionsReply);
        Listed(seq(|a.page|, i requires 0 <= i < |a.page| => DocumentResponseOf(a.page[i])),
               FolderEntries(folders, docs),
               Pagination(ListPage(p), JsCeilDiv(a.count, ListLimit(p)), a.count, ListLimit(p)),
               OptionList(TypesOf(options)), OptionList(CategoriesOf(options)), OptionList(UserNamesOf(options)))
  }

  /** The `folder` parameter: `'null'` filters `folder_id IS NULL`, any other non-empty text filters by equality. */
  lemma FolderSentinel(p: ListParams)
    ensures var conds := ListPlan(p).conds;
            var folder := OrElse(p.folder, "");
            (folder == "null" ==> conds[|conds| - 1] == IsNull(FolderId))
            && (folder != "" && folder != "null" ==> conds[|conds| - 1] == Equals(FolderId, folder))
            && (folder == "" ==> forall k | 0 <= k < |conds| :: !conds[k].IsNull? && conds[k] != Equals(FolderId, ""))
  {
    var folder := OrElse(p.folder, "");
    var conds := ListConds(p);
    var pre := conds[..|conds| - |FolderConds(folder)|];
    assert conds == pre + FolderConds(folder);
    forall k | 0 <= k < |pre| ensures !pre[k].IsNull? && pre[k] != Equals(FolderId, "") {
    }
  }

  /** Defaults: page 1 of 10 rows, newest first. */
  lemma ListDefaults(p: ListParams)
    requires p.page.None? && p.limit.None? && p.sortBy.None? && p.sortOrder.None?
    ensures ListPlan(p).from == 0 && ListPlan(p).to == 9
    ensures ListPlan(p).orderBy == CreatedAt && !ListPlan(p).ascending
  {
  }

  /** A sort field outside the allow-list falls back to `created_at`; the order is ascending only for `asc`. */
  lemma ListSortAllowList(p: ListParams)
    ensures var field := OrElse(p.sortBy, "created_at");
            (field in {"title", "created_at", "document_type", "category"} ==>
               ListPlan(p).orderBy == ListSortColumn(field).value)
            && (field !in {"title", "created_at", "document_type", "category"} ==> ListPlan(p).orderBy == CreatedAt)
            && (ListPlan(p).ascending <==> p.sortOrder == Some("asc"))
  {
  }

  /**
   * A listing that reaches the database reports every match in
   * `totalDocuments`, `totalPages = Math.ceil(count / limit)`, and the window
   * `[(page-1)*limit, (page-1)*limit+limit-1]` of the matches.
   */
  lemma ListWindow(caller: Option<string>, p: ListParams, table: seq<Row>, listReply: Reply,
                   folders: Option<seq<Folder>>, optionsReply: Reply)
    requires Truthy(caller) && listReply.Done?
    requires ListPlan(p).from >= 0 && ListLimit(p) >= 0
    ensures var plan := ListPlan(p);
            var hits := Filter(table, (r: Row) => Matches(r, plan.conds));
            var res := ListDocuments(caller, p, table, listReply, folders, optionsReply);
            && res.Listed?
            && res.pagination == Pagination(ListPage(p), JsCeilDiv(|hits|, ListLimit(p)), |hits|, ListLimit(p))
            && |res.documents| == |Window(hits, plan.from, plan.to)|
            && forall k | 0 <= k < |res.documents| :: res.documents[k] == DocumentResponseOf(Window(hits, plan.from, plan.to)[k])
  {
  }

  /**
   * The option lists hold no duplicates and no empty value, and a value is
   * listed exactly when some row read for the options carries it.
   */
  lemma OptionListsDistinct(xs: seq<Option<string>>)
    ensures NoDuplicates(OptionList(xs))
    ensures "" !in OptionList(xs)
    ensures forall v :: v in OptionList(xs) <==> exists i :: 0 <= i < |xs| && Truthy(xs[i]) && xs[i].value == v
  {
  }

  /** A failed listing query answers 500; a failed folder or options query only empties those lists. */
  lemma ListFailures(caller: Option<string>, p: ListParams, table: seq<Row>, listReply: Reply,
                     folders: Option<seq<Folder>>, optionsReply: Reply)
    requires Truthy(caller)
    ensures var res := ListDocuments(caller, p, table, listReply, folders, optionsReply);
            && (listReply.Failed? ==> res == Refused(500, "Error al obtener documentos"))
            && (listReply.Done? && res.Listed? && folders.None? ==> res.folders == [])
            && (listReply.Done? && res.Listed? && optionsReply.Failed? ==>
                  res.types == [] && res.categories == [] && res.users == [])
  {
  }

  // ------------------------------------------------------------------
  // PUT and DELETE

  /**
   * The PUT body: `documentIds` is `None` when it is missing or not an array;
   * `folderId` is `None` for `null`.
   */
  datatype MoveBody = MoveBody(documentIds: Option<seq<string>>, folderId: Option<string>)

  /** `update({folder_id}).in('id', ids)`. */
  function SetFolder(docs: seq<Document>, ids: seq<string>, folderId: Option<string>): (r: seq<Document>)
    ensures |r| == |docs|
    ensures forall i | 0 <= i < |docs| ::
              r[i] == if docs[i].id in ids then docs[i].(folderId := folderId) else docs[i]
  {
    seq(|docs|, i requires 0 <= i < |docs| => if docs[i].id in ids then docs[i].(folderId := folderId) else docs[i])
  }

  function MovedMessage(n: nat): string
  {
    NatToString(n) + " documento(s) movido(s) exitosamente"
  }

  /**
   * PUT over the parsed body (`None` when it is not JSON), the backend's reply
   * to the update and the folder rows read afterwards (`None` on error).
   */
  function PutState(s: Snapshot, caller: Option<string>, body: Option<MoveBody>, update: Reply,
                    folders: Option<seq<Folder>>): (Snapshot, DocumentsResponse)
  {
    if !Truthy(caller) then (s, Refused(401, "No autorizado"))
    else if body.None? then (s, Refused(500, "Error al mover documentos"))
    else if body.value.documentIds.None? then (s, Refused(400, "Se requiere un array de IDs de documentos"))
    else if update.Failed? then (s, Refused(500, "Error moviendo documentos"))
    else
      var ids := body.value.documentIds.value;
      var t := s.(documents := SetFolder(s.documents, ids, body.value.folderId));
      (t, Changed(MovedMessage(|ids|), FolderEntries(folders, t.documents)))
  }

  method PutDocuments(db: Store.Database, caller: Option<string>, body: Option<MoveBody>, update: Reply,
                      folders: Option<seq<Folder>>) returns (r: DocumentsResponse)
    modifies db
    ensures (db.State(), r) == PutState(old(db.State()), caller, body, update, folders)
  {
    if !Truthy(caller) {
      return Refused(401, "No autorizado");
    }
    if body.None? {
      return Refused(500, "Error al mover documentos");
    }
    if body.value.documentIds.None? {
      return Refused(400, "Se requiere un array de IDs de documentos");
    }
    if update.Failed? {
      return Refused(500, "Error moviendo documentos");
    }
    var ids := body.value.documentIds.value;
    db.documents := SetFolder(db.documents, ids, body.value.folderId);
    r := Changed(MovedMessage(|ids|), FolderEntries(folders, db.documents));
  }

  /**
   * PUT refuses a missing or non-array `documentIds` with 400 and changes
   * nothing; an array, even an empty one, is accepted, and then exactly the
   * listed documents get the new `folder_id` and the message counts the ids.
   */
  lemma PutMovesListed(s: Snapshot, caller: Option<string>, body: MoveBody, update: Reply,
                       folders: Option<seq<Folder>>)
    requires Truthy(caller)
    ensures var (t, r) := PutState(s, caller, Some(body), update, folders);
            && (body.documentIds.None? ==> t == s && r.Refused? && r.status == 400)
            && (body.documentIds.Some? && update.Done? ==>
                  r == Changed(MovedMessage(|body.documentIds.value|), FolderEntries(folders, t.documents))
                  && t == s.(documents := t.documents)
                  && |t.documents| == |s.documents|
                  && forall i | 0 <= i < |s.documents| ::
                       t.documents[i].folderId == (if s.documents[i].id in body.documentIds.value
                                                   then body.folderId else s.documents[i].folderId)
                       && t.documents[i] == s.documents[i].(folderId := t.documents[i].folderId))
            && (body.documentIds == Some([]) && update.Done? ==> t == s)
  {
    if body.documentIds == Some([]) && update.Done? {
      var t := SetFolder(s.documents, [], body.folderId);
      assert t == s.documents;
    }
  }

  /** The count of a folder after a move: the moved documents join it, the rest keep their folder. */
  lemma MoveFolderCount(docs: seq<Document>, ids: seq<string>, folderId: string)
    ensures InFolder(SetFolder(docs, ids, Some(folderId)), folderId)
         == Count(docs, (d: Document) => d.id in ids || d.folderId == Some(folderId))
  {
    MoveFolderCountAt(docs, ids, folderId);
  }

  lemma {:induction false} MoveFolderCountAt(docs: seq<Document>, ids: seq<string>, folderId: string)
    ensures Count(SetFolder(docs, ids, Some(folderId)), (d: Document) => d.folderId == Some(folderId))
         == Count(docs, (d: Document) => d.id in ids || d.folderId == Some(folderId))
  {
    if docs != [] {
      MoveFolderCountAt(docs[1..], ids, folderId);
      assert SetFolder(docs, ids, Some(folderId))[1..] == SetFolder(docs[1..], ids, Some(folderId));
    }
  }

  /** `delete().eq('id', id)`. */
  function WithoutDocument(docs: seq<Document>, id: string): seq<Document>
  {
    Filter(docs, (d: Document) => d.id != id)
  }

  function DeleteState(s: Snapshot, caller: Option<string>, id: Option<string>, delete: Reply,
                       folders: Option<seq<Folder>>): (Snapshot, DocumentsResponse)
  {
    if !Truthy(caller) then (s, Refused(401, "No autorizado"))
    else if !Truthy(id) then (s, Refused(400, "Se requiere el ID del documento"))
    else if delete.Failed? then (s, Refused(500, "Error eliminando documento"))
    else
      var t := s.(documents := WithoutDocument(s.documents, id.value));
      (t, Changed("Documento eliminado exitosamente", FolderEntries(folders, t.documents)))
  }

  method DeleteDocument(db: Store.Database, caller: Option<string>, id: Option<string>, delete: Reply,
                        folders: Option<seq<Folder>>) returns (r: DocumentsResponse)
    modifies db
    ensures (db.State(), r) == DeleteState(old(db.State()), caller, id, delete, folders)
  {
    if !Truthy(caller) {
      return Refused(401, "No autorizado");
    }
    if !Truthy(id) {
      return Refused(400, "Se requiere el ID del documento");
    }
    if delete.Failed? {
      return Refused(500, "Error eliminando documento");
    }
    db.documents := WithoutDocument(db.documents, id.value);
    r := Changed("Documento eliminado exitosamente", FolderEntries(folders, db.documents));
  }

  /**
   * DELETE without an id answers 400 and changes nothing; a failed delete
   * answers 500 and changes nothing; a successful one removes exactly the
   * rows with that id, keeps the others in their order with their
   * multiplicity, and touches no other table.
   */
  lemma DeleteRemovesOnlyThatId(s: Snapshot, caller: Option<string>, id: Option<string>, delete: Reply,
                                folders: Option<seq<Folder>>)
    requires Truthy(caller)
    ensures var (t, r) := DeleteState(s, caller, id, delete, folders);
            && (!Truthy(id) ==> t == s && r == Refused(400, "Se requiere el ID del documento"))
            && (Truthy(id) && delete.Failed? ==> t == s && r == Refused(500, "Error eliminando documento"))
            && (Truthy(id) && delete.Done? ==>
                  && r.Changed?
                  && t == s.(documents := t.documents)
                  && t.documents == Filter(s.documents, (d: Document) => d.id != id.value)
                  && (forall d :: d in t.documents <==> d in s.documents && d.id != id.value)
                  && (forall d: Document | d.id != id.value :: multiset(t.documents)[d] == multiset(s.documents)[d])
                  && (forall d: Document | d.id == id.value :: multiset(t.documents)[d] == 0))
  {
    if Truthy(id) && delete.Done? {
      FilterMultiset(s.documents, (d: Document) => d.id != id.value);
    }
  }

  /** Every handler answers 401 without an identity, and changes nothing. */
  lemma HandlersNeedIdentity(s: Snapshot, caller: Option<string>, p: ListParams, table: seq<Row>, reply: Reply,
                             folders: Option<seq<Folder>>, body: Option<MoveBody>, id: Option<string>)
    requires !Truthy(caller)
    ensures ListDocuments(caller, p, table, reply, folders, reply) == Refused(401, "No autorizado")
    ensures PutState(s, caller, body, reply, folders) == (s, Refused(401, "No autorizado"))
    ensures DeleteState(s, caller, id, reply, folders) == (s, Refused(401, "No autorizado"))
  {
  }
}
