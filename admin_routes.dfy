/**
 * The administration endpoints: `src/app/api/admin/documents/route.ts`
 * (listing, update and delete of documents), `src/app/api/admin/folders/route.ts`
 * (folder listing, creation, update and delete) and
 * `src/app/api/admin/folders/move/route.ts` (bulk move). Each handler checks
 * the identity and its input, then hands over to the library operation and
 * maps its `{success, error}` flag to a status code. Any authenticated
 * identity is accepted: there is no role check.
 */
module AdminRoutes {
  import opened Common
  import opened Tables
  import opened Store
  import opened Query
  import opened Database
  import opened AdminDocuments
  import DocumentsRoute

  /** What the endpoints send back. */
  datatype Payload =
    | ErrorPayload(error: string)
    | ErrorDetails(error: string, details: string)           // the catch-all 500
    | Success
    | ListingPayload(data: seq<DocumentWithDetails>, total: nat, pages: Option<int>, currentPage: int, perPage: int)
    | FoldersPayload(folders: seq<FolderWithCount>)
    | FolderPayload(folder: FolderWithCount)
    | MessagePayload(message: string)

  datatype ApiResponse = ApiResponse(status: int, payload: Payload)

  const Unauthorized := ApiResponse(401, ErrorPayload("No autorizado"))

  /** A request body that is not JSON makes `request.json()` throw, which the handler answers with 500. */
  function Unparsable(message: string): ApiResponse
  {
    ApiResponse(500, ErrorDetails("Error interno del servidor", message))
  }

  /** A failed library call is answered with 400 and the library's message. */
  function Outcome(r: Reply): (a: ApiResponse)
    ensures a.status == 400 <==> r.Failed?
    ensures r.Failed? ==> a.payload == ErrorPayload(r.message)
  {
    if r.Failed? then ApiResponse(400, ErrorPayload(r.message)) else ApiResponse(200, Success)
  }

  // ------------------------------------------------------------------
  // GET /api/admin/documents

  /** The query-string parameters; `page` and `limit` are the parsed values of present parameters. */
  datatype AdminQuery = AdminQuery(
    status: Option<string>,
    category: Option<string>,
    folderId: Option<string>,
    ownerId: Option<string>,
    search: Option<string>,
    dateFrom: Option<string>,
    dateTo: Option<string>,
    page: Option<int>,
    limit: Option<int>)

  /** `param?.split(',').filter(Boolean) ?? []`. */
  function ParseList(param: Option<string>): (r: seq<string>)
    ensures param.None? ==> r == []
    ensures param.Some? ==> forall x :: x in r <==> x in Split(param.value, ',') && x != ""
    ensures "" !in r
  {
    if param.None? then [] else Filter(Split(param.value, ','), (x: string) => x != "")
  }

  /** The filter the handler builds: both lists always present, page 1 and limit 20 by default. */
  function AdminFilterOf(q: AdminQuery): AdminFilter
  {
    AdminFilter(Some(ParseList(q.status)), Some(ParseList(q.category)), q.folderId, q.ownerId, q.search,
                q.dateFrom, q.dateTo, Some(OrElse(q.page, 1)), Some(OrElse(q.limit, 20)))
  }

  function AdminDocumentsGet(caller: Option<string>, q: AdminQuery, table: seq<Row>,
                             junction: Option<seq<FolderDocument>>, reply: Reply): ApiResponse
  {
    if !Truthy(caller) then Unauthorized
    else
      var f := AdminFilterOf(q);
      var result := GetAllDocumentsAdmin(table, f, junction, reply);
      ApiResponse(200, ListingPayload(result.documents, result.total, result.pages, f.page.value, f.limit.value))
  }

  /**
   * A comma-separated list of non-empty values without commas is parsed back
   * into exactly those values; empty pieces (`a,,b`, a trailing comma) are dropped.
   */
  lemma ParseListJoin(parts: seq<string>)
    requires forall k | 0 <= k < |parts| :: parts[k] != "" && ',' !in parts[k]
    ensures ParseList(Some(Join(parts, ','))) == parts
  {
    if parts == [] {
      assert Split("", ',') == [""];
    } else {
      SplitJoin(parts, ',');
      FilterAll(parts, (x: string) => x != "");
    }
  }

  /**
   * Without `page` and `limit` the listing asks for rows 0 to 19 and echoes
   * page 1 and 20 rows per page; without `status` or `category` those lists
   * are empty and filter nothing.
   */
  lemma AdminGetDefaults(caller: Option<string>, q: AdminQuery, table: seq<Row>,
                         junction: Option<seq<FolderDocument>>, reply: Reply)
    requires Truthy(caller) && q.page.None? && q.limit.None?
    ensures var res := AdminDocumentsGet(caller, q, table, junction, reply);
            res.status == 200 && res.payload.currentPage == 1 && res.payload.perPage == 20
    ensures AdminPlan(AdminFilterOf(q), []).from == 0 && AdminPlan(AdminFilterOf(q), []).to == 19
    ensures q.status.None? ==> AdminFilterOf(q).status == Some([])
    ensures q.category.None? ==> AdminFilterOf(q).category == Some([])
  {
  }

  /** Any identity gets the same listing: there is no role check. */
  lemma AdminGetHasNoRoleCheck(c1: Option<string>, c2: Option<string>, q: AdminQuery, table: seq<Row>,
                               junction: Option<seq<FolderDocument>>, reply: Reply)
    requires Truthy(c1) && Truthy(c2)
    ensures AdminDocumentsGet(c1, q, table, junction, reply) == AdminDocumentsGet(c2, q, table, junction, reply)
    ensures AdminDocumentsGet(c1, q, table, junction, reply).status == 200
  {
  }

  // ------------------------------------------------------------------
  // PUT and DELETE /api/admin/documents

  /** The PUT body: `document_id` and the remaining fields as the update. */
  datatype DocumentPutBody = DocumentPutBody(documentId: Option<string>, updates: DocumentUpdates)

  function AdminDocumentsPut(s: Snapshot, caller: Option<string>, body: Result<DocumentPutBody>, env: UpdateEnv)
    : (Snapshot, ApiResponse)
  {
    if !Truthy(caller) then (s, Unauthorized)
    else if body.Err? then (s, Unparsable(body.error))
    else if !Truthy(body.value.documentId) then (s, ApiResponse(400, ErrorPayload("document_id requerido")))
    else
      var (t, r) := UpdateDocumentState(s, body.value.documentId.value, body.value.updates, caller.value, env);
      (t, Outcome(r))
  }

  /**
   * PUT without `document_id` answers 400 and changes nothing; otherwise the
   * state is the library update's, and the answer is 400 exactly when the
   * library reports a failure, carrying its message. Once the column update
   * succeeds, the rows with that id hold every given field of the body
   * (title, status, description, document type) and the new `updated_at`,
   * and no other row changes.
   */
  lemma AdminPutChecks(s: Snapshot, caller: Option<string>, body: DocumentPutBody, env: UpdateEnv)
    requires Truthy(caller)
    ensures var (t, res) := AdminDocumentsPut(s, caller, Ok(body), env);
            && (!Truthy(body.documentId) ==> t == s && res == ApiResponse(400, ErrorPayload("document_id requerido")))
            && (Truthy(body.documentId) ==>
                  var (u, r) := UpdateDocumentState(s, body.documentId.value, body.updates, caller.value, env);
                  t == u && (res.status == 400 <==> r.Failed?) && (res.status == 200 <==> r.Done?))
            && (Truthy(body.documentId) && env.update.Done? ==>
                  && |t.documents| == |s.documents|
                  && forall i | 0 <= i < |s.documents| ::
                       && (s.documents[i].id == body.documentId.value ==>
                             Rewritten(s.documents[i], body.updates, env.now, t.documents[i]))
                       && (s.documents[i].id != body.documentId.value ==> t.documents[i] == s.documents[i]))
  {
    if Truthy(body.documentId) {
      UpdateDocumentColumns(s, body.documentId.value, body.updates, caller.value, env);
    }
  }

  function AdminDocumentsDelete(s: Snapshot, caller: Option<string>, id: Option<string>, env: DeleteEnv)
    : (Snapshot, ApiResponse)
  {
    if !Truthy(caller) then (s, Unauthorized)
    else if !Truthy(id) then (s, ApiResponse(400, ErrorPayload("ID de documento requerido")))
    else
      var (t, r) := DeleteDocumentState(s, id.value, caller.value, env);
      (t, Outcome(r))
  }

  /**
   * DELETE without `id` answers 400 and changes nothing; a document that is
   * not found is answered 400 'Documento no encontrado' with nothing changed;
   * a success removes every row with that id.
   */
  lemma AdminDeleteChecks(s: Snapshot, caller: Option<string>, id: Option<string>, env: DeleteEnv)
    requires Truthy(caller)
    ensures var (t, res) := AdminDocumentsDelete(s, caller, id, env);
            && (!Truthy(id) ==> t == s && res == ApiResponse(400, ErrorPayload("ID de documento requerido")))
            && (Truthy(id) && |DocumentsWithId(s.documents, id.value)| == 0 ==>
                  t == s && res == ApiResponse(400, ErrorPayload(DocumentNotFound)))
            && (Truthy(id) && res.status == 200 ==> forall d | d in t.documents :: d.id != id.value)
  {
    if Truthy(id) {
      DeleteDocumentEffects(s, id.value, caller.value, env);
    }
  }

  // ------------------------------------------------------------------
  // /api/admin/folders

  function AdminFoldersGet(s: Snapshot, caller: Option<string>, listing: Reply, failedCounts: set<string>): ApiResponse
  {
    if !Truthy(caller) then Unauthorized
    else ApiResponse(200, FoldersPayload(GetDocumentFolders(s, listing, failedCounts)))
  }

  /** The POST body; `description` is `None` when it is absent. */
  datatype FolderPostBody = FolderPostBody(name: Option<string>, description: Option<string>, color: string)

  /** `!name?.trim()`: a missing name, or one that is all white space. */
  predicate BlankName(name: Option<string>)
  {
    name.None? || Trim(name.value) == ""
  }

  function AdminFoldersPost(s: Snapshot, caller: Option<string>, body: Result<FolderPostBody>, env: CreateFolderEnv)
    : (Snapshot, ApiResponse)
  {
    if !Truthy(caller) then (s, Unauthorized)
    else if body.Err? then (s, Unparsable(body.error))
    else if BlankName(body.value.name) then (s, ApiResponse(400, ErrorPayload("Nombre de carpeta requerido")))
    else
      var b := body.value;
      var (t, r) := CreateFolderState(s, b.name.value, OrElse(b.description, ""), b.color, caller.value, env);
      if r.Err? then (t, ApiResponse(400, ErrorPayload(r.error)))
      else (t, ApiResponse(200, FolderPayload(r.value)))
  }

  /**
   * POST with a missing or all-white-space name answers 400 and changes
   * nothing; a created folder has a non-empty trimmed name, and an empty
   * description when none was sent.
   */
  lemma FolderPostChecks(s: Snapshot, caller: Option<string>, body: FolderPostBody, env: CreateFolderEnv)
    requires Truthy(caller)
    ensures var (t, res) := AdminFoldersPost(s, caller, Ok(body), env);
            && (BlankName(body.name) ==> t == s && res == ApiResponse(400, ErrorPayload("Nombre de carpeta requerido")))
            && (res.status == 200 ==>
                  && res.payload.FolderPayload?
                  && t.folders == s.folders + [res.payload.folder.folder]
                  && res.payload.folder.folder.name == Trim(body.name.value) != ""
                  && (body.description.None? ==> res.payload.folder.folder.description == ""))
  {
    if !BlankName(body.name) {
      var description := OrElse(body.description, "");
      var (t, r) := CreateFolderState(s, body.name.value, description, body.color, caller.value, env);
      CreatedFolderIsTrimmed(s, body.name.value, description, body.color, caller.value, env);
      if r.Ok? {
        assert AdminFoldersPost(s, caller, Ok(body), env) == (t, ApiResponse(200, FolderPayload(r.value)));
        if body.description.None? {
          assert Trim("") == "";
        }
      } else {
        assert AdminFoldersPost(s, caller, Ok(body), env).1.status == 400;
      }
    }
  }

  /** The PUT body: `folder_id` and the remaining fields as the update. */
  datatype FolderPutBody = FolderPutBody(folderId: Option<string>, updates: FolderUpdates)

  function AdminFoldersPut(s: Snapshot, caller: Option<string>, body: Result<FolderPutBody>, update: Reply,
                           log: LogEnv)
    : (Snapshot, ApiResponse)
  {
    if !Truthy(caller) then (s, Unauthorized)
    else if body.Err? then (s, Unparsable(body.error))
    else if !Truthy(body.value.folderId) then (s, ApiResponse(400, ErrorPayload("folder_id requerido")))
    else
      var (t, r) := UpdateFolderState(s, body.value.folderId.value, body.value.updates, caller.value, update, log);
      (t, Outcome(r))
  }

  /**
   * PUT without `folder_id` answers 400 and changes nothing; a failed update
   * answers 400 with nothing changed; otherwise the folder with that id holds
   * the given name, description and colour and keeps the rest, and no other
   * folder changes.
   */
  lemma FolderPutChecks(s: Snapshot, caller: Option<string>, body: FolderPutBody, update: Reply, log: LogEnv)
    requires Truthy(caller)
    ensures var (t, res) := AdminFoldersPut(s, caller, Ok(body), update, log);
            && (!Truthy(body.folderId) ==> t == s && res == ApiResponse(400, ErrorPayload("folder_id requerido")))
            && (Truthy(body.folderId) && update.Failed? ==> t == s && res == ApiResponse(400, ErrorPayload(update.message)))
            && (Truthy(body.folderId) && update.Done? ==>
                  res == ApiResponse(200, Success)
                  && |t.folders| == |s.folders|
                  && forall i | 0 <= i < |s.folders| ::
                       && (s.folders[i].id != body.folderId.value ==> t.folders[i] == s.folders[i])
                       && (s.folders[i].id == body.folderId.value ==>
                             FolderRewritten(s.folders[i], body.updates, t.folders[i])))
  {
    if Truthy(body.folderId) {
      UpdateFolderKeepsOthers(s, body.folderId.value, body.updates, caller.value, update, log);
    }
  }

  function AdminFoldersDelete(s: Snapshot, caller: Option<string>, id: Option<string>, env: FolderDeleteEnv)
    : (Snapshot, ApiResponse)
  {
    if !Truthy(caller) then (s, Unauthorized)
    else if !Truthy(id) then (s, ApiResponse(400, ErrorPayload("ID de carpeta requerido")))
    else
      var (t, r) := DeleteFolderState(s, id.value, caller.value, env);
      (t, Outcome(r))
  }

  /**
   * DELETE without `id` answers 400 and changes nothing; a failed folder
   * delete answers 400; a success leaves no such folder and no junction row
   * of it (when the unlink step succeeded), and the documents untouched.
   */
  lemma FolderDeleteChecks(s: Snapshot, caller: Option<string>, id: Option<string>, env: FolderDeleteEnv)
    requires Truthy(caller)
    ensures var (t, res) := AdminFoldersDelete(s, caller, id, env);
            && (!Truthy(id) ==> t == s && res == ApiResponse(400, ErrorPayload("ID de carpeta requerido")))
            && (Truthy(id) ==> (res.status == 400 <==> env.delete.Failed?))
            && (Truthy(id) && env.unlink.Done? ==>
                  t.documents == s.documents && RowsOfFolder(t.folderDocuments, id.value) == []
                  && (res.status == 200 ==> forall f | f in t.folders :: f.id != id.value))
  {
    if Truthy(id) && env.unlink.Done? {
      DeleteFolderUnlinks(s, id.value, caller.value, env);
    }
  }

  // ------------------------------------------------------------------
  // POST /api/admin/folders/move

  /** The body is read as `DocumentsRoute.MoveBody`: `document_ids` and `folder_id` under their snake-case names. */
  function AdminMove(s: Snapshot, caller: Option<string>, body: Result<DocumentsRoute.MoveBody>, env: MoveEnv)
    : (Snapshot, ApiResponse)
  {
    if !Truthy(caller) then (s, Unauthorized)
    else if body.Err? then (s, Unparsable(body.error))
    else if body.value.documentIds.None? || |body.value.documentIds.value| == 0 then
      (s, ApiResponse(400, ErrorPayload("Lista de documentos requerida")))
    else
      var ids := body.value.documentIds.value;
      var (t, r) := MoveState(s, ids, body.value.folderId, caller.value, env);
      if r.Failed? then (t, ApiResponse(400, ErrorPayload(r.message)))
      else (t, ApiResponse(200, MessagePayload(DocumentsRoute.MovedMessage(|ids|))))
  }

  /**
   * A missing, non-array or empty list answers 400 and changes nothing; a
   * library failure answers 400; a success reports as many documents as ids
   * were sent. A `null` folder id is handed on as "no folder": the documents
   * end up without any junction row.
   */
  lemma AdminMoveChecks(s: Snapshot, caller: Option<string>, body: DocumentsRoute.MoveBody, env: MoveEnv)
    requires Truthy(caller)
    ensures var (t, res) := AdminMove(s, caller, Ok(body), env);
            && (body.documentIds.None? || body.documentIds == Some([]) ==>
                  t == s && res == ApiResponse(400, ErrorPayload("Lista de documentos requerida")))
            && (body.documentIds.Some? && body.documentIds.value != [] ==>
                  var ids := body.documentIds.value;
                  && (res.status == 400 <==> Truthy(body.folderId) && env.link.Failed?)
                  && (res.status == 200 ==> res.payload == MessagePayload(DocumentsRoute.MovedMessage(|ids|)))
                  && (body.folderId.None? && env.unlink.Done? ==>
                        res.status == 200 && forall fd | fd in t.folderDocuments :: fd.documentId !in ids))
  {
    if body.documentIds.Some? && body.documentIds.value != [] && env.unlink.Done? {
      MoveRelinks(s, body.documentIds.value, body.folderId, caller.value, env);
    }
  }

  // ------------------------------------------------------------------

  /** Every administration handler answers 401 without an identity, and changes nothing. */
  lemma AdminHandlersNeedIdentity(s: Snapshot, caller: Option<string>, q: AdminQuery, table: seq<Row>,
                                  junction: Option<seq<FolderDocument>>, reply: Reply, put: Result<DocumentPutBody>,
                                  uenv: UpdateEnv, id: Option<string>, denv: DeleteEnv, post: Result<FolderPostBody>,
                                  cenv: CreateFolderEnv, fput: Result<FolderPutBody>, log: LogEnv,
                                  fenv: FolderDeleteEnv, move: Result<DocumentsRoute.MoveBody>, menv: MoveEnv)
    requires !Truthy(caller)
    ensures AdminDocumentsGet(caller, q, table, junction, reply) == Unauthorized
    ensures AdminDocumentsPut(s, caller, put, uenv) == (s, Unauthorized)
    ensures AdminDocumentsDelete(s, caller, id, denv) == (s, Unauthorized)
    ensures AdminFoldersGet(s, caller, reply, {}) == Unauthorized
    ensures AdminFoldersPost(s, caller, post, cenv) == (s, Unauthorized)
    ensures AdminFoldersPut(s, caller, fput, reply, log) == (s, Unauthorized)
    ensures AdminFoldersDelete(s, caller, id, fenv) == (s, Unauthorized)
    ensures AdminMove(s, caller, move, menv) == (s, Unauthorized)
  {
  }
}
