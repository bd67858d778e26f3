/**
 * The three document-creation endpoints, which share one validation chain:
 * `src/app/api/documents/create/route.ts` (through createDocument),
 * `src/app/api/documents/create-bypass/route.ts` (through
 * createDocumentBypass) and `src/app/api/documents/create-mock/route.ts`
 * (which stores nothing and answers a simulated record).
 */
module CreateRoutes {
  import opened Common
  import opened Tables
  import opened Store
  import opened Database
  import opened DatabaseBypass

  /** The JSON body; a field is `None` when it is absent or `null`. */
  datatype CreateBody = CreateBody(
    title: Option<string>,
    filename: Option<string>,
    storagePath: Option<string>,
    fileSize: Option<int>,
    mimeType: Option<string>,
    category: Option<string>,
    activateOcr: bool)

  /** 50 MiB. */
  const MaxCreateSize := 50 * 1024 * 1024

  const CreateTypes: seq<string> := ["application/pdf", "image/jpeg", "image/jpg", "image/png", "image/webp"]

  const MissingFields := "Todos los campos son requeridos"
  const TooLarge := "El archivo es muy grande. Tamaño máximo: 50MB."
  const TypeNotAllowed := "Tipo de archivo no permitido"

  /** Every required field is truthy: a size of 0 counts as missing. */
  predicate HasRequiredFields(b: CreateBody)
  {
    Truthy(b.title) && Truthy(b.filename) && Truthy(b.storagePath)
    && b.fileSize.Some? && b.fileSize.value != 0 && Truthy(b.mimeType)
  }

  /** The shared guard chain: required fields, then size, then type; `None` when the body passes. */
  function CreateRejection(b: CreateBody): Option<string>
  {
    if !HasRequiredFields(b) then Some(MissingFields)
    else if b.fileSize.value > MaxCreateSize then Some(TooLarge)
    else if b.mimeType.value !in CreateTypes then Some(TypeNotAllowed)
    else None
  }

  /** The summary the real endpoints return of a created row. */
  datatype Summary = Summary(id: string, title: string, status: Option<string>, createdAt: string)

  /** The record the simulation answers. */
  datatype MockRecord = MockRecord(
    id: string,
    title: string,
    status: string,
    createdAt: string,
    storagePath: string,
    ownerId: string,
    filename: string,
    fileSize: int,
    mimeType: string,
    category: Option<string>,
    ocrEnabled: bool)

  datatype CreateResponse =
    | Created(documentId: string, message: string, summary: Summary)           // 201
    | Simulated(documentId: string, message: string, record: MockRecord)      // 201, with `mock: true`
    | Refused(status: int, error: string)                                     // 401 or 400
    | ServerFailure(error: string, mode: Option<string>)                      // 500, `mode` for bypass and mock

  function StatusOf(r: CreateResponse): int
  {
    match r
    case Created(_, _, _) => 201
    case Simulated(_, _, _) => 201
    case Refused(status, _) => status
    case ServerFailure(_, _) => 500
  }

  /** What the real endpoints hand to the library: the title trimmed and one page. */
  function CreateData(caller: string, b: CreateBody): NewDocument
    requires HasRequiredFields(b)
  {
    NewDocument(caller, Trim(b.title.value), b.filename.value, b.storagePath, b.fileSize, b.mimeType, Some(1))
  }

  function SummaryOf(d: Document): Summary
  {
    Summary(d.id, d.title, d.status, d.createdAt)
  }

  /**
   * POST /api/documents/create over the parsed body (`Err` carries the
   * parser's message) and the backend's answers to createDocument.
   */
  function Create(s: Snapshot, caller: Option<string>, body: Result<CreateBody>, env: CreateEnv)
    : (Snapshot, CreateResponse)
  {
    if !Truthy(caller) then (s, Refused(401, "No autorizado"))
    else if body.Err? then (s, ServerFailure(body.error, None))
    else if CreateRejection(body.value).Some? then (s, Refused(400, CreateRejection(body.value).value))
    else
      var (t, r) := CreateDocumentState(s, CreateData(caller.value, body.value), env);
      if r.Err? then (t, ServerFailure(r.error, None))
      else (t, Created(r.value.id, "Documento creado exitosamente", SummaryOf(r.value)))
  }

  /** POST /api/documents/create-bypass: the same chain, then createDocumentBypass. */
  function CreateBypass(s: Snapshot, caller: Option<string>, body: Result<CreateBody>, env: BypassEnv)
    : (Snapshot, CreateResponse)
  {
    if !Truthy(caller) then (s, Refused(401, "No autorizado"))
    else if body.Err? then (s, ServerFailure(body.error, Some("bypass")))
    else if CreateRejection(body.value).Some? then (s, Refused(400, CreateRejection(body.value).value))
    else
      var (t, r) := BypassState(s, CreateData(caller.value, body.value), env);
      if r.Err? then (t, ServerFailure(r.error, Some("bypass")))
      else (t, Created(r.value.id, "Documento creado exitosamente (bypass mode)", SummaryOf(r.value)))
  }

  /**
   * POST /api/documents/create-mock: the same chain, then an answer built
   * from the body alone. The clock (`now`, in milliseconds, and its ISO
   * text) and the random suffix are inputs.
   */
  function CreateMock(caller: Option<string>, body: Result<CreateBody>, now: nat, nowIso: string, suffix: string)
    : CreateResponse
  {
    if !Truthy(caller) then Refused(401, "No autorizado")
    else if body.Err? then ServerFailure(body.error, Some("mock"))
    else if CreateRejection(body.value).Some? then Refused(400, CreateRejection(body.value).value)
    else
      var b := body.value;
      var id := "doc_" + NatToString(now) + "_" + suffix;
      Simulated(id, "Documento creado exitosamente (modo simulación)",
                MockRecord(id, b.title.value, StatusUploaded, nowIso, b.storagePath.value, caller.value,
                           b.filename.value, b.fileSize.value, b.mimeType.value, b.category, b.activateOcr))
  }

  // ------------------------------------------------------------------
  // The guard chain

  /**
   * The checks run in order and the first failing one decides the answer: a
   * falsy required field, then a size above 50 MiB, then a type outside the
   * five allowed; a body passing all three is accepted.
   */
  lemma RejectionOrder(b: CreateBody)
    ensures CreateRejection(b) == Some(MissingFields) <==> !HasRequiredFields(b)
    ensures CreateRejection(b) == Some(TooLarge) <==> HasRequiredFields(b) && b.fileSize.value > MaxCreateSize
    ensures CreateRejection(b) == Some(TypeNotAllowed)
            <==> HasRequiredFields(b) && b.fileSize.value <= MaxCreateSize && b.mimeType.value !in CreateTypes
    ensures CreateRejection(b).None?
            <==> HasRequiredFields(b) && b.fileSize.value <= MaxCreateSize && b.mimeType.value in CreateTypes
  {
  }

  /** A size of 0 is reported as a missing field; exactly 50 MiB passes the size check, one byte more does not. */
  lemma SizeBoundaries(b: CreateBody)
    requires Truthy(b.title) && Truthy(b.filename) && Truthy(b.storagePath) && b.mimeType == Some("application/pdf")
    ensures b.fileSize == Some(0) ==> CreateRejection(b) == Some(MissingFields)
    ensures b.fileSize == Some(52428800) ==> CreateRejection(b).None?
    ensures b.fileSize == Some(52428801) ==> CreateRejection(b) == Some(TooLarge)
  {
  }

  /** The three endpoints refuse the same bodies with the same 400 answer, and store nothing for them. */
  lemma SameChecks(s: Snapshot, caller: Option<string>, b: CreateBody, env: CreateEnv, benv: BypassEnv,
                   now: nat, nowIso: string, suffix: string)
    requires Truthy(caller) && CreateRejection(b).Some?
    ensures Create(s, caller, Ok(b), env) == (s, Refused(400, CreateRejection(b).value))
    ensures CreateBypass(s, caller, Ok(b), benv) == (s, Refused(400, CreateRejection(b).value))
    ensures CreateMock(caller, Ok(b), now, nowIso, suffix) == Refused(400, CreateRejection(b).value)
  {
  }

  // ------------------------------------------------------------------
  // The outcomes

  /**
   * A successful create answers 201 with the new row's id and status
   * `'uploaded'`; the appended row carries the trimmed title and one page.
   * A library error answers 500 with its message and adds no document.
   */
  lemma CreateStoresTrimmedTitle(s: Snapshot, caller: Option<string>, b: CreateBody, env: CreateEnv)
    requires Truthy(caller) && CreateRejection(b).None?
    requires |UsersWithClerkId(s.users, caller.value)| <= 1
    ensures var (t, res) := Create(s, caller, Ok(b), env);
            && (res.Created? ==>
                  && StatusOf(res) == 201
                  && |t.documents| == |s.documents| + 1
                  && t.documents[..|s.documents|] == s.documents
                  && var d := t.documents[|s.documents|];
                     && res.documentId == d.id && res.summary.status == Some(StatusUploaded)
                     && d.title == Trim(b.title.value) && d.pageCount == Some(1))
            && (res.ServerFailure? ==> t.documents == s.documents && res.mode.None?)
            && (res.Created? || res.ServerFailure?)
  {
    CreateViaLibrary(s, caller, b, env);
    CreateDocumentUploads(s, CreateData(caller.value, b), env);
  }

  /** A body that passes the checks is handed to createDocument, whose outcome decides the answer. */
  lemma CreateViaLibrary(s: Snapshot, caller: Option<string>, b: CreateBody, env: CreateEnv)
    requires Truthy(caller) && CreateRejection(b).None?
    ensures var lib := CreateDocumentState(s, CreateData(caller.value, b), env);
            Create(s, caller, Ok(b), env)
            == (lib.0, if lib.1.Err? then ServerFailure(lib.1.error, None)
                       else Created(lib.1.value.id, "Documento creado exitosamente", SummaryOf(lib.1.value)))
  {
  }

  /** `category` and `activate_ocr` are accepted but change neither the state nor the answer. */
  lemma CreateIgnoresCategory(s: Snapshot, caller: Option<string>, b: CreateBody, env: CreateEnv,
                              category: Option<string>, ocr: bool)
    ensures Create(s, caller, Ok(b), env) == Create(s, caller, Ok(b.(category := category, activateOcr := ocr)), env)
  {
    var b2 := b.(category := category, activateOcr := ocr);
    assert CreateRejection(b) == CreateRejection(b2);
    if HasRequiredFields(b) {
      assert CreateData(OrElse(caller, ""), b) == CreateData(OrElse(caller, ""), b2);
    }
  }

  /**
   * A successful bypass create answers 201 with `document_id` the new row's
   * id, a trimmed title and one page; any error answers 500 with mode `'bypass'`.
   */
  lemma BypassOutcome(s: Snapshot, caller: Option<string>, b: CreateBody, env: BypassEnv)
    requires Truthy(caller) && CreateRejection(b).None?
    ensures var (t, res) := CreateBypass(s, caller, Ok(b), env);
            && (res.Created? ==>
                  && res.documentId == env.newDocId == res.summary.id
                  && t.documents == s.documents + [t.documents[|s.documents|]]
                  && t.documents[|s.documents|].id == res.documentId
                  && t.documents[|s.documents|].title == Trim(b.title.value)
                  && t.documents[|s.documents|].pageCount == Some(1))
            && (res.ServerFailure? ==> res.mode == Some("bypass") && t.documents == s.documents)
            && (res.Created? || res.ServerFailure?)
  {
    BypassViaLibrary(s, caller, b, env);
    BypassInsertsUploaded(s, CreateData(caller.value, b), env);
  }

  /** A body that passes the checks is handed to createDocumentBypass, whose outcome decides the answer. */
  lemma BypassViaLibrary(s: Snapshot, caller: Option<string>, b: CreateBody, env: BypassEnv)
    requires Truthy(caller) && CreateRejection(b).None?
    ensures var lib := BypassState(s, CreateData(caller.value, b), env);
            CreateBypass(s, caller, Ok(b), env)
            == (lib.0, if lib.1.Err? then ServerFailure(lib.1.error, Some("bypass"))
                       else Created(lib.1.value.id, "Documento creado exitosamente (bypass mode)", SummaryOf(lib.1.value)))
  {
  }

  /**
   * The simulation answers 201 with an id starting `doc_`, status
   * `'uploaded'`, the title exactly as sent (not trimmed) and the caller as owner.
   */
  lemma MockOutcome(caller: Option<string>, b: CreateBody, now: nat, nowIso: string, suffix: string)
    requires Truthy(caller) && CreateRejection(b).None?
    ensures var res := CreateMock(caller, Ok(b), now, nowIso, suffix);
            && res.Simulated? && StatusOf(res) == 201
            && IsPrefix("doc_", res.documentId) && res.record.id == res.documentId
            && res.record.status == StatusUploaded
            && res.record.title == b.title.value
            && res.record.ownerId == caller.value
  {
    var id := "doc_" + NatToString(now) + "_" + suffix;
    assert id[..4] == "doc_";
  }

  lemma CreateNeedsIdentity(s: Snapshot, caller: Option<string>, body: Result<CreateBody>, env: CreateEnv,
                            benv: BypassEnv, now: nat, nowIso: string, suffix: string)
    requires !Truthy(caller)
    ensures Create(s, caller, body, env) == (s, Refused(401, "No autorizado"))
    ensures CreateBypass(s, caller, body, benv) == (s, Refused(401, "No autorizado"))
    ensures CreateMock(caller, body, now, nowIso, suffix) == Refused(401, "No autorizado")
  {
  }
}
