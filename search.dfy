/**
 * The document search endpoint of `src/app/api/documents/search/route.ts`:
 * chains of `filter` calls over a fixed in-memory list of three documents.
 * `new Date(s)` is the parameter `instant`, which gives the time value of a
 * date string or `None` for an invalid date (any comparison with `NaN` is
 * false).
 */
module Search {
  import opened Common

  datatype SearchDocument = SearchDocument(
    id: string,
    filename: string,
    originalName: string,
    ocrText: string,
    confidence: int,
    uploadDate: string,
    size: nat,
    mimeType: string,      // the `type` field
    tags: seq<string>)

  /** `mockDocuments`. */
  const MockDocuments: seq<SearchDocument> := [
    SearchDocument("1", "invoice-001.jpg", "Factura Electricidad Marzo.jpg",
      "FACTURA EL\U{00C9}CTRICA\nCompa\U{00F1}\U{00ED}a El\U{00E9}ctrica Nacional\nPer\U{00ED}odo: Marzo 2024\nImporte: $125.50\nVencimiento: 15/04/2024",
      95, "2024-03-15T10:30:00Z", 256000, "image/jpeg", ["factura", "electricidad", "servicios"]),
    SearchDocument("2", "contract-rent.pdf", "Contrato Alquiler Apartamento.pdf",
      "CONTRATO DE ARRENDAMIENTO\nInquilino: Juan P\U{00E9}rez\nDirecci\U{00F3}n: Av. Principal 123\nMonto mensual: $800\nDuraci\U{00F3}n: 12 meses",
      88, "2024-03-10T14:20:00Z", 1024000, "application/pdf", ["contrato", "alquiler", "legal"]),
    SearchDocument("3", "certificate-birth.jpg", "Certificado Nacimiento.jpg",
      "CERTIFICADO DE NACIMIENTO\nNombre: Mar\U{00ED}a Garc\U{00ED}a L\U{00F3}pez\nFecha de nacimiento: 15/05/1990\nLugar: Ciudad Capital\nRegistro Civil: 12345",
      92, "2024-03-05T09:15:00Z", 512000, "image/jpeg", ["certificado", "identidad", "personal"])
  ]

  /** `new Date(s).getTime()`, or `None` for `Invalid Date`. */
  type Instant = string -> Option<int>

  /** The case-insensitive text match both handlers use: in the OCR text or in the original name. */
  predicate TextMatches(d: SearchDocument, q: string)
  {
    Contains(Lower(d.ocrText), Lower(q)) || Contains(Lower(d.originalName), Lower(q))
  }

  predicate HasTag(d: SearchDocument, tag: string)
  {
    Lower(tag) in d.tags
  }

  // ------------------------------------------------------------------
  // GET ?q=&tag=

  datatype GetResponse = GetResponse(documents: seq<SearchDocument>, total: nat, query: string, tag: string)

  /** The two GET filters over a list of documents. */
  function GetFilters(docs: seq<SearchDocument>, query: string, t: string): seq<SearchDocument>
  {
    var byText := FilterIf(docs, query != "", (d: SearchDocument) => TextMatches(d, query));
    FilterIf(byText, t != "", (d: SearchDocument) => HasTag(d, t))
  }

  function SearchGet(q: Option<string>, tag: Option<string>): (r: GetResponse)
    ensures r.total == |r.documents|
    ensures r.query == OrElse(q, "") && r.tag == OrElse(tag, "")
  {
    var query := OrElse(q, "");
    var t := OrElse(tag, "");
    var found := GetFilters(MockDocuments, query, t);
    GetResponse(found, |found|, query, t)
  }

  /** What GET keeps: everything for an empty query and tag, otherwise the documents matching both. */
  predicate GetKeeps(d: SearchDocument, query: string, tag: string)
  {
    (query == "" || TextMatches(d, query)) && (tag == "" || HasTag(d, tag))
  }

  /**
   * GET keeps, in their original order, exactly the mock documents whose OCR
   * text or original name contains the query (ignoring case) and whose tags
   * include the lower-cased tag as an element.
   */
  lemma SearchGetKeeps(q: Option<string>, tag: Option<string>)
    ensures var query := OrElse(q, "");
            var t := OrElse(tag, "");
            SearchGet(q, tag).documents == Filter(MockDocuments, (d: SearchDocument) => GetKeeps(d, query, t))
  {
    GetFiltersKeep(MockDocuments, OrElse(q, ""), OrElse(tag, ""));
  }

  lemma GetFiltersKeep(docs: seq<SearchDocument>, query: string, t: string)
    ensures GetFilters(docs, query, t) == Filter(docs, (d: SearchDocument) => GetKeeps(d, query, t))
  {
    var p1 := (d: SearchDocument) => TextMatches(d, query);
    var q1 := (d: SearchDocument) => query == "" || TextMatches(d, query);
    var p2 := (d: SearchDocument) => HasTag(d, t);
    var q2 := (d: SearchDocument) => t == "" || HasTag(d, t);
    FilterIfIsFilter(docs, query != "", p1, q1);
    var byText := FilterIf(docs, query != "", p1);
    FilterIfIsFilter(byText, t != "", p2, q2);
    FilterThen(docs, q1, q2, (d: SearchDocument) => GetKeeps(d, query, t));
  }

  // ------------------------------------------------------------------
  // POST { query, filters }

  /**
   * The parsed request body. A field whose JSON value is missing, `null` or
   * of another type is `None`: each filter checks `typeof` and is skipped
   * for such a value, exactly as for a missing one.
   */
  datatype SearchRequest = SearchRequest(
    query: Option<string>,
    dateFrom: Option<string>,
    dateTo: Option<string>,
    fileType: Option<string>,
    minConfidence: Option<int>)

  datatype PostResponse =
    | PostFound(documents: seq<SearchDocument>, total: nat)
    | PostFailed(status: int, error: string)

  predicate NotBefore(instant: Instant, date: string, bound: string)
  {
    instant(date).Some? && instant(bound).Some? && instant(date).value >= instant(bound).value
  }

  predicate NotAfter(instant: Instant, date: string, bound: string)
  {
    instant(date).Some? && instant(bound).Some? && instant(date).value <= instant(bound).value
  }

  /** A number is truthy unless it is 0. */
  predicate TruthyNumber(n: Option<int>)
  {
    n.Some? && n.value != 0
  }

  /**
   * POST over the body (`None` when it is not JSON or is `null`, and
   * destructuring it throws): the text, date, type and confidence filters in
   * turn, each only when its field is a truthy value of the expected type.
   */
  function SearchPost(body: Option<SearchRequest>, instant: Instant): (r: PostResponse)
    ensures r.PostFound? ==> r.total == |r.documents|
    ensures r.PostFailed? <==> body.None?
    ensures r.PostFailed? ==> r.status == 500
  {
    if body.None? then PostFailed(500, "Error en la b\U{00FA}squeda")
    else
      var found := PostFilters(MockDocuments, body.value, instant);
      PostFound(found, |found|)
  }

  /** The five POST filters over a list of documents. */
  function PostFilters(docs: seq<SearchDocument>, req: SearchRequest, instant: Instant): seq<SearchDocument>
  {
    var r3 := TextAndDateFilters(docs, req, instant);
    var r4 := FilterIf(r3, Truthy(req.fileType), (d: SearchDocument) => Contains(d.mimeType, OrElse(req.fileType, "")));
    var r5 := FilterIf(r4, TruthyNumber(req.minConfidence), (d: SearchDocument) => d.confidence >= OrElse(req.minConfidence, 0));
    r5
  }

  /** The first three filters of POST: the text query, then `dateFrom`, then `dateTo`. */
  function TextAndDateFilters(docs: seq<SearchDocument>, req: SearchRequest, instant: Instant): seq<SearchDocument>
  {
    var r1 := FilterIf(docs, Truthy(req.query), (d: SearchDocument) => TextMatches(d, OrElse(req.query, "")));
    var r2 := FilterIf(r1, Truthy(req.dateFrom), (d: SearchDocument) => NotBefore(instant, d.uploadDate, OrElse(req.dateFrom, "")));
    FilterIf(r2, Truthy(req.dateTo), (d: SearchDocument) => NotAfter(instant, d.uploadDate, OrElse(req.dateTo, "")))
  }

  predicate KeepText(d: SearchDocument, req: SearchRequest)
  {
    !Truthy(req.query) || TextMatches(d, OrElse(req.query, ""))
  }

  predicate KeepFrom(d: SearchDocument, req: SearchRequest, instant: Instant)
  {
    !Truthy(req.dateFrom) || NotBefore(instant, d.uploadDate, OrElse(req.dateFrom, ""))
  }

  predicate KeepTo(d: SearchDocument, req: SearchRequest, instant: Instant)
  {
    !Truthy(req.dateTo) || NotAfter(instant, d.uploadDate, OrElse(req.dateTo, ""))
  }

  predicate KeepType(d: SearchDocument, req: SearchRequest)
  {
    !Truthy(req.fileType) || Contains(d.mimeType, OrElse(req.fileType, ""))
  }

  predicate KeepConfidence(d: SearchDocument, req: SearchRequest)
  {
    !TruthyNumber(req.minConfidence) || d.confidence >= OrElse(req.minConfidence, 0)
  }

  /** The conjunction of the POST filters, each vacuous when its field is not given. */
  predicate PostKeeps(d: SearchDocument, req: SearchRequest, instant: Instant)
  {
    KeepText(d, req) && KeepFrom(d, req, instant) && KeepTo(d, req, instant)
    && KeepType(d, req) && KeepConfidence(d, req)
  }

  /**
   * The POST filters combine as a conjunction, and the result is the
   * order-preserving selection of the mock documents satisfying it.
   */
  lemma SearchPostIsConjunction(req: SearchRequest, instant: Instant)
    ensures SearchPost(Some(req), instant).documents == Filter(MockDocuments, (d: SearchDocument) => PostKeeps(d, req, instant))
  {
    PostFiltersConjunction(MockDocuments, req, instant);
  }

  lemma PostFiltersConjunction(docs: seq<SearchDocument>, req: SearchRequest, instant: Instant)
    ensures PostFilters(docs, req, instant) == Filter(docs, (d: SearchDocument) => PostKeeps(d, req, instant))
  {
    var p4 := (d: SearchDocument) => Contains(d.mimeType, OrElse(req.fileType, ""));
    var p5 := (d: SearchDocument) => d.confidence >= OrElse(req.minConfidence, 0);
    var q4 := (d: SearchDocument) => KeepType(d, req);
    var q5 := (d: SearchDocument) => KeepConfidence(d, req);
    var q123 := (d: SearchDocument) => KeepText(d, req) && KeepFrom(d, req, instant) && KeepTo(d, req, instant);
    var q1234 := (d: SearchDocument) => KeepText(d, req) && KeepFrom(d, req, instant) && KeepTo(d, req, instant)
                                        && KeepType(d, req);
    var r3 := TextAndDateFilters(docs, req, instant);
    var r4 := FilterIf(r3, Truthy(req.fileType), p4);
    TextAndDateConjunction(docs, req, instant);
    FilterIfIsFilter(r3, Truthy(req.fileType), p4, q4);
    FilterThen(docs, q123, q4, q1234);
    FilterIfIsFilter(r4, TruthyNumber(req.minConfidence), p5, q5);
    FilterThen(docs, q1234, q5, (d: SearchDocument) => PostKeeps(d, req, instant));
  }

  /** The first three filters keep exactly the documents that pass the text, `dateFrom` and `dateTo` tests. */
  lemma TextAndDateConjunction(docs: seq<SearchDocument>, req: SearchRequest, instant: Instant)
    ensures TextAndDateFilters(docs, req, instant)
            == Filter(docs, (d: SearchDocument) => KeepText(d, req) && KeepFrom(d, req, instant) && KeepTo(d, req, instant))
  {
    var p1 := (d: SearchDocument) => TextMatches(d, OrElse(req.query, ""));
    var p2 := (d: SearchDocument) => NotBefore(instant, d.uploadDate, OrElse(req.dateFrom, ""));
    var p3 := (d: SearchDocument) => NotAfter(instant, d.uploadDate, OrElse(req.dateTo, ""));
    var q1 := (d: SearchDocument) => KeepText(d, req);
    var q2 := (d: SearchDocument) => KeepFrom(d, req, instant);
    var q3 := (d: SearchDocument) => KeepTo(d, req, instant);
    var q12 := (d: SearchDocument) => KeepText(d, req) && KeepFrom(d, req, instant);
    var r1 := FilterIf(docs, Truthy(req.query), p1);
    var r2 := FilterIf(r1, Truthy(req.dateFrom), p2);
    FilterIfIsFilter(docs, Truthy(req.query), p1, q1);
    FilterIfIsFilter(r1, Truthy(req.dateFrom), p2, q2);
    FilterThen(docs, q1, q2, q12);
    FilterIfIsFilter(r2, Truthy(req.dateTo), p3, q3);
    FilterThen(docs, q12, q3, (d: SearchDocument) => KeepText(d, req) && KeepFrom(d, req, instant) && KeepTo(d, req, instant));
  }

  /**
   * `dateFrom` and `dateTo` are inclusive bounds on `uploadDate`, `fileType`
   * must occur in the type, and a positive `minConfidence` is a lower bound
   * (0 applies no filter).
   */
  lemma SearchPostBounds(req: SearchRequest, instant: Instant, d: SearchDocument)
    requires d in SearchPost(Some(req), instant).documents
    ensures d in MockDocuments
    ensures Truthy(req.dateFrom) ==> instant(OrElse(req.dateFrom, "")).Some? && instant(d.uploadDate).Some?
                                     && instant(OrElse(req.dateFrom, "")).value <= instant(d.uploadDate).value
    ensures Truthy(req.dateTo) ==> instant(OrElse(req.dateTo, "")).Some? && instant(d.uploadDate).Some?
                                   && instant(d.uploadDate).value <= instant(OrElse(req.dateTo, "")).value
    ensures Truthy(req.fileType) ==> Contains(d.mimeType, OrElse(req.fileType, ""))
    ensures TruthyNumber(req.minConfidence) ==> d.confidence >= OrElse(req.minConfidence, 0)
  {
    SearchPostIsConjunction(req, instant);
  }

  /** With no usable field the whole list comes back. */
  lemma SearchPostNoFilters(req: SearchRequest, instant: Instant)
    requires !Truthy(req.query) && !Truthy(req.dateFrom) && !Truthy(req.dateTo) && !Truthy(req.fileType)
    requires !TruthyNumber(req.minConfidence)
    ensures SearchPost(Some(req), instant) == PostFound(MockDocuments, 3)
  {
  }
}
