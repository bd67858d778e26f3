/**
 * GET of `src/app/api/documents/consultation/route.ts`: the listing that
 * regular users browse. Parameters become filters, an ordering and a row
 * window over `documents`; each returned row is reshaped with constant
 * category and folder fields.
 */
module Consultation {
  import opened Common
  import opened Tables
  import opened Query

  /**
   * The query-string parameters. `page` and `limit` are the values `parseInt`
   * gives for parameters that are present; absent ones take their defaults.
   */
  datatype ConsultationParams = ConsultationParams(
    search: Option<string>,
    mimeType: Option<string>,   // the `type` parameter
    category: Option<string>,
    user: Option<string>,
    folderId: Option<string>,
    date: Option<string>,
    page: Option<int>,
    limit: Option<int>,
    sortBy: Option<string>,
    sortOrder: Option<string>)

  function ConsultationPage(p: ConsultationParams): int { OrElse(p.page, 1) }

  function ConsultationLimit(p: ConsultationParams): int { OrElse(p.limit, 10) }

  /** The sort fields the route accepts, with the column each names. */
  function SortColumn(field: string): Option<Column>
  {
    if field == "title" then Some(Title)
    else if field == "created_at" then Some(CreatedAt)
    else if field == "filename" then Some(Filename)
    else if field == "status" then Some(Status)
    else if field == "file_size" then Some(FileSize)
    else if field == "updated_at" then Some(UpdatedAt)
    else None
  }

  /** A sort field outside the allow-list falls back to `created_at`. */
  function ConsultationOrder(p: ConsultationParams): (c: Column)
    ensures c in {Title, CreatedAt, Filename, Status, FileSize, UpdatedAt}
  {
    OrElse(SortColumn(OrElse(p.sortBy, "created_at")), CreatedAt)
  }

  /**
   * The filters: title or file name like the search text, the exact MIME
   * type, and a month given as `YYYY-MM` as the bounds `>= month-01` and
   * `< month-31`. `category`, `user` and `folder_id` are read but unused.
   */
  function ConsultationConds(p: ConsultationParams): seq<Cond>
  {
    When(Truthy(p.search), TitleOrFilenameLike(OrElse(p.search, "")))
    + When(Truthy(p.mimeType), Equals(MimeType, OrElse(p.mimeType, "")))
    + When(Truthy(p.date), AtLeast(CreatedAt, OrElse(p.date, "") + "-01"))
    + When(Truthy(p.date), Before(CreatedAt, OrElse(p.date, "") + "-31"))
  }

  function ConsultationPlan(p: ConsultationParams): Plan
  {
    var (from, to) := PageRange(ConsultationPage(p), ConsultationLimit(p));
    Plan(ConsultationConds(p), ConsultationOrder(p), p.sortOrder == Some("asc"), from, to)
  }

  /** A returned row. */
  datatype ConsultationRow = ConsultationRow(
    id: string,
    title: string,
    filename: string,
    status: Option<string>,
    category: string,
    documentType: string,
    fileSize: Option<int>,
    createdAt: string,
    folderId: Option<string>,
    filePath: Option<string>,
    ownerName: string,
    ownerEmail: string,
    folderName: Option<string>,
    folderColor: Option<string>)

  function ConsultationRowOf(d: Document): ConsultationRow
  {
    ConsultationRow(d.id, d.title, d.filename, d.status, "General",
                    OrElse(d.mimeType, "application/octet-stream"), d.fileSize, d.createdAt,
                    None, d.storagePath, "Usuario " + TemplateText(d.ownerId), "", None, None)
  }

  datatype ConsultationResponse =
    | Listed(data: seq<ConsultationRow>, total: nat, pages: Option<int>, currentPage: int, perPage: int)
    | Unauthorized                                   // 401
    | ServerError(error: string, details: string)    // 500

  function StatusCode(r: ConsultationResponse): int
  {
    match r
    case Listed(_, _, _, _, _) => 200
    case Unauthorized => 401
    case ServerError(_, _) => 500
  }

  /**
   * The handler over `table`, the documents in the order the plan asks for,
   * and the backend's reply to the query.
   */
  function ConsultationGet(caller: Option<string>, p: ConsultationParams, table: seq<Row>, reply: Reply)
    : ConsultationResponse
  {
    if !Truthy(caller) then Unauthorized
    else
      var a := Run(table, ConsultationPlan(p), reply);
      if a.QueryFailed? then ServerError("Error interno del servidor", "Error obteniendo documentos: " + a.message)
      else
        var rows := seq(|a.page|, i requires 0 <= i < |a.page| => ConsultationRowOf(a.page[i].doc));
        Listed(rows, a.count, JsCeilDiv(a.count, ConsultationLimit(p)), ConsultationPage(p), ConsultationLimit(p))
  }

  /** No parameters: page 1 of 10 rows, newest first, no filter. */
  lemma ConsultationDefaults(p: ConsultationParams)
    requires p.page.None? && p.limit.None? && p.sortBy.None? && p.sortOrder.None?
    requires !Truthy(p.search) && !Truthy(p.mimeType) && !Truthy(p.date)
    ensures ConsultationPlan(p) == Plan([], CreatedAt, false, 0, 9)
  {
  }

  /** The ordering: an allowed field is used as given, anything else is `created_at`; ascending only for `asc`. */
  lemma ConsultationSortAllowList(p: ConsultationParams)
    ensures var field := OrElse(p.sortBy, "created_at");
            (field in {"title", "created_at", "filename", "status", "file_size", "updated_at"} ==>
               ConsultationPlan(p).orderBy == SortColumn(field).value)
            && (field !in {"title", "created_at", "filename", "status", "file_size", "updated_at"} ==>
               ConsultationPlan(p).orderBy == CreatedAt)
            && (ConsultationPlan(p).ascending <==> p.sortOrder == Some("asc"))
  {
  }

  /** `category`, `user` and `folder_id` never affect the response. */
  lemma ConsultationIgnoresParams(caller: Option<string>, p: ConsultationParams, table: seq<Row>, reply: Reply,
                                  category: Option<string>, user: Option<string>, folderId: Option<string>)
    ensures ConsultationGet(caller, p, table, reply)
         == ConsultationGet(caller, p.(category := category, user := user, folderId := folderId), table, reply)
  {
    var q := p.(category := category, user := user, folderId := folderId);
    assert ConsultationPlan(p) == ConsultationPlan(q);
  }

  /**
   * With a month given, a document created on the 31st of that month is
   * never listed, whatever follows the day in its timestamp.
   */
  lemma MonthFilterExcludes31st(p: ConsultationParams, r: Row, rest: string)
    requires Truthy(p.date)
    requires r.doc.createdAt == p.date.value + "-31" + rest
    ensures !Matches(r, ConsultationConds(p))
  {
    var bound := p.date.value + "-31";
    assert r.doc.createdAt == bound + rest;
    assert IsPrefix(bound, r.doc.createdAt) by {
      assert r.doc.createdAt[..|bound|] == bound;
    }
    NotLessThanPrefix(bound, r.doc.createdAt);
    var conds := ConsultationConds(p);
    assert conds[|conds| - 1] == Before(CreatedAt, bound);
  }

  /** Days `01` to `30` of the month pass both date bounds. */
  lemma MonthFilterKeepsEarlierDays(p: ConsultationParams, r: Row, day: string, rest: string)
    requires Truthy(p.date)
    requires |day| == 2 && !LexLess(day, "01") && LexLess(day, "31")
    requires r.doc.createdAt == p.date.value + "-" + day + rest
    ensures Holds(r, AtLeast(CreatedAt, p.date.value + "-01"))
    ensures Holds(r, Before(CreatedAt, p.date.value + "-31"))
  {
    var pre := p.date.value + "-";
    assert r.doc.createdAt == pre + (day + rest);
    assert p.date.value + "-01" == pre + "01";
    assert p.date.value + "-31" == pre + "31";
    LexLessExtendLeft(day, "31", rest);
    LexLessCommonPrefix(pre, day + rest, "31");
    LexLessCommonPrefix(pre, day + rest, "01");
    if LexLess(day + rest, "01") {
      LexLessTotal(day, "01");
      if day == "01" {
        assert IsPrefix("01", day + rest);
        NotLessThanPrefix("01", day + rest);
      } else {
        LexLessExtendRight("01", day, rest);
        LexLessTransitive(day + rest, "01", day + rest);
        LexLessIrreflexive(day + rest);
      }
    }
  }

  /**
   * A listing that reaches the database: a failed query answers 500 with the
   * error as `details`; otherwise `total` counts every match, `pages` is
   * `Math.ceil(total / limit)`, the page is the window
   * `[(page-1)*limit, (page-1)*limit+limit-1]` of the matches, and every row
   * carries the constant category, type fallback, owner label and null folder.
   */
  lemma ConsultationWindow(caller: Option<string>, p: ConsultationParams, table: seq<Row>, reply: Reply)
    requires Truthy(caller)
    ensures var plan := ConsultationPlan(p);
            var hits := Filter(table, (r: Row) => Matches(r, plan.conds));
            var res := ConsultationGet(caller, p, table, reply);
            && (reply.Failed? ==> res == ServerError("Error interno del servidor", "Error obteniendo documentos: " + reply.message))
            && (reply.Done? && plan.from >= 0 && ConsultationLimit(p) >= 0 ==>
                  && res.Listed?
                  && res.total == |hits|
                  && res.pages == JsCeilDiv(|hits|, ConsultationLimit(p))
                  && res.currentPage == ConsultationPage(p) && res.perPage == ConsultationLimit(p)
                  && |res.data| == |Window(hits, plan.from, plan.to)|
                  && (forall k | 0 <= k < |res.data| ::
                        var d := Window(hits, plan.from, plan.to)[k].doc;
                        && res.data[k].id == d.id
                        && res.data[k].category == "General"
                        && res.data[k].documentType == OrElse(d.mimeType, "application/octet-stream")
                        && res.data[k].ownerName == "Usuario " + TemplateText(d.ownerId)
                        && res.data[k].folderId.None? && res.data[k].folderName.None?
                        && res.data[k].folderColor.None?))
  {
  }

  /** Without an identity the answer is 401, before any query. */
  lemma ConsultationNeedsIdentity(caller: Option<string>, p: ConsultationParams, table: seq<Row>, reply: Reply)
    requires !Truthy(caller)
    ensures StatusCode(ConsultationGet(caller, p, table, reply)) == 401
  {
  }
}
