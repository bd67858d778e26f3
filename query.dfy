/**
 * The part of the PostgREST query language the listing code uses: filters on
 * document columns, an ordering, a `range(from, to)` window and the exact
 * `count` of matching rows. The database itself (joins, filtering, windowing)
 * is modelled by `Execute` over rows that are already in the requested order.
 */
module Query {
  import opened Common
  import opened Tables

  /** A document joined with its owner (`users`) and its folder (`document_folders`). */
  datatype Row = Row(doc: Document, owner: Option<User>, folder: Option<Folder>)

  datatype Column =
    | Id | Title | Filename | Status | MimeType | CreatedAt | UpdatedAt | FileSize
    | OwnerId | Category | DocumentType | FolderId

  datatype Cond =
    | OneOf(col: Column, values: seq<string>)   // .in(col, values)
    | Equals(col: Column, value: string)        // .eq(col, value)
    | IsNull(col: Column)                        // .is(col, null)
    | AtLeast(col: Column, value: string)       // .gte(col, value)
    | AtMost(col: Column, value: string)        // .lte(col, value)
    | Before(col: Column, value: string)        // .lt(col, value)
    | TitleOrFilenameLike(term: string)         // .or('title.ilike.%t%,filename.ilike.%t%')
    | OwnerJoined                               // users!inner(...): only rows with an owner

  datatype Plan = Plan(conds: seq<Cond>, orderBy: Column, ascending: bool, from: int, to: int)

  /** What the backend answers: one page of rows and the exact count of all matches, or an error. */
  datatype Answer = Answer(page: seq<Row>, count: nat) | QueryFailed(message: string)

  /** The value of a text column (`None` is SQL NULL). */
  function Field(d: Document, c: Column): Option<string>
  {
    match c
    case Id => Some(d.id)
    case Title => Some(d.title)
    case Filename => Some(d.filename)
    case Status => d.status
    case MimeType => d.mimeType
    case CreatedAt => Some(d.createdAt)
    case UpdatedAt => Some(d.updatedAt)
    case FileSize => if d.fileSize.Some? then Some(IntToString(d.fileSize.value)) else None
    case OwnerId => d.ownerId
    case Category => d.category
    case DocumentType => d.documentType
    case FolderId => d.folderId
  }

  /** Case-insensitive substring match, what `ilike '%term%'` does for a term without wildcards. */
  predicate ILikeContains(s: string, term: string)
  {
    Contains(Lower(s), Lower(term))
  }

  /** SQL semantics of one filter: a comparison with NULL never holds. */
  predicate Holds(r: Row, c: Cond)
  {
    match c
    case OneOf(col, values) => Field(r.doc, col).Some? && Field(r.doc, col).value in values
    case Equals(col, v) => Field(r.doc, col) == Some(v)
    case IsNull(col) => Field(r.doc, col).None?
    case AtLeast(col, v) => Field(r.doc, col).Some? && !LexLess(Field(r.doc, col).value, v)
    case AtMost(col, v) => Field(r.doc, col).Some? && !LexLess(v, Field(r.doc, col).value)
    case Before(col, v) => Field(r.doc, col).Some? && LexLess(Field(r.doc, col).value, v)
    case TitleOrFilenameLike(t) => ILikeContains(r.doc.title, t) || ILikeContains(r.doc.filename, t)
    case OwnerJoined => r.owner.Some?
  }

  /** A filter the query builder applies only when its parameter is given. */
  function When(b: bool, c: Cond): (r: seq<Cond>)
    ensures b ==> r == [c]
    ensures !b ==> r == []
  {
    if b then [c] else []
  }

  predicate Matches(r: Row, conds: seq<Cond>)
  {
    forall k | 0 <= k < |conds| :: Holds(r, conds[k])
  }

  /** A row passes a concatenation of filters exactly when it passes both parts. */
  lemma MatchesAppend(r: Row, a: seq<Cond>, b: seq<Cond>)
    ensures Matches(r, a + b) <==> Matches(r, a) && Matches(r, b)
  {
    if Matches(r, a + b) {
      forall k | 0 <= k < |a| ensures Holds(r, a[k]) {
        assert (a + b)[k] == a[k];
      }
      forall k | 0 <= k < |b| ensures Holds(r, b[k]) {
        assert (a + b)[|a| + k] == b[k];
      }
    }
  }

  /** Rows at positions `from` to `to` (inclusive) of `rows`, clipped to its end. */
  function Window(rows: seq<Row>, from: nat, to: int): (w: seq<Row>)
    ensures |w| <= if to + 1 - from < 0 then 0 else to + 1 - from
    ensures w != [] ==> from + |w| <= |rows|
    ensures forall k | 0 <= k < |w| :: w[k] == rows[from + k]
    ensures from <= to < |rows| ==> |w| == to + 1 - from
    ensures from <= |rows| <= to ==> |w| == |rows| - from
  {
    if from >= |rows| || to < from then []
    else if to + 1 <= |rows| then rows[from..to + 1]
    else rows[from..]
  }

  /**
   * What the database answers for `plan` over `table` (rows already in the
   * plan's order). A negative offset or a negative limit is rejected, as
   * Postgres rejects negative OFFSET and LIMIT values.
   */
  function Execute(table: seq<Row>, plan: Plan): (a: Answer)
    ensures a.QueryFailed? <==> plan.from < 0 || plan.to < plan.from - 1
    ensures a.Answer? ==> a.count == |Filter(table, r => Matches(r, plan.conds))|
    ensures a.Answer? ==> |a.page| <= plan.to - plan.from + 1
    ensures a.Answer? ==> forall k | 0 <= k < |a.page| :: a.page[k] in table && Matches(a.page[k], plan.conds)
  {
    if plan.from < 0 || plan.to < plan.from - 1 then QueryFailed("invalid range")
    else
      var hits := Filter(table, r => Matches(r, plan.conds));
      Answer(Window(hits, plan.from, plan.to), |hits|)
  }

  /** The backend either fails with its own message or executes the plan. */
  function Run(table: seq<Row>, plan: Plan, reply: Reply): (a: Answer)
    ensures reply.Failed? ==> a == QueryFailed(reply.message)
    ensures reply.Done? ==> a == Execute(table, plan)
  {
    if reply.Failed? then QueryFailed(reply.message) else Execute(table, plan)
  }

  /** `range((page - 1) * limit, (page - 1) * limit + limit - 1)`, the window every listing asks for. */
  function PageRange(page: int, limit: int): (r: (int, int))
    ensures r.0 == (page - 1) * limit
    ensures r.1 - r.0 + 1 == limit
  {
    ((page - 1) * limit, (page - 1) * limit + limit - 1)
  }

  /**
   * Paging covers every match exactly where expected: with a positive limit,
   * the match at position `j` is row `j % limit` of page `j / limit + 1`, and
   * that page number does not exceed `Math.ceil(count / limit)`.
   */
  lemma {:induction false} PagingFindsEveryMatch(hits: seq<Row>, limit: int, j: nat)
    requires limit > 0 && j < |hits|
    ensures var page := j / limit + 1;
            var (from, to) := PageRange(page, limit);
            from >= 0 && j % limit < |Window(hits, from, to)|
            && Window(hits, from, to)[j % limit] == hits[j]
            && page <= JsCeilDiv(|hits|, limit).value
  {
    var page := j / limit + 1;
    var (from, to) := PageRange(page, limit);
    assert from == (j / limit) * limit;
    assert j == from + j % limit;
    var w := Window(hits, from, to);
    assert |w| > j % limit by {
      if to < |hits| {
        assert |w| == to + 1 - from == limit;
      } else {
        assert |w| == |hits| - from;
      }
    }
    var pages := JsCeilDiv(|hits|, limit).value;
    assert (page - 1) * limit <= j < pages * limit;
    ProductOrder(page - 1, pages, limit);
  }

  lemma ProductOrder(a: int, b: int, c: int)
    requires c > 0 && a * c < b * c
    ensures a < b
  {
  }

  /** A page past the last one is empty. */
  lemma {:induction false} PageBeyondLastIsEmpty(hits: seq<Row>, limit: int, page: int)
    requires limit > 0 && page > 0
    requires page > JsCeilDiv(|hits|, limit).value
    ensures Window(hits, PageRange(page, limit).0, PageRange(page, limit).1) == []
  {
    var pages := JsCeilDiv(|hits|, limit).value;
    assert (page - 1) * limit >= pages * limit;
  }
}
