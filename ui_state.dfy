/**
 * Pieces of client state logic that `src/components/DocumentManager.tsx` and
 * `src/components/DocumentConsultation.tsx` both use: the listed document,
 * the page buttons' clamps, the "showing a to b of n" range, the page-number
 * buttons, a selection kept as a JavaScript `Set`, the client-side folder
 * filter and the de-duplicated option lists.
 */
module UiState {
  import opened Common

  /** A row as the two listing components hold it. */
  datatype ListedDocument = ListedDocument(
    id: string,
    title: string,
    status: string,
    category: string,
    documentType: Option<string>,
    ownerName: string,
    folderId: Option<string>)

  /** What a DELETE or a folder-move request came back with. */
  datatype Outcome =
    | Accepted                     // `response.ok`
    | Rejected(error: string)      // a non-ok answer with `{ error }`
    | Unreachable                  // fetch threw

  /** The body both components post to the folder-move endpoint. */
  datatype MoveRequest = MoveRequest(documentIds: seq<string>, folderId: Option<string>)

  // ------------------------------------------------------------------
  // Paging

  /** The "previous" button: `Math.max(page - 1, 1)`. */
  function PreviousPage(page: int): (r: int)
    ensures r >= 1
    ensures page > 1 ==> r == page - 1
    ensures page <= 1 ==> r == 1
  {
    if page - 1 > 1 then page - 1 else 1
  }

  /** The "next" button: `Math.min(page + 1, pages)`. */
  function NextPage(page: int, pages: int): (r: int)
    ensures r <= pages && r <= page + 1
    ensures r == page + 1 || r == pages
  {
    if page + 1 < pages then page + 1 else pages
  }

  /**
   * Inside the page range the two buttons stay inside it, moving one page
   * at most; with no pages at all, "next" from any page from 0 on goes to page 0.
   */
  lemma PageButtonsClamp(page: int, pages: int)
    ensures 1 <= page <= pages ==> 1 <= PreviousPage(page) <= pages && 1 <= NextPage(page, pages) <= pages
    ensures 1 <= page < pages ==> NextPage(page, pages) == page + 1
    ensures page == pages ==> NextPage(page, pages) == page
    ensures pages == 0 && page >= 0 ==> NextPage(page, pages) == 0
  {
  }

  /** The "showing `from` to `to`" text: `(cur-1)*per+1` and `Math.min(cur*per, total)`. */
  function DisplayRange(current: int, perPage: int, total: int): (int, int)
  {
    ((current - 1) * perPage + 1, if current * perPage < total then current * perPage else total)
  }

  /**
   * On a page that has rows the range lies within `1..total` and spans at
   * most one page of rows, exactly one page except on the last; with no
   * rows, page 1 shows "1 to 0".
   */
  lemma DisplayRangeBounds(current: int, perPage: int, total: int)
    requires current >= 1 && perPage >= 1
    ensures var (from, to) := DisplayRange(current, perPage, total);
            && ((current - 1) * perPage < total ==>
                  && 1 <= from <= to <= total
                  && to - from + 1 <= perPage
                  && (current * perPage <= total ==> to - from + 1 == perPage)
                  && (current * perPage > total ==> to == total))
            && (total == 0 && current == 1 ==> from == 1 && to == 0)
  {
    assert current * perPage == (current - 1) * perPage + perPage;
    assert (current - 1) * perPage >= 0 by {
      MulNonNegative(current - 1, perPage);
    }
  }

  lemma MulNonNegative(a: int, b: int)
    requires a >= 0 && b >= 0
    ensures a * b >= 0
  {
  }

  /** The numbered buttons: `Array.from({ length: Math.min(5, pages) }, (_, i) => i + 1)`. */
  function PageNumbers(pages: int): (r: seq<int>)
    ensures |r| == if pages <= 0 then 0 else if pages < 5 then pages else 5
    ensures forall i | 0 <= i < |r| :: r[i] == i + 1
  {
    var n := if pages <= 0 then 0 else if pages < 5 then pages else 5;
    seq(n, i requires 0 <= i < n => i + 1)
  }

  /** The numbered buttons are the first pages, ascending, never past the last page and never more than five. */
  lemma PageNumbersWithinRange(pages: int)
    ensures var r := PageNumbers(pages);
            && |r| <= 5
            && (forall i | 0 <= i < |r| :: 1 <= r[i] <= pages)
            && (forall i, j | 0 <= i < j < |r| :: r[i] < r[j])
            && (pages >= 5 ==> r == [1, 2, 3, 4, 5])
  {
  }

  // ------------------------------------------------------------------
  // Selections

  /**
   * A click on a row of a `Set` selection: delete the id when it is there,
   * add it otherwise. A `Set` iterates in insertion order, so it is kept as
   * the sequence of its elements in that order.
   */
  function Toggle(selection: seq<string>, id: string): (r: seq<string>)
  {
    if id in selection then Filter(selection, (x: string) => x != id) else selection + [id]
  }

  /** Clicking flips exactly that id's membership and keeps the selection free of repetitions. */
  lemma ToggleFlips(selection: seq<string>, id: string)
    requires NoDuplicates(selection)
    ensures forall x :: x in Toggle(selection, id) <==> (if x == id then id !in selection else x in selection)
    ensures NoDuplicates(Toggle(selection, id))
  {
    if id in selection {
      FilterKeepsDistinct(selection, (x: string) => x != id);
    }
  }

  /** Clicking twice gives back the same members. */
  lemma ToggleTwice(selection: seq<string>, id: string)
    requires NoDuplicates(selection)
    ensures forall x :: x in Toggle(Toggle(selection, id), id) <==> x in selection
    ensures id !in selection ==> Toggle(Toggle(selection, id), id) == selection
  {
    ToggleFlips(selection, id);
    ToggleFlips(Toggle(selection, id), id);
    if id !in selection {
      FilterAppend(selection, [id], (x: string) => x != id);
      FilterAll(selection, (x: string) => x != id);
    }
  }

  /** Filtering a sequence without repetitions leaves none. */
  lemma {:induction false} FilterKeepsDistinct<T(!new)>(xs: seq<T>, p: T -> bool)
    requires NoDuplicates(xs)
    ensures NoDuplicates(Filter(xs, p))
  {
    if xs != [] {
      FilterKeepsDistinct(xs[1..], p);
      forall k | 0 <= k < |xs[1..]|
        ensures xs[1..][k] != xs[0]
      {
        assert xs[1..][k] == xs[k + 1];
      }
    }
  }

  /** One field of every row, in row order. */
  function Column(docs: seq<ListedDocument>, field: ListedDocument -> string): (r: seq<string>)
    ensures |r| == |docs|
    ensures forall i | 0 <= i < |docs| :: r[i] == field(docs[i])
    ensures forall x :: x in r <==> exists d | d in docs :: field(d) == x
  {
    if docs == [] then []
    else
      var rest := Column(docs[1..], field);
      assert forall d | d in docs[1..] :: d in docs;
      assert forall d | d in docs :: d == docs[0] || d in docs[1..];
      [field(docs[0])] + rest
  }

  /** `new Set(documents.map(doc => doc.id))`. */
  function IdsOf(docs: seq<ListedDocument>): (r: seq<string>)
    ensures NoDuplicates(r)
    ensures forall x :: x in r <==> exists d | d in docs :: d.id == x
  {
    Dedupe(Column(docs, (d: ListedDocument) => d.id))
  }

  // ------------------------------------------------------------------
  // Client-side views

  /** The rows shown for a folder choice: all for `""`, else those whose folder id equals it. */
  function VisibleDocuments(docs: seq<ListedDocument>, folder: string): seq<ListedDocument>
  {
    if folder != "" then Filter(docs, (d: ListedDocument) => d.folderId == Some(folder)) else docs
  }

  /**
   * The choice `'null'` ("Sin carpeta") is compared as text, so it shows the
   * rows whose folder id is the text `null` and never a row without a folder.
   */
  lemma NullChoiceHidesUnfiled(docs: seq<ListedDocument>)
    ensures forall d | d in VisibleDocuments(docs, "null") :: d.folderId == Some("null")
    ensures forall d | d in docs && d.folderId.None? :: d !in VisibleDocuments(docs, "null")
  {
  }

  /** A folder choice keeps exactly the rows of that folder, in order. */
  lemma VisibleIsFolderFilter(docs: seq<ListedDocument>, folder: string)
    ensures folder == "" ==> VisibleDocuments(docs, folder) == docs
    ensures folder != "" ==> forall d :: d in VisibleDocuments(docs, folder) <==> d in docs && d.folderId == Some(folder)
  {
  }

  /** `[...new Set(values)]`: the distinct values, each once. */
  function UniqueValues(values: seq<string>): (r: seq<string>)
    ensures NoDuplicates(r)
    ensures forall x :: x in r <==> x in values
  {
    Dedupe(values)
  }

  /** The type options: `document_type ?? category` of each row, each value once. */
  function TypeOptions(docs: seq<ListedDocument>): (r: seq<string>)
    ensures NoDuplicates(r)
    ensures forall x :: x in r <==> exists d | d in docs :: OrElse(d.documentType, d.category) == x
  {
    UniqueValues(Column(docs, (d: ListedDocument) => OrElse(d.documentType, d.category)))
  }

  /** The department options: the categories of the rows, each once. */
  function DepartmentOptions(docs: seq<ListedDocument>): (r: seq<string>)
    ensures NoDuplicates(r)
    ensures forall x :: x in r <==> exists d | d in docs :: d.category == x
  {
    UniqueValues(Column(docs, (d: ListedDocument) => d.category))
  }

  /** The user options: the owners' names of the rows, each once. */
  function UserOptions(docs: seq<ListedDocument>): (r: seq<string>)
    ensures NoDuplicates(r)
    ensures forall x :: x in r <==> exists d | d in docs :: d.ownerName == x
  {
    UniqueValues(Column(docs, (d: ListedDocument) => d.ownerName))
  }
}
