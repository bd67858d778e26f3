/**
 * The derived values of the grid of document cards,
 * `src/components/DocumentGridView.tsx`: the icon chosen by the file
 * extension, the status label, and the header checkbox's checked and
 * indeterminate states over the selection `Set` it is given.
 */
module GridView {
  import opened Common
  import opened UiState

  /** `fileName.split('.').pop()?.toLowerCase()`: the lower-cased text after the last dot, or the whole name. */
  function FileExtension(fileName: string): (r: string)
    ensures '.' !in r
  {
    var parts := Split(fileName, '.');
    var last := parts[|parts| - 1];
    var r := Lower(last);
    assert forall i | 0 <= i < |r| :: r[i] != '.' by {
      forall i | 0 <= i < |r| ensures r[i] != '.' {
        assert last[i] in last;
      }
    }
    r
  }

  const PdfIcon := "📄"
  const WordIcon := "📝"
  const SheetIcon := "📊"
  const SlidesIcon := "📈"
  const ImageIcon := "🖼️"
  const ArchiveIcon := "📦"
  const TextIcon := "📋"
  const OtherIcon := "📎"

  /** The extensions the icon table names. */
  const KnownExtensions: set<string> :=
    {"pdf", "doc", "docx", "xls", "xlsx", "ppt", "pptx", "jpg", "jpeg", "png", "gif", "zip", "rar", "txt"}

  /** The icon table, with the clip for any extension it does not name. */
  function IconFor(extension: string): (r: string)
    ensures r == OtherIcon <==> extension !in KnownExtensions
  {
    match extension
    case "pdf" => PdfIcon
    case "doc" => WordIcon
    case "docx" => WordIcon
    case "xls" => SheetIcon
    case "xlsx" => SheetIcon
    case "ppt" => SlidesIcon
    case "pptx" => SlidesIcon
    case "jpg" => ImageIcon
    case "jpeg" => ImageIcon
    case "png" => ImageIcon
    case "gif" => ImageIcon
    case "zip" => ArchiveIcon
    case "rar" => ArchiveIcon
    case "txt" => TextIcon
    case _ => OtherIcon
  }

  /** getFileIcon. */
  function FileIcon(fileName: string): string
  {
    IconFor(FileExtension(fileName))
  }

  /** getStatusText: three statuses have Spanish labels; any other is shown as it is. */
  function StatusText(status: string): (r: string)
    ensures r == status <==> status !in {"active", "pending", "archived"}
  {
    match status
    case "active" => "Activo"
    case "pending" => "Pendiente"
    case "archived" => "Archivado"
    case _ => status
  }

  // ------------------------------------------------------------------
  // File icons

  /** The icon of `stem.ext` depends only on `ext`, lower-cased, whatever dots the stem holds. */
  lemma FileIconOfExtension(stem: string, ext: string)
    requires '.' !in ext
    ensures FileExtension(stem + "." + ext) == Lower(ext)
    ensures FileIcon(stem + "." + ext) == IconFor(Lower(ext))
  {
    assert stem + "." + ext == stem + ['.'] + ext;
    SplitSnoc(stem, '.', ext);
  }

  /** A name without a dot is its own extension: a file called `PDF` gets the PDF icon. */
  lemma DotlessNameIsExtension(fileName: string)
    requires '.' !in fileName
    ensures FileExtension(fileName) == Lower(fileName)
    ensures FileIcon("PDF") == PdfIcon
  {
    assert Split("PDF", '.') == ["PDF"];
    assert Lower("PDF") == "pdf";
  }

  /** Upper case in the extension does not change the icon. */
  lemma FileIconIgnoresCase(stem: string, ext: string)
    requires '.' !in ext
    ensures FileIcon(stem + "." + ext) == FileIcon(stem + "." + Lower(ext))
  {
    assert '.' !in Lower(ext) by {
      forall i | 0 <= i < |ext| ensures Lower(ext)[i] != '.' {
        assert ext[i] in ext;
      }
    }
    FileIconOfExtension(stem, ext);
    FileIconOfExtension(stem, Lower(ext));
    LowerIdempotent(ext);
  }

  lemma LowerIdempotent(s: string)
    ensures Lower(Lower(s)) == Lower(s)
  {
  }

  // ------------------------------------------------------------------
  // The header checkbox

  /** `documents.length > 0 && documents.every(doc => selected.has(doc.id))`. */
  predicate AllSelected(docs: seq<ListedDocument>, selected: set<string>)
  {
    |docs| > 0 && forall i | 0 <= i < |docs| :: docs[i].id in selected
  }

  /** `documents.some(doc => selected.has(doc.id))`. */
  predicate SomeSelected(docs: seq<ListedDocument>, selected: set<string>)
  {
    exists i | 0 <= i < |docs| :: docs[i].id in selected
  }

  /** The header checkbox shows a dash when some but not all cards are selected. */
  predicate Indeterminate(docs: seq<ListedDocument>, selected: set<string>)
  {
    SomeSelected(docs, selected) && !AllSelected(docs, selected)
  }

  /** Clicking the header deselects all when all are selected, and selects all otherwise. */
  datatype HeaderAction = DeselectAllCards | SelectAllCards

  function HeaderClick(docs: seq<ListedDocument>, selected: set<string>): (a: HeaderAction)
    ensures a == DeselectAllCards <==> AllSelected(docs, selected)
  {
    if AllSelected(docs, selected) then DeselectAllCards else SelectAllCards
  }

  /**
   * An empty grid is never all selected; all selected implies some
   * selected; and the dash shows exactly when one card is selected and
   * another is not.
   */
  lemma HeaderCheckboxRule(docs: seq<ListedDocument>, selected: set<string>)
    ensures docs == [] ==> !AllSelected(docs, selected) && !SomeSelected(docs, selected)
    ensures AllSelected(docs, selected) ==> SomeSelected(docs, selected)
    ensures Indeterminate(docs, selected) <==>
              (exists i | 0 <= i < |docs| :: docs[i].id in selected)
              && (exists j | 0 <= j < |docs| :: docs[j].id !in selected)
  {
    if AllSelected(docs, selected) {
      assert docs[0].id in selected;
    }
  }

  /**
   * After the manager's select-all the header is checked exactly when there
   * are cards, and after its deselect-all it is neither checked nor dashed.
   */
  lemma SelectAllChecksHeader(docs: seq<ListedDocument>)
    ensures AllSelected(docs, set x | x in IdsOf(docs)) <==> |docs| > 0
    ensures !AllSelected(docs, {}) && !Indeterminate(docs, {})
  {
    forall i | 0 <= i < |docs| ensures docs[i].id in set x | x in IdsOf(docs) {
      assert docs[i] in docs;
    }
  }
}
