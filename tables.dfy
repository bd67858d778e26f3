/**
 * Rows of the database tables the document management core reads and writes
 * (documents, document_folders, folder_documents, ocr_results, document_tags,
 * shared_documents, activities, users). Nullable columns are `Option`s;
 * timestamps are ISO-8601 strings.
 */
module Tables {
  import opened Common

  /** The values the schema allows in `documents.status`. */
  const StatusUploaded := "uploaded"
  const StatusProcessing := "processing"
  const StatusProcessed := "processed"
  const StatusOcrFailed := "ocr_failed"

  datatype DocumentStatus = Uploaded | Processing | Processed | OcrFailed
  {
    function Name(): (s: string)
      ensures s in {StatusUploaded, StatusProcessing, StatusProcessed, StatusOcrFailed}
    {
      match this
      case Uploaded => StatusUploaded
      case Processing => StatusProcessing
      case Processed => StatusProcessed
      case OcrFailed => StatusOcrFailed
    }
  }

  /**
   * A row of `documents`. Besides the typed schema columns, the listing routes
   * read `description`, `category`, `document_type` and `folder_id`, so they
   * are columns here too.
   */
  datatype Document = Document(
    id: string,
    ownerId: Option<string>,
    title: string,
    filename: string,
    storagePath: Option<string>,
    fileSize: Option<int>,
    mimeType: Option<string>,
    status: Option<string>,
    pageCount: Option<int>,
    createdAt: string,
    updatedAt: string,
    description: Option<string>,
    category: Option<string>,
    documentType: Option<string>,
    folderId: Option<string>)

  /** A row of `document_folders`. */
  datatype Folder = Folder(
    id: string,
    name: string,
    description: string,
    color: Option<string>,
    createdBy: string)

  /** A row of the `folder_documents` junction table. */
  datatype FolderDocument = FolderDocument(folderId: string, documentId: string)

  /** A row of `ocr_results`. */
  datatype OcrResult = OcrResult(
    documentId: string,
    pageNumber: int,
    textContent: string,
    confidence: Option<int>,
    language: string)

  /** A row of `document_tags`. */
  datatype DocumentTag = DocumentTag(documentId: string, tag: string, color: string)

  /** A row of `shared_documents`. */
  datatype SharedDocument = SharedDocument(documentId: string, sharedWith: string)

  /** A row of `activities`: who did what. */
  datatype Activity = Activity(userId: string, action: string, createdAt: string)

  /** A row of `users`. */
  datatype User = User(
    id: string,
    clerkUserId: string,
    email: string,
    firstName: Option<string>,
    lastName: Option<string>,
    role: string)

  /** The first user row with the given internal id. */
  function FindUser(users: seq<User>, id: Option<string>): (u: Option<User>)
    ensures u.Some? ==> u.value in users && id == Some(u.value.id)
    ensures u.None? ==> id.None? || forall k | 0 <= k < |users| :: users[k].id != id.value
  {
    if id.None? || users == [] then None
    else if users[0].id == id.value then Some(users[0])
    else FindUser(users[1..], id)
  }

  /** The first folder row with the given id. */
  function FindFolder(folders: seq<Folder>, id: Option<string>): (f: Option<Folder>)
    ensures f.Some? ==> f.value in folders && id == Some(f.value.id)
    ensures f.None? ==> id.None? || forall k | 0 <= k < |folders| :: folders[k].id != id.value
  {
    if id.None? || folders == [] then None
    else if folders[0].id == id.value then Some(folders[0])
    else FindFolder(folders[1..], id)
  }
}
