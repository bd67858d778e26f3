/**
 * The Supabase project as one mutable object: each field is a table (or the
 * set of object paths in the storage bucket) that the server code reads and
 * writes in place. Operations elsewhere change these fields one backend call
 * at a time, so a failure between two calls leaves the earlier change behind.
 */
module Store {
  import opened Common
  import opened Tables

  /** All tables at one moment, used to say what an operation leaves untouched. */
  datatype Snapshot = Snapshot(
    documents: seq<Document>,
    folders: seq<Folder>,
    folderDocuments: seq<FolderDocument>,
    ocrResults: seq<OcrResult>,
    documentTags: seq<DocumentTag>,
    sharedDocuments: seq<SharedDocument>,
    activities: seq<Activity>,
    users: seq<User>,
    storage: set<string>)

  class Database {
    var documents: seq<Document>
    var folders: seq<Folder>
    var folderDocuments: seq<FolderDocument>
    var ocrResults: seq<OcrResult>
    var documentTags: seq<DocumentTag>
    var sharedDocuments: seq<SharedDocument>
    var activities: seq<Activity>
    var users: seq<User>
    var storage: set<string>

    function State(): Snapshot
      reads this
    {
      Snapshot(documents, folders, folderDocuments, ocrResults, documentTags,
              sharedDocuments, activities, users, storage)
    }

    constructor (initial: Snapshot)
      ensures State() == initial
    {
      documents := initial.documents;
      folders := initial.folders;
      folderDocuments := initial.folderDocuments;
      ocrResults := initial.ocrResults;
      documentTags := initial.documentTags;
      sharedDocuments := initial.sharedDocuments;
      activities := initial.activities;
      users := initial.users;
      storage := initial.storage;
    }
  }
}
