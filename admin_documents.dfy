/**
 * The administrator's document library of `src/lib/admin-documents.ts`:
 * the paged listing, document update and delete, folders and their counts,
 * the bulk move between folders, and the administrative statistics.
 *
 * Documents belong to folders through rows of the `folder_documents`
 * junction table. Every write operation is a method that performs the
 * backend calls one after another on the `Database` object, and a function on
 * `Snapshot` states the tables it leaves behind; because each call is a
 * separate step, a failure half way leaves the earlier steps in place. The
 * replies of the backend and the values it generates are parameters.
 */
module AdminDocuments {
  import opened Common
  import opened Tables
  import opened Store
  import opened Tally
  import opened Query
  import opened Database

  // ------------------------------------------------------------------
  // The junction table

  /** The junction rows of one document. */
  function RowsOfDocument(junction: seq<FolderDocument>, id: string): seq<FolderDocument>
  {
    Filter(junction, (fd: FolderDocument) => fd.documentId == id)
  }

  /** The junction rows of one folder. */
  function RowsOfFolder(junction: seq<FolderDocument>, folderId: string): seq<FolderDocument>
  {
    Filter(junction, (fd: FolderDocument) => fd.folderId == folderId)
  }

  /** What `.delete().in('document_id', ids)` leaves: the rows of the other documents. */
  function WithoutDocuments(junction: seq<FolderDocument>, ids: seq<string>): seq<FolderDocument>
  {
    Filter(junction, (fd: FolderDocument) => fd.documentId !in ids)
  }

  /** What `.delete().eq('folder_id', folderId)` leaves: the rows of the other folders. */
  function WithoutFolder(junction: seq<FolderDocument>, folderId: string): seq<FolderDocument>
  {
    Filter(junction, (fd: FolderDocument) => fd.folderId != folderId)
  }

  /** The rows `documentIds.map(docId => ({ folder_id, document_id: docId }))`. */
  function LinkRows(folderId: string, ids: seq<string>): (rows: seq<FolderDocument>)
    ensures |rows| == |ids|
    ensures forall i | 0 <= i < |ids| :: rows[i] == FolderDocument(folderId, ids[i])
  {
    seq(|ids|, i requires 0 <= i < |ids| => FolderDocument(folderId, ids[i]))
  }

  /** Linking distinct ids gives each of them exactly one row. */
  lemma {:induction false} LinkRowsOfDocument(folderId: string, ids: seq<string>, id: string)
    requires NoDuplicates(ids) && id in ids
    ensures RowsOfDocument(LinkRows(folderId, ids), id) == [FolderDocument(folderId, id)]
  {
    var rows := LinkRows(folderId, ids);
    assert rows[1..] == LinkRows(folderId, ids[1..]);
    assert NoDuplicates(ids[1..]) by {
      forall i, j | 0 <= i < j < |ids[1..]| ensures ids[1..][i] != ids[1..][j] {
        assert ids[i + 1] != ids[j + 1];
      }
    }
    if ids[0] == id {
      assert id !in ids[1..] by {
        forall j | 0 <= j < |ids[1..]| ensures ids[1..][j] != id {
          assert ids[0] != ids[j + 1];
        }
      }
      FilterNone(rows[1..], (fd: FolderDocument) => fd.documentId == id);
    } else {
      LinkRowsOfDocument(folderId, ids[1..], id);
    }
  }

  /** The linked rows all belong to the target folder. */
  lemma LinkRowsOfFolder(folderId: string, ids: seq<string>, other: string)
    ensures RowsOfFolder(LinkRows(folderId, ids), folderId) == LinkRows(folderId, ids)
    ensures other != folderId ==> RowsOfFolder(LinkRows(folderId, ids), other) == []
  {
    FilterAll(LinkRows(folderId, ids), (fd: FolderDocument) => fd.folderId == folderId);
    if other != folderId {
      FilterNone(LinkRows(folderId, ids), (fd: FolderDocument) => fd.folderId == other);
    }
  }

  /** Removing the rows of `ids` leaves no row of any of them. */
  lemma WithoutDocumentsHasNone(junction: seq<FolderDocument>, ids: seq<string>)
    ensures forall fd | fd in WithoutDocuments(junction, ids) :: fd.documentId !in ids
  {
  }

  // ------------------------------------------------------------------
  // logAdminActivity

  /** logAdminActivity: the activity is recorded as `admin_<action>`; every error is swallowed. */
  function AdminLog(s: Snapshot, adminClerkId: string, action: string, env: LogEnv): Snapshot
  {
    LogState(s, adminClerkId, "admin_" + action, env)
  }

  method LogAdminActivity(db: Store.Database, adminClerkId: string, action: string, env: LogEnv)
    modifies db
    ensures db.State() == AdminLog(old(db.State()), adminClerkId, action, env)
  {
    LogActivity(db, adminClerkId, "admin_" + action, env);
  }

  /** Logging changes neither the documents nor the folders nor the junction table. */
  lemma AdminLogFrame(s: Snapshot, adminClerkId: string, action: string, env: LogEnv)
    ensures var t := AdminLog(s, adminClerkId, action, env);
            t == s.(users := t.users, activities := t.activities)
  {
    LogStateFrame(s, adminClerkId, "admin_" + action, env);
  }

  // ------------------------------------------------------------------
  // moveDocumentsToFolder

  /** The backend's answers to the calls of one bulk move (the delete's own error is never read). */
  datatype MoveEnv = MoveEnv(unlink: Reply, link: Reply, log: LogEnv, logAgain: LogEnv)

  /**
   * moveDocumentsToFolder: delete every junction row of the documents, then,
   * for a truthy folder id, insert one row per document; an insert error is
   * returned after the delete has already happened. A success is logged
   * twice.
   */
  function MoveState(s: Snapshot, ids: seq<string>, folderId: Option<string>, adminClerkId: string, env: MoveEnv)
    : (Snapshot, Reply)
  {
    var s1 := if env.unlink.Done? then s.(folderDocuments := WithoutDocuments(s.folderDocuments, ids)) else s;
    if Truthy(folderId) && env.link.Failed? then (s1, Failed(env.link.message))
    else
      var s2 := if Truthy(folderId) then s1.(folderDocuments := s1.folderDocuments + LinkRows(folderId.value, ids)) else s1;
      var s3 := AdminLog(s2, adminClerkId, "documents_moved", env.log);
      (AdminLog(s3, adminClerkId, "documents_moved", env.logAgain), Done)
  }

  method MoveDocumentsToFolder(db: Store.Database, ids: seq<string>, folderId: Option<string>, adminClerkId: string,
                               env: MoveEnv)
    returns (r: Reply)
    modifies db
    ensures (db.State(), r) == MoveState(old(db.State()), ids, folderId, adminClerkId, env)
  {
    if env.unlink.Done? {
      db.folderDocuments := WithoutDocuments(db.folderDocuments, ids);
    }
    if Truthy(folderId) {
      if env.link.Failed? {
        return Failed(env.link.message);
      }
      db.folderDocuments := db.folderDocuments + LinkRows(folderId.value, ids);
    }
    LogAdminActivity(db, adminClerkId, "documents_moved", env.log);
    LogAdminActivity(db, adminClerkId, "documents_moved", env.logAgain);
    r := Done;
  }

  /**
   * After a bulk move whose delete step succeeded: the rows of the other
   * documents are as before; when the target is a truthy folder id and the
   * insert succeeded, each (distinct) moved document has exactly the one row
   * linking it to that folder; otherwise — no target, or a failed insert
   * after the delete — the moved documents are in no folder at all.
   */
  lemma MoveRelinks(s: Snapshot, ids: seq<string>, folderId: Option<string>, adminClerkId: string, env: MoveEnv)
    requires env.unlink.Done?
    ensures var (t, r) := MoveState(s, ids, folderId, adminClerkId, env);
            && (r.Failed? <==> Truthy(folderId) && env.link.Failed?)
            && t == s.(folderDocuments := t.folderDocuments, users := t.users, activities := t.activities)
            && WithoutDocuments(t.folderDocuments, ids) == WithoutDocuments(s.folderDocuments, ids)
            && (r.Failed? || !Truthy(folderId) ==> forall fd | fd in t.folderDocuments :: fd.documentId !in ids)
            && (r.Done? && Truthy(folderId) && NoDuplicates(ids) ==>
                  forall id | id in ids :: RowsOfDocument(t.folderDocuments, id) == [FolderDocument(folderId.value, id)])
  {
    var kept := WithoutDocuments(s.folderDocuments, ids);
    var p := (fd: FolderDocument) => fd.documentId !in ids;
    FilterNarrow(s.folderDocuments, p, p);
    var s1 := s.(folderDocuments := kept);
    if Truthy(folderId) && env.link.Done? {
      RelinkedRows(s.folderDocuments, ids, folderId.value);
      var s2 := s1.(folderDocuments := kept + LinkRows(folderId.value, ids));
      var s3 := AdminLog(s2, adminClerkId, "documents_moved", env.log);
      AdminLogFrame(s2, adminClerkId, "documents_moved", env.log);
      AdminLogFrame(s3, adminClerkId, "documents_moved", env.logAgain);
    } else if !Truthy(folderId) {
      AdminLogFrame(s1, adminClerkId, "documents_moved", env.log);
      AdminLogFrame(AdminLog(s1, adminClerkId, "documents_moved", env.log), adminClerkId, "documents_moved", env.logAgain);
    }
  }

  /**
   * The rows a successful bulk move leaves: without the moved documents they
   * are the rows that survived the delete, and each distinct moved document
   * has exactly its one new link.
   */
  lemma RelinkedRows(rows: seq<FolderDocument>, ids: seq<string>, target: string)
    ensures var kept := WithoutDocuments(rows, ids);
            var t := kept + LinkRows(target, ids);
            && WithoutDocuments(t, ids) == kept
            && (NoDuplicates(ids) ==> forall id | id in ids :: RowsOfDocument(t, id) == [FolderDocument(target, id)])
  {
    var kept := WithoutDocuments(rows, ids);
    var links := LinkRows(target, ids);
    var p := (fd: FolderDocument) => fd.documentId !in ids;
    FilterNarrow(rows, p, p);
    FilterAppend(kept, links, p);
    FilterNone(links, p);
    if NoDuplicates(ids) {
      forall id | id in ids
        ensures RowsOfDocument(kept + links, id) == [FolderDocument(target, id)]
      {
        FilterAppend(kept, links, (fd: FolderDocument) => fd.documentId == id);
        FilterNone(kept, (fd: FolderDocument) => fd.documentId == id);
        LinkRowsOfDocument(target, ids, id);
      }
    }
  }

  /**
   * A bulk move whose delete step failed silently still inserts the new rows,
   * so a document that was in another folder ends up linked to two folders.
   */
  lemma MoveWithFailedDeleteKeepsOldLinks(s: Snapshot, ids: seq<string>, folderId: Option<string>,
                                          adminClerkId: string, env: MoveEnv, k: nat)
    requires env.unlink.Failed? && env.link.Done? && Truthy(folderId)
    requires k < |s.folderDocuments| && s.folderDocuments[k].documentId in ids
    ensures var t := MoveState(s, ids, folderId, adminClerkId, env).0;
            s.folderDocuments[k] in t.folderDocuments
            && FolderDocument(folderId.value, s.folderDocuments[k].documentId) in t.folderDocuments
  {
    var links := LinkRows(folderId.value, ids);
    var s2 := s.(folderDocuments := s.folderDocuments + links);
    AdminLogFrame(s2, adminClerkId, "documents_moved", env.log);
    AdminLogFrame(AdminLog(s2, adminClerkId, "documents_moved", env.log), adminClerkId, "documents_moved", env.logAgain);
    var j :| 0 <= j < |ids| && ids[j] == s.folderDocuments[k].documentId;
    assert links[j] in links;
  }

  // ------------------------------------------------------------------
  // getDocumentFolders

  datatype FolderWithCount = FolderWithCount(folder: Folder, documentCount: nat)

  /**
   * getDocumentFolders: every folder with the number of junction rows that
   * carry its id; a count query that fails gives `null`, shown as 0 (the ids
   * in `failedCounts`), and a failed folder query gives no folders at all.
   */
  function GetDocumentFolders(s: Snapshot, listing: Reply, failedCounts: set<string>): (r: seq<FolderWithCount>)
  {
    if listing.Failed? then []
    else
      seq(|s.folders|, i requires 0 <= i < |s.folders| =>
        FolderWithCount(s.folders[i],
          if s.folders[i].id in failedCounts then 0 else |RowsOfFolder(s.folderDocuments, s.folders[i].id)|))
  }

  /**
   * How a successful bulk move of distinct documents changes the folder
   * counts: the target folder counts its rows from the other documents plus
   * one per moved document, every other folder its rows from the other
   * documents only; the folder list itself is unchanged.
   */
  lemma MoveUpdatesFolderCounts(s: Snapshot, ids: seq<string>, target: string, adminClerkId: string, env: MoveEnv)
    requires env.unlink.Done? && env.link.Done? && target != ""
    ensures var t := MoveState(s, ids, Some(target), adminClerkId, env).0;
            var after := GetDocumentFolders(t, Done, {});
            var kept := WithoutDocuments(s.folderDocuments, ids);
            |after| == |s.folders|
            && forall i | 0 <= i < |after| ::
                 after[i].folder == s.folders[i]
                 && after[i].documentCount
                    == |RowsOfFolder(kept, s.folders[i].id)| + (if s.folders[i].id == target then |ids| else 0)
  {
    var kept := WithoutDocuments(s.folderDocuments, ids);
    var links := LinkRows(target, ids);
    MoveRelinks(s, ids, Some(target), adminClerkId, env);
    var t := MoveState(s, ids, Some(target), adminClerkId, env).0;
    assert t.folderDocuments == kept + links by {
      var s2 := s.(folderDocuments := kept + links);
      AdminLogFrame(s2, adminClerkId, "documents_moved", env.log);
      AdminLogFrame(AdminLog(s2, adminClerkId, "documents_moved", env.log), adminClerkId, "documents_moved", env.logAgain);
    }
    forall i | 0 <= i < |s.folders|
      ensures |RowsOfFolder(kept + links, s.folders[i].id)|
              == |RowsOfFolder(kept, s.folders[i].id)| + (if s.folders[i].id == target then |ids| else 0)
    {
      FilterAppend(kept, links, (fd: FolderDocument) => fd.folderId == s.folders[i].id);
      LinkRowsOfFolder(target, ids, s.folders[i].id);
    }
  }

  // ------------------------------------------------------------------
  // createDocumentFolder and updateDocumentFolder

  /** The backend's answers and generated values for one createDocumentFolder call. */
  datatype CreateFolderEnv = CreateFolderEnv(userLookup: Reply, newUserId: string, userInsert: Reply, newFolderId: string,
                                             insert: Reply, log: LogEnv)

  /** The folder row createDocumentFolder inserts: name and description trimmed. */
  function NewFolder(id: string, name: string, description: string, color: string, createdBy: string): Folder
  {
    Folder(id, Trim(name), Trim(description), Some(color), createdBy)
  }

  /**
   * createDocumentFolder: resolve the creator (a thrown error becomes the
   * failure message), insert the folder with its name and description
   * trimmed, log, and return it with a document count of 0.
   */
  function CreateFolderState(s: Snapshot, name: string, description: string, color: string,
                             creatorClerkId: string, env: CreateFolderEnv)
    : (Snapshot, Result<FolderWithCount>)
  {
    var (s1, creator) := ResolveUser(s, creatorClerkId, env.userLookup, env.newUserId, env.userInsert);
    if creator.Err? then (s1, Err(creator.error))
    else if env.insert.Failed? then (s1, Err(env.insert.message))
    else
      var f := NewFolder(env.newFolderId, name, description, color, creator.value);
      (AdminLog(s1.(folders := s1.folders + [f]), creatorClerkId, "folder_created", env.log),
       Ok(FolderWithCount(f, 0)))
  }

  method CreateDocumentFolder(db: Store.Database, name: string, description: string, color: string,
                              creatorClerkId: string, env: CreateFolderEnv)
    returns (r: Result<FolderWithCount>)
    modifies db
    ensures (db.State(), r) == CreateFolderState(old(db.State()), name, description, color, creatorClerkId, env)
  {
    ghost var s0 := db.State();
    var creator := GetUserIdFromClerk(db, creatorClerkId, env.userLookup, env.newUserId, env.userInsert);
    ghost var s1 := db.State();
    assert (s1, creator) == ResolveUser(s0, creatorClerkId, env.userLookup, env.newUserId, env.userInsert);
    if creator.Err? {
      return Err(creator.error);
    }
    if env.insert.Failed? {
      return Err(env.insert.message);
    }
    var f := NewFolder(env.newFolderId, name, description, color, creator.value);
    db.folders := db.folders + [f];
    assert db.State() == s1.(folders := s1.folders + [f]);
    LogAdminActivity(db, creatorClerkId, "folder_created", env.log);
    r := Ok(FolderWithCount(f, 0));
  }

  /**
   * A created folder is appended to the folder table with a name and a
   * description free of surrounding white space, created by an existing user,
   * and with a count of 0; a name that is not all white space stays non-empty.
   */
  lemma CreatedFolderIsTrimmed(s: Snapshot, name: string, description: string, color: string,
                               creatorClerkId: string, env: CreateFolderEnv)
    ensures var (t, r) := CreateFolderState(s, name, description, color, creatorClerkId, env);
            r.Ok? ==>
              && t.folders == s.folders + [r.value.folder]
              && r.value.documentCount == 0
              && r.value.folder.name == Trim(name)
              && r.value.folder.description == Trim(description)
              && (r.value.folder.name == "" <==> forall i | 0 <= i < |name| :: IsWhite(name[i]))
              && exists u :: u in t.users && u.id == r.value.folder.createdBy
  {
    var (s1, creator) := ResolveUser(s, creatorClerkId, env.userLookup, env.newUserId, env.userInsert);
    ResolvedUserExists(s, creatorClerkId, env.userLookup, env.newUserId, env.userInsert);
    TrimEmptyIffAllWhite(name);
    if creator.Ok? && env.insert.Done? {
      var f := NewFolder(env.newFolderId, name, description, color, creator.value);
      var s2 := s1.(folders := s1.folders + [f]);
      var t := AdminLog(s2, creatorClerkId, "folder_created", env.log);
      assert CreateFolderState(s, name, description, color, creatorClerkId, env) == (t, Ok(FolderWithCount(f, 0)));
      AdminLogFrame(s2, creatorClerkId, "folder_created", env.log);
      var u :| u in s1.users && u.id == creator.value && u.clerkUserId == creatorClerkId;
      UsersOnlyGrow(s2, creatorClerkId, "admin_folder_created", env.log);
      assert u in t.users;
    }
  }

  /** Logging never removes a user. */
  lemma UsersOnlyGrow(s: Snapshot, clerkId: string, action: string, env: LogEnv)
    ensures forall u | u in s.users :: u in LogState(s, clerkId, action, env).users
  {
  }

  /** The fields updateDocumentFolder forwards; absent ones are left as they are. */
  datatype FolderUpdates = FolderUpdates(name: Option<string>, description: Option<string>, color: Option<string>)

  function ApplyFolderUpdates(f: Folder, u: FolderUpdates): Folder
  {
    f.(name := OrElse(u.name, f.name), description := OrElse(u.description, f.description),
       color := if u.color.Some? then u.color else f.color)
  }

  /**
   * `g` is folder `f` after an update with `u`: each given field holds the
   * given value, each absent one its old value, and no other column changes.
   */
  predicate FolderRewritten(f: Folder, u: FolderUpdates, g: Folder)
  {
    && g.name == OrElse(u.name, f.name)
    && g.description == OrElse(u.description, f.description)
    && (u.color.Some? ==> g.color == u.color)
    && (u.color.None? ==> g.color == f.color)
    && g == f.(name := g.name, description := g.description, color := g.color)
  }

  /** `update(updates).eq('id', folderId)` on the folder table. */
  function UpdateFolders(folders: seq<Folder>, folderId: string, u: FolderUpdates): (r: seq<Folder>)
    ensures |r| == |folders|
    ensures forall i | 0 <= i < |r| ::
              && (folders[i].id == folderId ==> FolderRewritten(folders[i], u, r[i]))
              && (folders[i].id != folderId ==> r[i] == folders[i])
  {
    seq(|folders|, i requires 0 <= i < |folders| =>
      if folders[i].id == folderId then ApplyFolderUpdates(folders[i], u) else folders[i])
  }

  /** updateDocumentFolder: update the folder rows with that id, then log. */
  function UpdateFolderState(s: Snapshot, folderId: string, u: FolderUpdates, adminClerkId: string,
                             update: Reply, log: LogEnv)
    : (Snapshot, Reply)
  {
    if update.Failed? then (s, Failed(update.message))
    else
      (AdminLog(s.(folders := UpdateFolders(s.folders, folderId, u)), adminClerkId, "folder_updated", log), Done)
  }

  method UpdateDocumentFolder(db: Store.Database, folderId: string, u: FolderUpdates, adminClerkId: string,
                              update: Reply, log: LogEnv)
    returns (r: Reply)
    modifies db
    ensures (db.State(), r) == UpdateFolderState(old(db.State()), folderId, u, adminClerkId, update, log)
  {
    if update.Failed? {
      return Failed(update.message);
    }
    db.folders := UpdateFolders(db.folders, folderId, u);
    LogAdminActivity(db, adminClerkId, "folder_updated", log);
    r := Done;
  }

  /**
   * A successful folder update writes the given name, description and colour
   * into the folder with that id, keeps its other fields (id and creator
   * among them) and the fields not given; other folders, the documents and
   * the junction table are untouched. A failed update changes nothing.
   */
  lemma UpdateFolderKeepsOthers(s: Snapshot, folderId: string, u: FolderUpdates, adminClerkId: string,
                                update: Reply, log: LogEnv)
    ensures var (t, r) := UpdateFolderState(s, folderId, u, adminClerkId, update, log);
            && (r.Done? <==> update.Done?)
            && |t.folders| == |s.folders|
            && t.folderDocuments == s.folderDocuments && t.documents == s.documents
            && (r.Failed? ==> t == s)
            && forall i | 0 <= i < |s.folders| ::
                 && (s.folders[i].id != folderId || r.Failed? ==> t.folders[i] == s.folders[i])
                 && (s.folders[i].id == folderId && r.Done? ==> FolderRewritten(s.folders[i], u, t.folders[i]))
  {
    if update.Done? {
      AdminLogFrame(s.(folders := UpdateFolders(s.folders, folderId, u)), adminClerkId, "folder_updated", log);
    }
  }

  // ------------------------------------------------------------------
  // deleteDocumentFolder

  /** The backend's answers to the calls of one folder delete (the unlink's error is never read). */
  datatype FolderDeleteEnv = FolderDeleteEnv(unlink: Reply, delete: Reply, log: LogEnv)

  function FoldersWithout(folders: seq<Folder>, folderId: string): seq<Folder>
  {
    Filter(folders, (f: Folder) => f.id != folderId)
  }

  /** deleteDocumentFolder: delete the folder's junction rows, then the folder; a folder delete error is returned. */
  function DeleteFolderState(s: Snapshot, folderId: string, adminClerkId: string, env: FolderDeleteEnv)
    : (Snapshot, Reply)
  {
    var s1 := if env.unlink.Done? then s.(folderDocuments := WithoutFolder(s.folderDocuments, folderId)) else s;
    if env.delete.Failed? then (s1, Failed(env.delete.message))
    else (AdminLog(s1.(folders := FoldersWithout(s1.folders, folderId)), adminClerkId, "folder_deleted", env.log), Done)
  }

  method DeleteDocumentFolder(db: Store.Database, folderId: string, adminClerkId: string, env: FolderDeleteEnv)
    returns (r: Reply)
    modifies db
    ensures (db.State(), r) == DeleteFolderState(old(db.State()), folderId, adminClerkId, env)
  {
    if env.unlink.Done? {
      db.folderDocuments := WithoutFolder(db.folderDocuments, folderId);
    }
    if env.delete.Failed? {
      return Failed(env.delete.message);
    }
    db.folders := FoldersWithout(db.folders, folderId);
    LogAdminActivity(db, adminClerkId, "folder_deleted", env.log);
    r := Done;
  }

  /**
   * Deleting a folder (its unlink step succeeding) removes every junction row
   * of that folder and nothing else from the junction table, and leaves the
   * document rows untouched; on success the folder record is gone and the
   * other folders remain in order.
   */
  lemma DeleteFolderUnlinks(s: Snapshot, folderId: string, adminClerkId: string, env: FolderDeleteEnv)
    requires env.unlink.Done?
    ensures var (t, r) := DeleteFolderState(s, folderId, adminClerkId, env);
            && (r.Done? <==> env.delete.Done?)
            && t.documents == s.documents
            && RowsOfFolder(t.folderDocuments, folderId) == []
            && (forall g | g != folderId :: RowsOfFolder(t.folderDocuments, g) == RowsOfFolder(s.folderDocuments, g))
            && (r.Failed? ==> t.folders == s.folders)
            && (r.Done? ==> t.folders == FoldersWithout(s.folders, folderId)
                            && forall f | f in t.folders :: f.id != folderId)
  {
    var kept := WithoutFolder(s.folderDocuments, folderId);
    FilterNone(kept, (fd: FolderDocument) => fd.folderId == folderId);
    forall g | g != folderId
      ensures RowsOfFolder(kept, g) == RowsOfFolder(s.folderDocuments, g)
    {
      FilterNarrow(s.folderDocuments, (fd: FolderDocument) => fd.folderId != folderId,
                   (fd: FolderDocument) => fd.folderId == g);
    }
    if env.delete.Done? {
      var s1 := s.(folderDocuments := kept);
      AdminLogFrame(s1.(folders := FoldersWithout(s1.folders, folderId)), adminClerkId, "folder_deleted", env.log);
    }
  }

  // ------------------------------------------------------------------
  // updateDocumentAdmin

  /** `folder_id` in the update: absent (`undefined`), `null`, or a string. */
  datatype FolderChange = Unchanged | NoFolder | ToFolder(id: string)

  /**
   * The fields of an update that name modelled columns: the declared ones
   * and `document_type`, which the metadata editor sends and the object
   * spread passes through to the row.
   */
  datatype DocumentUpdates = DocumentUpdates(
    title: Option<string>,
    category: Option<string>,
    status: Option<string>,
    folder: FolderChange,
    description: Option<string>,
    documentType: Option<string>)

  /**
   * The document columns the update writes: the given title, status,
   * description and document type, and `updated_at`; `category` and
   * `folder_id` are stripped.
   */
  function ApplyUpdates(d: Document, u: DocumentUpdates, now: string): Document
  {
    d.(title := OrElse(u.title, d.title),
       status := if u.status.Some? then u.status else d.status,
       description := if u.description.Some? then u.description else d.description,
       documentType := if u.documentType.Some? then u.documentType else d.documentType,
       updatedAt := now)
  }

  /**
   * `r` is document `d` after an update with `u` at `now`: each given field
   * holds the given value and each absent one its old value, `updated_at` is
   * `now`, and every other column (id, owner, category, folder among them)
   * is as it was.
   */
  predicate Rewritten(d: Document, u: DocumentUpdates, now: string, r: Document)
  {
    && r.title == OrElse(u.title, d.title)
    && (u.status.Some? ==> r.status == u.status) && (u.status.None? ==> r.status == d.status)
    && (u.description.Some? ==> r.description == u.description)
    && (u.description.None? ==> r.description == d.description)
    && (u.documentType.Some? ==> r.documentType == u.documentType)
    && (u.documentType.None? ==> r.documentType == d.documentType)
    && r.updatedAt == now
    && r == d.(title := r.title, status := r.status, description := r.description,
               documentType := r.documentType, updatedAt := r.updatedAt)
  }

  function UpdateRows(docs: seq<Document>, id: string, u: DocumentUpdates, now: string): (r: seq<Document>)
    ensures |r| == |docs|
    ensures forall i | 0 <= i < |r| ::
              && (docs[i].id == id ==> Rewritten(docs[i], u, now, r[i]))
              && (docs[i].id != id ==> r[i] == docs[i])
  {
    seq(|docs|, i requires 0 <= i < |docs| => if docs[i].id == id then ApplyUpdates(docs[i], u, now) else docs[i])
  }

  /** The backend's answers and the clock for one updateDocumentAdmin call. */
  datatype UpdateEnv = UpdateEnv(now: string, update: Reply, unlink: Reply, link: Reply, log: LogEnv)

  /** The folder the update links the document to: only a truthy `folder_id`. */
  predicate Links(c: FolderChange)
  {
    c.ToFolder? && c.id != ""
  }

  /**
   * The junction step of the update: when `folder_id` is present, delete the
   * document's rows and, for a truthy id, insert the new one.
   */
  function UpdateLinks(s: Snapshot, id: string, c: FolderChange, env: UpdateEnv): (Snapshot, Reply)
  {
    var s1 := if c.Unchanged? || env.unlink.Failed? then s
              else s.(folderDocuments := WithoutDocuments(s.folderDocuments, [id]));
    if Links(c) && env.link.Failed? then (s1, Failed(env.link.message))
    else if Links(c) then (s1.(folderDocuments := s1.folderDocuments + [FolderDocument(c.id, id)]), Done)
    else (s1, Done)
  }

  /**
   * updateDocumentAdmin: update the document's columns (an error ends the
   * call), then the junction step (an insert error ends the call after the
   * delete), then log.
   */
  function UpdateDocumentState(s: Snapshot, id: string, u: DocumentUpdates, adminClerkId: string, env: UpdateEnv)
    : (Snapshot, Reply)
  {
    if env.update.Failed? then (s, Failed(env.update.message))
    else
      var (s1, r) := UpdateLinks(s.(documents := UpdateRows(s.documents, id, u, env.now)), id, u.folder, env);
      if r.Failed? then (s1, r)
      else (AdminLog(s1, adminClerkId, "document_updated", env.log), Done)
  }

  method UpdateDocumentAdmin(db: Store.Database, id: string, u: DocumentUpdates, adminClerkId: string, env: UpdateEnv)
    returns (r: Reply)
    modifies db
    ensures (db.State(), r) == UpdateDocumentState(old(db.State()), id, u, adminClerkId, env)
  {
    if env.update.Failed? {
      return Failed(env.update.message);
    }
    db.documents := UpdateRows(db.documents, id, u, env.now);
    ghost var s1 := db.State();
    if !u.folder.Unchanged? {
      if env.unlink.Done? {
        db.folderDocuments := WithoutDocuments(db.folderDocuments, [id]);
      }
      if Links(u.folder) {
        if env.link.Failed? {
          return Failed(env.link.message);
        }
        db.folderDocuments := db.folderDocuments + [FolderDocument(u.folder.id, id)];
      }
    }
    assert (db.State(), Done) == UpdateLinks(s1, id, u.folder, env);
    LogAdminActivity(db, adminClerkId, "document_updated", env.log);
    r := Done;
  }

  /**
   * The document columns of an update: a failed update changes nothing;
   * otherwise every row with that id takes the given title, status,
   * description and document type and the new `updated_at`, keeping its
   * other columns (`category` and `folder_id` are never written), and every
   * other row is unchanged, whatever the junction step then does.
   */
  lemma UpdateDocumentColumns(s: Snapshot, id: string, u: DocumentUpdates, adminClerkId: string, env: UpdateEnv)
    ensures var (t, r) := UpdateDocumentState(s, id, u, adminClerkId, env);
            && (env.update.Failed? ==> t == s && r == Failed(env.update.message))
            && |t.documents| == |s.documents|
            && (env.update.Done? ==>
                  forall i | 0 <= i < |s.documents| ::
                    && (s.documents[i].id == id ==> Rewritten(s.documents[i], u, env.now, t.documents[i]))
                    && (s.documents[i].id != id ==> t.documents[i] == s.documents[i]))
  {
    if env.update.Done? {
      var s1 := s.(documents := UpdateRows(s.documents, id, u, env.now));
      var s3 := UpdateLinks(s1, id, u.folder, env).0;
      assert UpdateDocumentState(s, id, u, adminClerkId, env)
          == (if UpdateLinks(s1, id, u.folder, env).1.Failed? then UpdateLinks(s1, id, u.folder, env)
              else (AdminLog(s3, adminClerkId, "document_updated", env.log), Done));
      AdminLogFrame(s3, adminClerkId, "document_updated", env.log);
    }
  }

  /**
   * The folder part of a document update: an absent `folder_id` leaves the
   * junction table as it was; otherwise (the delete succeeding) the other
   * documents' rows are kept, and the document ends with exactly the one row
   * linking it to a truthy folder id, or with none for `null` or `""` or
   * when the insert fails.
   */
  lemma UpdateDocumentFolderPart(s: Snapshot, id: string, c: FolderChange, env: UpdateEnv)
    ensures var (t, r) := UpdateLinks(s, id, c, env);
            && t == s.(folderDocuments := t.folderDocuments)
            && (r.Failed? <==> Links(c) && env.link.Failed?)
            && (c.Unchanged? ==> t.folderDocuments == s.folderDocuments)
            && (env.unlink.Done? && !c.Unchanged? ==>
                  && WithoutDocuments(t.folderDocuments, [id]) == WithoutDocuments(s.folderDocuments, [id])
                  && RowsOfDocument(t.folderDocuments, id)
                     == if Links(c) && r.Done? then [FolderDocument(c.id, id)] else [])
  {
    if env.unlink.Done? && !c.Unchanged? {
      var kept := WithoutDocuments(s.folderDocuments, [id]);
      KeptRowsOfDocument(s.folderDocuments, id);
      if Links(c) && env.link.Done? {
        var row := FolderDocument(c.id, id);
        assert UpdateLinks(s, id, c, env) == (s.(folderDocuments := kept + [row]), Done);
        FilterAppend(kept, [row], (fd: FolderDocument) => fd.documentId !in [id]);
        FilterAppend(kept, [row], (fd: FolderDocument) => fd.documentId == id);
      } else {
        assert UpdateLinks(s, id, c, env).0 == s.(folderDocuments := kept);
      }
    }
  }

  /** Deleting a document's rows leaves the other rows, and none of its own. */
  lemma KeptRowsOfDocument(junction: seq<FolderDocument>, id: string)
    ensures WithoutDocuments(WithoutDocuments(junction, [id]), [id]) == WithoutDocuments(junction, [id])
    ensures RowsOfDocument(WithoutDocuments(junction, [id]), id) == []
  {
    var p := (fd: FolderDocument) => fd.documentId !in [id];
    FilterNarrow(junction, p, p);
    FilterNone(WithoutDocuments(junction, [id]), (fd: FolderDocument) => fd.documentId == id);
  }

  // ------------------------------------------------------------------
  // deleteDocumentAdmin

  const DocumentNotFound := "Documento no encontrado"

  /** The backend's answers to the calls of one document delete. */
  datatype DeleteEnv = DeleteEnv(
    fetch: Reply,          // select ... .single()
    removeFile: Reply,     // deleteFileS3; a failure is only warned about
    ocrDelete: Reply,      // the three related deletes; their errors are never read
    tagsDelete: Reply,
    sharesDelete: Reply,
    delete: Reply,         // the document row itself
    log: LogEnv)

  function DocumentsWithId(docs: seq<Document>, id: string): seq<Document>
  {
    Filter(docs, (d: Document) => d.id == id)
  }

  /**
   * deleteDocumentAdmin: `.single()` finds the document only when exactly one
   * row carries the id; its storage object is removed when it has a path;
   * then its OCR results, tags and shares, then the row itself; a failure of
   * that last delete is returned. Its junction rows are never deleted.
   */
  function DeleteDocumentState(s: Snapshot, id: string, adminClerkId: string, env: DeleteEnv): (Snapshot, Reply)
  {
    var found := DocumentsWithId(s.documents, id);
    if env.fetch.Failed? || |found| != 1 then (s, Failed(DocumentNotFound))
    else
      var s1 := RemoveRelated(s, id, found[0].storagePath, env);
      if env.delete.Failed? then (s1, Failed(env.delete.message))
      else (AdminLog(s1.(documents := Filter(s1.documents, (d: Document) => d.id != id)), adminClerkId,
                     "document_deleted", env.log), Done)
  }

  /**
   * The steps before the document row itself: the storage object (when the
   * path is truthy), then the OCR results, tags and shares of the document,
   * each only when its call succeeds.
   */
  function RemoveRelated(s: Snapshot, id: string, path: Option<string>, env: DeleteEnv): (t: Snapshot)
    ensures t.documents == s.documents && t.folders == s.folders && t.folderDocuments == s.folderDocuments
    ensures t.users == s.users && t.activities == s.activities
  {
    var s1 := if Truthy(path) && env.removeFile.Done? then s.(storage := s.storage - {path.value}) else s;
    var s2 := if env.ocrDelete.Done?
              then s1.(ocrResults := Filter(s1.ocrResults, (o: OcrResult) => o.documentId != id)) else s1;
    var s3 := if env.tagsDelete.Done?
              then s2.(documentTags := Filter(s2.documentTags, (g: DocumentTag) => g.documentId != id)) else s2;
    if env.sharesDelete.Done?
    then s3.(sharedDocuments := Filter(s3.sharedDocuments, (h: SharedDocument) => h.documentId != id)) else s3
  }

  method RemoveRelatedRows(db: Store.Database, id: string, path: Option<string>, env: DeleteEnv)
    modifies db
    ensures db.State() == RemoveRelated(old(db.State()), id, path, env)
  {
    if Truthy(path) && env.removeFile.Done? {
      db.storage := db.storage - {path.value};
    }
    if env.ocrDelete.Done? {
      db.ocrResults := Filter(db.ocrResults, (o: OcrResult) => o.documentId != id);
    }
    if env.tagsDelete.Done? {
      db.documentTags := Filter(db.documentTags, (g: DocumentTag) => g.documentId != id);
    }
    if env.sharesDelete.Done? {
      db.sharedDocuments := Filter(db.sharedDocuments, (h: SharedDocument) => h.documentId != id);
    }
  }

  method DeleteDocumentAdmin(db: Store.Database, id: string, adminClerkId: string, env: DeleteEnv) returns (r: Reply)
    modifies db
    ensures (db.State(), r) == DeleteDocumentState(old(db.State()), id, adminClerkId, env)
  {
    ghost var s0 := db.State();
    var found := DocumentsWithId(db.documents, id);
    if env.fetch.Failed? || |found| != 1 {
      return Failed(DocumentNotFound);
    }
    RemoveRelatedRows(db, id, found[0].storagePath, env);
    ghost var s1 := db.State();
    if env.delete.Failed? {
      return Failed(env.delete.message);
    }
    db.documents := Filter(db.documents, (d: Document) => d.id != id);
    assert db.State() == s1.(documents := Filter(s1.documents, (d: Document) => d.id != id));
    LogAdminActivity(db, adminClerkId, "document_deleted", env.log);
    r := Done;
  }

  /**
   * Deleting a document: a missing (or duplicated) id changes nothing and
   * answers 'Documento no encontrado'; the outcome does not depend on the
   * storage removal; a success leaves no row with that id among the
   * documents, and — when the related deletes succeed — none among the OCR
   * results, tags and shares; the junction table is never touched.
   */
  lemma DeleteDocumentEffects(s: Snapshot, id: string, adminClerkId: string, env: DeleteEnv)
    ensures var (t, r) := DeleteDocumentState(s, id, adminClerkId, env);
            var found := DocumentsWithId(s.documents, id);
            && t.folderDocuments == s.folderDocuments
            && t.folders == s.folders
            && (env.fetch.Failed? || |found| != 1 ==> t == s && r == Failed(DocumentNotFound))
            && (r.Done? <==> env.fetch.Done? && |found| == 1 && env.delete.Done?)
            && (r.Done? ==> forall d | d in t.documents :: d.id != id)
            && (r.Done? ==> forall d | d in s.documents && d.id != id :: d in t.documents)
            && (r.Done? && env.ocrDelete.Done? ==> forall o | o in t.ocrResults :: o.documentId != id)
            && (r.Done? && env.tagsDelete.Done? ==> forall g | g in t.documentTags :: g.documentId != id)
            && (r.Done? && env.sharesDelete.Done? ==> forall h | h in t.sharedDocuments :: h.documentId != id)
  {
    var found := DocumentsWithId(s.documents, id);
    if env.fetch.Done? && |found| == 1 && env.delete.Done? {
      var s1 := RemoveRelated(s, id, found[0].storagePath, env);
      AdminLogFrame(s1.(documents := Filter(s1.documents, (d: Document) => d.id != id)), adminClerkId,
                    "document_deleted", env.log);
    }
  }

  /**
   * Because the junction rows are kept, a successful delete of a document
   * that was in a folder leaves a junction row pointing at no document.
   */
  lemma DeleteLeavesDanglingLink(s: Snapshot, id: string, adminClerkId: string, env: DeleteEnv, k: nat)
    requires k < |s.folderDocuments| && s.folderDocuments[k].documentId == id
    requires DeleteDocumentState(s, id, adminClerkId, env).1.Done?
    ensures var t := DeleteDocumentState(s, id, adminClerkId, env).0;
            s.folderDocuments[k] in t.folderDocuments
            && forall d | d in t.documents :: d.id != s.folderDocuments[k].documentId
  {
    DeleteDocumentEffects(s, id, adminClerkId, env);
  }

  // ------------------------------------------------------------------
  // getAllDocumentsAdmin

  /** A listed document with its owner's and folder's details and the constant extras. */
  datatype DocumentWithDetails = DocumentWithDetails(
    doc: Document,
    ownerName: string,
    ownerEmail: string,
    ownerRole: string,
    folderName: Option<string>,
    folderColor: Option<string>,
    ocrPagesCount: nat,
    tagsCount: nat,
    sharesCount: nat,
    tags: seq<DocumentTag>,
    categories: seq<string>)

  /** The row transform of the admin listing. */
  function AdminRow(r: Row): (d: DocumentWithDetails)
    ensures d.doc == r.doc
    ensures d.ocrPagesCount == 0 && d.tagsCount == 0 && d.sharesCount == 0 && d.tags == [] && d.categories == []
    ensures r.owner.None? ==> d.ownerName == "Usuario" && d.ownerEmail == "" && d.ownerRole == "empleado"
    ensures r.owner.Some? ==> d.ownerEmail == r.owner.value.email && d.ownerRole == r.owner.value.role
    ensures r.owner.Some? ==>
              d.ownerName == TemplateText(r.owner.value.firstName) + " " + TemplateText(r.owner.value.lastName)
    ensures r.folder.None? ==> d.folderName.None? && d.folderColor.None?
    ensures r.folder.Some? ==> d.folderName == Some(r.folder.value.name) && d.folderColor == r.folder.value.color
  {
    DocumentWithDetails(
      r.doc,
      if r.owner.Some? then TemplateText(r.owner.value.firstName) + " " + TemplateText(r.owner.value.lastName)
      else "Usuario",
      if r.owner.Some? then r.owner.value.email else "",
      if r.owner.Some? then r.owner.value.role else "empleado",
      if r.folder.Some? then Some(r.folder.value.name) else None,
      if r.folder.Some? then r.folder.value.color else None,
      0, 0, 0, [], [])
  }

  /** The filters of the admin listing; `None` is a missing property. */
  datatype AdminFilter = AdminFilter(
    status: Option<seq<string>>,
    category: Option<seq<string>>,
    folderId: Option<string>,
    ownerId: Option<string>,
    search: Option<string>,
    dateFrom: Option<string>,
    dateTo: Option<string>,
    page: Option<int>,
    limit: Option<int>)

  /** What the listing answers; `pages` is `None` when `Math.ceil` gives `NaN` or `Infinity` (a zero limit). */
  datatype Listing = Listing(documents: seq<DocumentWithDetails>, total: nat, pages: Option<int>)

  const EmptyListing := Listing([], 0, Some(0))

  function AdminPage(f: AdminFilter): int { OrElse(f.page, 1) }

  function AdminLimit(f: AdminFilter): int { OrElse(f.limit, 20) }

  /** The filters the listing query applies, given the ids read for the folder filter. */
  function AdminConds(f: AdminFilter, folderIds: seq<string>): seq<Cond>
  {
    [OwnerJoined]
    + When(|OrElse(f.status, [])| > 0, OneOf(Status, OrElse(f.status, [])))
    + When(|OrElse(f.category, [])| > 0, OneOf(Category, OrElse(f.category, [])))
    + When(Truthy(f.folderId), OneOf(Id, folderIds))
    + When(Truthy(f.ownerId), Equals(OwnerId, OrElse(f.ownerId, "")))
    + When(Truthy(f.search), TitleOrFilenameLike(OrElse(f.search, "")))
    + When(Truthy(f.dateFrom), AtLeast(CreatedAt, OrElse(f.dateFrom, "")))
    + When(Truthy(f.dateTo), AtMost(CreatedAt, OrElse(f.dateTo, "")))
  }

  /** The listing query: its filters, newest first, and the window of the requested page. */
  function AdminPlan(f: AdminFilter, folderIds: seq<string>): Plan
  {
    var (from, to) := PageRange(AdminPage(f), AdminLimit(f));
    Plan(AdminConds(f, folderIds), CreatedAt, false, from, to)
  }

  /** The document ids of a folder as its junction query reads them (none when that query fails). */
  function FolderMembers(junction: Option<seq<FolderDocument>>, folderId: string): (ids: seq<string>)
    ensures junction.Some? ==> forall x :: x in ids <==> exists fd | fd in junction.value :: fd.folderId == folderId && fd.documentId == x
  {
    if junction.None? then []
    else
      var rows := RowsOfFolder(junction.value, folderId);
      var ids := seq(|rows|, i requires 0 <= i < |rows| => rows[i].documentId);
      DocumentIdsOf(rows, ids, junction.value, folderId);
      ids
  }

  lemma DocumentIdsOf(rows: seq<FolderDocument>, ids: seq<string>, junction: seq<FolderDocument>, folderId: string)
    requires rows == RowsOfFolder(junction, folderId)
    requires |ids| == |rows| && forall i | 0 <= i < |rows| :: ids[i] == rows[i].documentId
    ensures forall x :: x in ids <==> exists fd | fd in junction :: fd.folderId == folderId && fd.documentId == x
  {
    forall x ensures x in ids <==> exists fd | fd in junction :: fd.folderId == folderId && fd.documentId == x {
      if x in ids {
        var i :| 0 <= i < |ids| && ids[i] == x;
        assert rows[i] in rows;
      }
      if exists fd | fd in junction :: fd.folderId == folderId && fd.documentId == x {
        var fd :| fd in junction && fd.folderId == folderId && fd.documentId == x;
        assert fd in rows;
        var i :| 0 <= i < |rows| && rows[i] == fd;
        assert ids[i] == x;
      }
    }
  }

  /**
   * getAllDocumentsAdmin over `table`, the documents joined with their owners
   * and folders in the order the query asks for. A folder with no junction
   * rows short-circuits; a failed query is caught and gives the empty result.
   */
  function GetAllDocumentsAdmin(table: seq<Row>, f: AdminFilter, junction: Option<seq<FolderDocument>>, reply: Reply)
    : Listing
  {
    var ids := if Truthy(f.folderId) then FolderMembers(junction, f.folderId.value) else [];
    if Truthy(f.folderId) && |ids| == 0 then EmptyListing
    else
      var a := Run(table, AdminPlan(f, ids), reply);
      if a.QueryFailed? then EmptyListing
      else Listing(seq(|a.page|, i requires 0 <= i < |a.page| => AdminRow(a.page[i])), a.count,
                   JsCeilDiv(a.count, AdminLimit(f)))
  }

  /** Without page and limit the listing asks for rows 0 to 19. */
  lemma AdminListingDefaults(f: AdminFilter, folderIds: seq<string>)
    requires f.page.None? && f.limit.None?
    ensures AdminPlan(f, folderIds).from == 0 && AdminPlan(f, folderIds).to == 19
  {
  }

  lemma NoRowsOfFolder(junction: seq<FolderDocument>, folderId: string)
    requires forall fd | fd in junction :: fd.folderId != folderId
    ensures RowsOfFolder(junction, folderId) == []
  {
    FilterNone(junction, (fd: FolderDocument) => fd.folderId == folderId);
  }

  /** A folder filter naming a folder with no junction rows (or whose rows cannot be read) lists nothing. */
  lemma AdminListingEmptyFolder(table: seq<Row>, f: AdminFilter, junction: Option<seq<FolderDocument>>, reply: Reply)
    requires Truthy(f.folderId)
    requires junction.None? || forall fd | fd in junction.value :: fd.folderId != f.folderId.value
    ensures GetAllDocumentsAdmin(table, f, junction, reply) == EmptyListing
  {
    if junction.Some? {
      NoRowsOfFolder(junction.value, f.folderId.value);
    }
  }

  /**
   * What the listing asks of a row, filter by filter: an owner, one of the
   * requested statuses and categories, membership of the folder when one is
   * asked for, the requested owner, the search term in the title or the file
   * name, and a creation date within the requested bounds.
   */
  predicate AdminSelects(r: Row, f: AdminFilter, ids: seq<string>)
  {
    && r.owner.Some?
    && (|OrElse(f.status, [])| > 0 ==> r.doc.status.Some? && r.doc.status.value in f.status.value)
    && (|OrElse(f.category, [])| > 0 ==> r.doc.category.Some? && r.doc.category.value in f.category.value)
    && (Truthy(f.folderId) ==> r.doc.id in ids)
    && (Truthy(f.ownerId) ==> r.doc.ownerId == f.ownerId)
    && (Truthy(f.search) ==>
          ILikeContains(r.doc.title, f.search.value) || ILikeContains(r.doc.filename, f.search.value))
    && (Truthy(f.dateFrom) ==> !LexLess(r.doc.createdAt, f.dateFrom.value))
    && (Truthy(f.dateTo) ==> !LexLess(f.dateTo.value, r.doc.createdAt))
  }

  /** A filter applied only when `b` holds is passed exactly when `b` is false or the filter holds. */
  lemma MatchesWhen(r: Row, b: bool, c: Cond)
    ensures Matches(r, When(b, c)) <==> (b ==> Holds(r, c))
  {
    if b {
      assert When(b, c)[0] == c;
    }
  }

  /** A row passes eight filter lists in a row exactly when it passes each of them. */
  lemma MatchesEight(r: Row, p0: seq<Cond>, p1: seq<Cond>, p2: seq<Cond>, p3: seq<Cond>,
                     p4: seq<Cond>, p5: seq<Cond>, p6: seq<Cond>, p7: seq<Cond>)
    ensures Matches(r, p0 + p1 + p2 + p3 + p4 + p5 + p6 + p7)
        <==> Matches(r, p0) && Matches(r, p1) && Matches(r, p2) && Matches(r, p3)
             && Matches(r, p4) && Matches(r, p5) && Matches(r, p6) && Matches(r, p7)
  {
    MatchesAppend(r, p0 + p1 + p2 + p3 + p4 + p5 + p6, p7);
    MatchesAppend(r, p0 + p1 + p2 + p3 + p4 + p5, p6);
    MatchesAppend(r, p0 + p1 + p2 + p3 + p4, p5);
    MatchesAppend(r, p0 + p1 + p2 + p3, p4);
    MatchesAppend(r, p0 + p1 + p2, p3);
    MatchesAppend(r, p0 + p1, p2);
    MatchesAppend(r, p0, p1);
  }

  /** The owner join and the status, category and folder filters, one by one. */
  lemma RowFiltersMeaning(r: Row, f: AdminFilter, ids: seq<string>)
    ensures Matches(r, [OwnerJoined]) <==> r.owner.Some?
    ensures Matches(r, When(|OrElse(f.status, [])| > 0, OneOf(Status, OrElse(f.status, []))))
        <==> (|OrElse(f.status, [])| > 0 ==> r.doc.status.Some? && r.doc.status.value in f.status.value)
    ensures Matches(r, When(|OrElse(f.category, [])| > 0, OneOf(Category, OrElse(f.category, []))))
        <==> (|OrElse(f.category, [])| > 0 ==> r.doc.category.Some? && r.doc.category.value in f.category.value)
    ensures Matches(r, When(Truthy(f.folderId), OneOf(Id, ids))) <==> (Truthy(f.folderId) ==> r.doc.id in ids)
  {
    MatchesWhen(r, true, OwnerJoined);
    MatchesWhen(r, |OrElse(f.status, [])| > 0, OneOf(Status, OrElse(f.status, [])));
    MatchesWhen(r, |OrElse(f.category, [])| > 0, OneOf(Category, OrElse(f.category, [])));
    MatchesWhen(r, Truthy(f.folderId), OneOf(Id, ids));
  }

  /** The owner, search and date filters, one by one. */
  lemma ValueFiltersMeaning(r: Row, f: AdminFilter)
    ensures Matches(r, When(Truthy(f.ownerId), Equals(OwnerId, OrElse(f.ownerId, ""))))
        <==> (Truthy(f.ownerId) ==> r.doc.ownerId == f.ownerId)
    ensures Matches(r, When(Truthy(f.search), TitleOrFilenameLike(OrElse(f.search, ""))))
        <==> (Truthy(f.search) ==>
                ILikeContains(r.doc.title, f.search.value) || ILikeContains(r.doc.filename, f.search.value))
    ensures Matches(r, When(Truthy(f.dateFrom), AtLeast(CreatedAt, OrElse(f.dateFrom, ""))))
        <==> (Truthy(f.dateFrom) ==> !LexLess(r.doc.createdAt, f.dateFrom.value))
    ensures Matches(r, When(Truthy(f.dateTo), AtMost(CreatedAt, OrElse(f.dateTo, ""))))
        <==> (Truthy(f.dateTo) ==> !LexLess(f.dateTo.value, r.doc.createdAt))
  {
    MatchesWhen(r, Truthy(f.ownerId), Equals(OwnerId, OrElse(f.ownerId, "")));
    MatchesWhen(r, Truthy(f.search), TitleOrFilenameLike(OrElse(f.search, "")));
    MatchesWhen(r, Truthy(f.dateFrom), AtLeast(CreatedAt, OrElse(f.dateFrom, "")));
    MatchesWhen(r, Truthy(f.dateTo), AtMost(CreatedAt, OrElse(f.dateTo, "")));
  }

  /**
   * The listing's filters mean exactly what was requested: a row passes them
   * if and only if it satisfies every requested filter, so the listing
   * neither drops a matching document nor admits another.
   */
  lemma AdminCondsMeaning(r: Row, f: AdminFilter, ids: seq<string>)
    ensures Matches(r, AdminConds(f, ids)) <==> AdminSelects(r, f, ids)
  {
    MatchesEight(r, [OwnerJoined],
                 When(|OrElse(f.status, [])| > 0, OneOf(Status, OrElse(f.status, []))),
                 When(|OrElse(f.category, [])| > 0, OneOf(Category, OrElse(f.category, []))),
                 When(Truthy(f.folderId), OneOf(Id, ids)),
                 When(Truthy(f.ownerId), Equals(OwnerId, OrElse(f.ownerId, ""))),
                 When(Truthy(f.search), TitleOrFilenameLike(OrElse(f.search, ""))),
                 When(Truthy(f.dateFrom), AtLeast(CreatedAt, OrElse(f.dateFrom, ""))),
                 When(Truthy(f.dateTo), AtMost(CreatedAt, OrElse(f.dateTo, ""))));
    RowFiltersMeaning(r, f, ids);
    ValueFiltersMeaning(r, f);
  }

  /**
   * A listing that reaches the database: a failure gives the empty result;
   * otherwise `total` counts every matching row, `pages` is
   * `Math.ceil(total / limit)`, and the page is the transformed window
   * `[(page-1)*limit, (page-1)*limit+limit-1]` of the matching rows (a
   * negative offset or limit failing as the database does).
   */
  lemma AdminListingWindow(table: seq<Row>, f: AdminFilter, junction: Option<seq<FolderDocument>>, reply: Reply)
    requires !Truthy(f.folderId) || |FolderMembers(junction, f.folderId.value)| > 0
    ensures var ids := if Truthy(f.folderId) then FolderMembers(junction, f.folderId.value) else [];
            var plan := AdminPlan(f, ids);
            var hits := Filter(table, (r: Row) => Matches(r, plan.conds));
            var l := GetAllDocumentsAdmin(table, f, junction, reply);
            && (reply.Failed? || plan.from < 0 || AdminLimit(f) < 0 ==> l == EmptyListing)
            && (reply.Done? && plan.from >= 0 && AdminLimit(f) >= 0 ==>
                  && l.total == |hits|
                  && l.pages == JsCeilDiv(|hits|, AdminLimit(f))
                  && |l.documents| <= AdminLimit(f)
                  && |l.documents| == |Window(hits, plan.from, plan.to)|
                  && (forall k | 0 <= k < |l.documents| ::
                        l.documents[k] == AdminRow(Window(hits, plan.from, plan.to)[k])
                        && Matches(Window(hits, plan.from, plan.to)[k], plan.conds)))
  {
    var ids := if Truthy(f.folderId) then FolderMembers(junction, f.folderId.value) else [];
    var plan := AdminPlan(f, ids);
    var hits := Filter(table, (r: Row) => Matches(r, plan.conds));
    if reply.Done? && plan.from >= 0 && AdminLimit(f) >= 0 {
      var w := Window(hits, plan.from, plan.to);
      assert Run(table, plan, reply) == Answer(w, |hits|);
      assert GetAllDocumentsAdmin(table, f, junction, reply)
             == Listing(seq(|w|, i requires 0 <= i < |w| => AdminRow(w[i])), |hits|, JsCeilDiv(|hits|, AdminLimit(f)));
      forall k | 0 <= k < |w| ensures Matches(w[k], plan.conds) {
        assert w[k] == hits[plan.from + k];
      }
    }
  }

  /**
   * The listing's `total` counts exactly the documents that satisfy every
   * requested filter: none is missed and none is added.
   */
  lemma AdminListingCountsSelected(table: seq<Row>, f: AdminFilter, junction: Option<seq<FolderDocument>>,
                                   reply: Reply)
    requires !Truthy(f.folderId) || |FolderMembers(junction, f.folderId.value)| > 0
    requires reply.Done? && (AdminPage(f) - 1) * AdminLimit(f) >= 0 && AdminLimit(f) >= 0
    ensures var ids := if Truthy(f.folderId) then FolderMembers(junction, f.folderId.value) else [];
            GetAllDocumentsAdmin(table, f, junction, reply).total
            == |Filter(table, (r: Row) => AdminSelects(r, f, ids))|
  {
    var ids := if Truthy(f.folderId) then FolderMembers(junction, f.folderId.value) else [];
    var plan := AdminPlan(f, ids);
    AdminListingWindow(table, f, junction, reply);
    forall r | r in table ensures Matches(r, plan.conds) == AdminSelects(r, f, ids) {
      AdminCondsMeaning(r, f, ids);
    }
    FilterExt(table, (r: Row) => Matches(r, plan.conds), (r: Row) => AdminSelects(r, f, ids));
  }

  // ------------------------------------------------------------------
  // getAdminStats

  /** A document as a statistics query sees it: only the selected columns, `id` absent unless selected. */
  datatype StatsRow = StatsRow(id: Option<string>, status: Option<string>, fileSize: Option<int>, createdAt: string)

  /** `select('status, file_size, created_at')`: the row has no `id`. */
  function SelectedForStats(docs: seq<Document>): (rows: seq<StatsRow>)
    ensures |rows| == |docs|
    ensures forall i | 0 <= i < |rows| :: rows[i].id.None? && rows[i].status == docs[i].status
  {
    seq(|docs|, i requires 0 <= i < |docs| => StatsRow(None, docs[i].status, docs[i].fileSize, docs[i].createdAt))
  }

  /** The same rows with `id` among the selected columns. */
  function SelectedWithId(docs: seq<Document>): (rows: seq<StatsRow>)
    ensures |rows| == |docs|
    ensures forall i | 0 <= i < |rows| :: rows[i].id == Some(docs[i].id)
  {
    seq(|docs|, i requires 0 <= i < |docs| => StatsRow(Some(docs[i].id), docs[i].status, docs[i].fileSize, docs[i].createdAt))
  }

  const NoFolderKey := "Sin carpeta"

  /** `new Set(folderDocuments.map(fd => fd.document_id))`, compared against a row's (possibly absent) id. */
  function FiledIds(junction: seq<FolderDocument>): set<Option<string>>
  {
    set fd | fd in junction :: Some(fd.documentId)
  }

  /** The rows whose `id` is not in the filed set. */
  function Unfiled(rows: seq<StatsRow>, junction: seq<FolderDocument>): nat
  {
    |Filter(rows, (r: StatsRow) => r.id !in FiledIds(junction))|
  }

  /** `{ 'Sin carpeta': 0 }` followed by `map[folder.name] = count` for each folder in turn. */
  function FolderCounts(folders: seq<Folder>, junction: seq<FolderDocument>): Counts
  {
    if folders == [] then [(NoFolderKey, 0)]
    else
      var f := folders[|folders| - 1];
      Put(FolderCounts(folders[..|folders| - 1], junction), f.name, |RowsOfFolder(junction, f.id)|)
  }

  /** `documents_by_folder`: the folder counts and the unfiled count, or everything unfiled when a query failed. */
  function ByFolder(rows: seq<StatsRow>, folders: Option<seq<Folder>>, junction: Option<seq<FolderDocument>>): Counts
  {
    if folders.Some? && junction.Some?
    then Put(FolderCounts(folders.value, junction.value), NoFolderKey, Unfiled(rows, junction.value))
    else Put([(NoFolderKey, 0)], NoFolderKey, |rows|)
  }

  /** `documents_by_category`: every document under `General`. */
  function Categories(n: nat): Counts
  {
    if n == 0 then [] else [("General", n)]
  }

  /** The sum of `file_size`, a missing size counting as 0. */
  function StorageUsage(docs: seq<Document>): int
  {
    if docs == [] then 0
    else StorageUsage(docs[..|docs| - 1]) + OrElse(docs[|docs| - 1].fileSize, 0)
  }

  /** The documents created after `weekAgo` (timestamps compared as ISO strings). */
  function RecentUploads(docs: seq<Document>, weekAgo: string): nat
  {
    if docs == [] then 0
    else RecentUploads(docs[..|docs| - 1], weekAgo) + (if IsRecent(docs[|docs| - 1], weekAgo) then 1 else 0)
  }

  /** `created_at > weekAgo` for a document that has a creation time. */
  predicate IsRecent(d: Document, weekAgo: string)
  {
    d.createdAt != "" && LexLess(weekAgo, d.createdAt)
  }

  datatype AdminStats = AdminStats(
    totalDocuments: nat,
    byStatus: Counts,
    byCategory: Counts,
    byFolder: Counts,
    recentUploads: nat,
    storageUsage: int)

  /**
   * getAdminStats over the answers of its three queries (`None` when a query
   * failed and its data is `null`) and the instant a week before now.
   */
  method GetAdminStats(documents: Option<seq<Document>>, folders: Option<seq<Folder>>,
                       junction: Option<seq<FolderDocument>>, weekAgo: string)
    returns (stats: AdminStats)
    ensures var docs := OrElse(documents, []);
            stats == AdminStats(|docs|, StatusTally(Statuses(docs)), Categories(|docs|),
                                ByFolder(SelectedForStats(docs), folders, junction),
                                RecentUploads(docs, weekAgo), StorageUsage(docs))
  {
    var docs := OrElse(documents, []);
    var rows := SelectedForStats(docs);
    var byFolder := CountByFolder(rows, folders, junction);
    var byStatus, byCategory, recent, storage := TallyDocuments(docs, weekAgo);
    stats := AdminStats(|rows|, byStatus, byCategory, byFolder, recent, storage);
  }

  /** The `documents_by_folder` part of getAdminStats. */
  method CountByFolder(rows: seq<StatsRow>, folders: Option<seq<Folder>>, junction: Option<seq<FolderDocument>>)
    returns (byFolder: Counts)
    ensures byFolder == ByFolder(rows, folders, junction)
  {
    byFolder := [(NoFolderKey, 0)];
    if folders.Some? && junction.Some? {
      var fs := folders.value;
      var k := 0;
      while k < |fs|
        invariant 0 <= k <= |fs|
        invariant byFolder == FolderCounts(fs[..k], junction.value)
      {
        FolderCountsStep(fs, k, junction.value);
        byFolder := Put(byFolder, fs[k].name, |RowsOfFolder(junction.value, fs[k].id)|);
        k := k + 1;
      }
      assert fs[..k] == fs;
      byFolder := Put(byFolder, NoFolderKey, Unfiled(rows, junction.value));
    } else {
      byFolder := Put(byFolder, NoFolderKey, |rows|);
    }
  }

  /** One more folder puts that folder's row count under its name. */
  lemma FolderCountsStep(fs: seq<Folder>, k: nat, junction: seq<FolderDocument>)
    requires k < |fs|
    ensures FolderCounts(fs[..k + 1], junction)
            == Put(FolderCounts(fs[..k], junction), fs[k].name, |RowsOfFolder(junction, fs[k].id)|)
  {
    assert fs[..k + 1][..k] == fs[..k];
  }

  /** The per-document `forEach` of getAdminStats: status and category counters, recent uploads, storage. */
  method TallyDocuments(docs: seq<Document>, weekAgo: string)
    returns (byStatus: Counts, byCategory: Counts, recent: nat, storage: int)
    ensures byStatus == StatusTally(Statuses(docs))
    ensures byCategory == Categories(|docs|)
    ensures recent == RecentUploads(docs, weekAgo)
    ensures storage == StorageUsage(docs)
  {
    byStatus, byCategory, recent, storage := [], [], 0, 0;
    var i := 0;
    while i < |docs|
      invariant 0 <= i <= |docs|
      invariant Tallied(docs[..i], weekAgo, byStatus, byCategory, recent, storage)
    {
      TallyStep(docs, i, weekAgo, byStatus, byCategory, recent, storage);
      byStatus := Bump(byStatus, StatusKey(docs[i].status));
      byCategory := Bump(byCategory, "General");
      storage := storage + OrElse(docs[i].fileSize, 0);
      if IsRecent(docs[i], weekAgo) {
        recent := recent + 1;
      }
      i := i + 1;
    }
    assert docs[..i] == docs;
  }

  /** TallyDocuments' running values after the documents `done`. */
  predicate Tallied(done: seq<Document>, weekAgo: string, byStatus: Counts, byCategory: Counts, recent: nat, storage: int)
  {
    && byStatus == StatusTally(Statuses(done))
    && byCategory == Categories(|done|)
    && recent == RecentUploads(done, weekAgo)
    && storage == StorageUsage(done)
  }

  /** One more document extends each of TallyDocuments' running values by that document's share. */
  lemma TallyStep(docs: seq<Document>, i: nat, weekAgo: string,
                  byStatus: Counts, byCategory: Counts, recent: nat, storage: int)
    requires i < |docs| && Tallied(docs[..i], weekAgo, byStatus, byCategory, recent, storage)
    ensures Tallied(docs[..i + 1], weekAgo, Bump(byStatus, StatusKey(docs[i].status)), Bump(byCategory, "General"),
                    if IsRecent(docs[i], weekAgo) then recent + 1 else recent, storage + OrElse(docs[i].fileSize, 0))
  {
    assert docs[..i + 1][..i] == docs[..i];
    StatusesPrefix(docs, i);
  }

  /**
   * The statistics' totals: the status counts (a missing status counted as
   * `'uploaded'`) and the `General` category both add up to the number of
   * documents, at most all of them are recent, and — because the rows carry
   * no `id` — `'Sin carpeta'` is that same number whatever the folders hold.
   */
  lemma AdminStatsTotals(docs: seq<Document>, folders: Option<seq<Folder>>,
                         junction: Option<seq<FolderDocument>>, weekAgo: string)
    ensures Total(StatusTally(Statuses(docs))) == |docs|
    ensures Total(Categories(|docs|)) == |docs|
    ensures RecentUploads(docs, weekAgo) <= |docs|
    ensures Get(ByFolder(SelectedForStats(docs), folders, junction), NoFolderKey) == |docs|
  {
    StatusTallyTotal(Statuses(docs));
    RecentAtMostAll(docs, weekAgo);
    if folders.Some? && junction.Some? {
      var rows := SelectedForStats(docs);
      FilterAll(rows, (r: StatsRow) => r.id !in FiledIds(junction.value));
    }
  }

  lemma {:induction false} RecentAtMostAll(docs: seq<Document>, weekAgo: string)
    ensures RecentUploads(docs, weekAgo) <= |docs|
  {
    if docs != [] {
      RecentAtMostAll(docs[..|docs| - 1], weekAgo);
    }
  }

  /**
   * What `'Sin carpeta'` would count with the `id` selected: as soon as one
   * document has a junction row, the unfiled count by id is below the total
   * that the statistics report.
   */
  lemma SinCarpetaIgnoresFolders(docs: seq<Document>, folders: seq<Folder>, junction: seq<FolderDocument>,
                                 k: nat, j: nat)
    requires k < |docs| && j < |junction| && junction[j].documentId == docs[k].id
    ensures Get(ByFolder(SelectedForStats(docs), Some(folders), Some(junction)), NoFolderKey) == |docs|
    ensures Unfiled(SelectedWithId(docs), junction) < |docs|
  {
    AdminStatsTotals(docs, Some(folders), Some(junction), "");
    var rows := SelectedWithId(docs);
    assert Some(docs[k].id) in FiledIds(junction) by {
      assert junction[j] in junction;
    }
    FilterShorter(rows, (r: StatsRow) => r.id !in FiledIds(junction), k);
  }

  /**
   * A folder whose name no other folder shares (and is not `'Sin carpeta'`)
   * is reported with the number of junction rows carrying its id.
   */
  lemma {:induction false} FolderEntryCounts(folders: seq<Folder>, junction: seq<FolderDocument>, i: nat)
    requires i < |folders| && folders[i].name != NoFolderKey
    requires forall j | 0 <= j < |folders| && j != i :: folders[j].name != folders[i].name
    ensures Get(FolderCounts(folders, junction), folders[i].name) == |RowsOfFolder(junction, folders[i].id)|
  {
    var n := |folders| - 1;
    var prefix := folders[..n];
    if i < n {
      assert prefix[i] == folders[i] && folders[n].name != folders[i].name;
      FolderEntryCounts(prefix, junction, i);
    }
  }

  /** The folder entries of the statistics, when both folder queries load. */
  lemma AdminStatsFolderEntry(docs: seq<Document>, folders: seq<Folder>, junction: seq<FolderDocument>, i: nat)
    requires i < |folders| && folders[i].name != NoFolderKey
    requires forall j | 0 <= j < |folders| && j != i :: folders[j].name != folders[i].name
    ensures Get(ByFolder(SelectedForStats(docs), Some(folders), Some(junction)), folders[i].name)
            == |RowsOfFolder(junction, folders[i].id)|
  {
    FolderEntryCounts(folders, junction, i);
  }

  /** A missing `file_size` adds nothing: the usage is the sum over the documents that have a size. */
  lemma {:induction false} StorageUsageIgnoresMissingSizes(docs: seq<Document>)
    ensures StorageUsage(docs) == StorageUsage(Filter(docs, (d: Document) => d.fileSize.Some?))
  {
    if docs != [] {
      var init := docs[..|docs| - 1];
      var last := docs[|docs| - 1];
      var p := (d: Document) => d.fileSize.Some?;
      assert docs == init + [last];
      FilterAppend(init, [last], p);
      StorageUsageIgnoresMissingSizes(init);
      StorageUsageAppend(Filter(init, p), Filter([last], p));
    }
  }

  lemma {:induction false} StorageUsageAppend(xs: seq<Document>, ys: seq<Document>)
    ensures StorageUsage(xs + ys) == StorageUsage(xs) + StorageUsage(ys)
  {
    if ys != [] {
      var yi := ys[..|ys| - 1];
      assert (xs + ys)[..|xs + ys| - 1] == xs + yi;
      StorageUsageAppend(xs, yi);
    } else {
      assert xs + ys == xs;
    }
  }
}
