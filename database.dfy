/**
 * The document library of `src/lib/database.ts`: user resolution, document
 * creation, the status lifecycle, OCR results, tags, and the dashboard and
 * chart statistics.
 *
 * Every write operation is a method on the `Database` object that performs
 * the backend calls one after another, and a function on `Snapshot` that
 * states the resulting tables; the lemmas are about those functions. The
 * backend's answer to each call (success or an error message) and the ids and
 * timestamps the backend or the clock would supply are parameters.
 */
module Database {
  import opened Common
  import opened Tables
  import opened Store
  import opened Tally

  // ------------------------------------------------------------------
  // getUserIdFromClerk and logActivity

  /** The row inserted for an identity that has no `users` row yet. */
  function PlaceholderUser(id: string, clerkId: string): User
  {
    User(id, clerkId, "user_" + clerkId + "@clerk.local", Some("Usuario"), Some("Clerk"), "empleado")
  }

  function UsersWithClerkId(users: seq<User>, clerkId: string): seq<User>
  {
    Filter(users, (u: User) => u.clerkUserId == clerkId)
  }

  /**
   * getUserIdFromClerk: the lookup's `.single()` yields a row only when the
   * lookup succeeds and exactly one user carries the identity; its error is
   * never read, so a failed lookup counts as "not found". Then a placeholder
   * user is inserted, and an insert error is thrown.
   */
  function ResolveUser(s: Snapshot, clerkId: string, lookup: Reply, newId: string, insert: Reply)
    : (Snapshot, Result<string>)
  {
    var found := UsersWithClerkId(s.users, clerkId);
    if lookup.Done? && |found| == 1 then (s, Ok(found[0].id))
    else if insert.Failed? then (s, Err("Error creando usuario: " + insert.message))
    else (s.(users := s.users + [PlaceholderUser(newId, clerkId)]), Ok(newId))
  }

  /** A resolved id belongs to a user row carrying the identity, and only `users` may change. */
  lemma ResolvedUserExists(s: Snapshot, clerkId: string, lookup: Reply, newId: string, insert: Reply)
    ensures var (t, r) := ResolveUser(s, clerkId, lookup, newId, insert);
            t == s.(users := t.users)
            && (r.Ok? ==> exists u :: u in t.users && u.id == r.value && u.clerkUserId == clerkId)
            && (r.Err? ==> t == s)
  {
    var found := UsersWithClerkId(s.users, clerkId);
    if lookup.Done? && |found| == 1 {
      assert found[0] in found;
    } else if insert.Done? {
      assert PlaceholderUser(newId, clerkId) in s.users + [PlaceholderUser(newId, clerkId)];
    }
  }

  lemma {:induction false} FilterAppendOne(users: seq<User>, u: User, clerkId: string)
    ensures UsersWithClerkId(users + [u], clerkId)
         == UsersWithClerkId(users, clerkId) + (if u.clerkUserId == clerkId then [u] else [])
  {
    FilterAppend(users, [u], (v: User) => v.clerkUserId == clerkId);
  }

  /**
   * Resolution is stable: when at most one user carries the identity and the
   * first lookup succeeded (or found nobody), a second resolution whose lookup
   * succeeds returns the same id and inserts nothing, whatever the backend
   * would answer to an insert.
   */
  lemma ResolveUserStable(s: Snapshot, clerkId: string, lookup: Reply, newId: string, insert: Reply,
                          newId2: string, insert2: Reply)
    requires |UsersWithClerkId(s.users, clerkId)| <= 1
    requires lookup.Done? || |UsersWithClerkId(s.users, clerkId)| == 0
    requires ResolveUser(s, clerkId, lookup, newId, insert).1.Ok?
    ensures var (t, r) := ResolveUser(s, clerkId, lookup, newId, insert);
            ResolveUser(t, clerkId, Done, newId2, insert2) == (t, r)
  {
    var found := UsersWithClerkId(s.users, clerkId);
    if |found| == 0 {
      FilterAppendOne(s.users, PlaceholderUser(newId, clerkId), clerkId);
    }
  }

  /**
   * A failed lookup is taken for "not found" even when the user exists: a
   * successful insert adds one more user carrying the identity and returns the
   * new id, and a failed insert throws `Error creando usuario`.
   */
  lemma ResolveUserLookupFailure(s: Snapshot, clerkId: string, message: string, newId: string, insert: Reply)
    ensures var (t, r) := ResolveUser(s, clerkId, Failed(message), newId, insert);
            && (insert.Done? ==>
                  && r == Ok(newId)
                  && |UsersWithClerkId(t.users, clerkId)| == |UsersWithClerkId(s.users, clerkId)| + 1)
            && (insert.Failed? ==> t == s && r == Err("Error creando usuario: " + insert.message))
  {
    FilterAppendOne(s.users, PlaceholderUser(newId, clerkId), clerkId);
  }

  /** What the backend answers to the two calls `logActivity` makes, and the time it records. */
  datatype LogEnv = LogEnv(userLookup: Reply, newUserId: string, userInsert: Reply, activityInsert: Reply, now: string)

  /** logActivity: resolve the actor, then insert the activity; every error is swallowed. */
  function LogState(s: Snapshot, clerkId: string, action: string, env: LogEnv): Snapshot
  {
    var (s1, r) := ResolveUser(s, clerkId, env.userLookup, env.newUserId, env.userInsert);
    if r.Ok? && env.activityInsert.Done?
    then s1.(activities := s1.activities + [Activity(r.value, action, env.now)])
    else s1
  }

  /** Logging touches only `users` and `activities`, and appends at most one activity. */
  lemma LogStateFrame(s: Snapshot, clerkId: string, action: string, env: LogEnv)
    ensures var t := LogState(s, clerkId, action, env);
            t == s.(users := t.users, activities := t.activities)
            && (t.activities == s.activities
                || (exists uid :: t.activities == s.activities + [Activity(uid, action, env.now)]))
  {
    ResolvedUserExists(s, clerkId, env.userLookup, env.newUserId, env.userInsert);
  }

  method GetUserIdFromClerk(db: Database, clerkId: string, lookup: Reply, newId: string, insert: Reply)
    returns (r: Result<string>)
    modifies db
    ensures (db.State(), r) == ResolveUser(old(db.State()), clerkId, lookup, newId, insert)
  {
    var found := UsersWithClerkId(db.users, clerkId);
    if lookup.Done? && |found| == 1 {
      return Ok(found[0].id);
    }
    if insert.Failed? {
      return Err("Error creando usuario: " + insert.message);
    }
    db.users := db.users + [PlaceholderUser(newId, clerkId)];
    r := Ok(newId);
  }

  method LogActivity(db: Database, clerkId: string, action: string, env: LogEnv)
    modifies db
    ensures db.State() == LogState(old(db.State()), clerkId, action, env)
  {
    var userId := GetUserIdFromClerk(db, clerkId, env.userLookup, env.newUserId, env.userInsert);
    if userId.Ok? && env.activityInsert.Done? {
      db.activities := db.activities + [Activity(userId.value, action, env.now)];
    }
  }

  // ------------------------------------------------------------------
  // createDocument

  datatype NewDocument = NewDocument(
    ownerClerkId: string,
    title: string,
    filename: string,
    storagePath: Option<string>,
    fileSize: Option<int>,
    mimeType: Option<string>,
    pageCount: Option<int>)

  /** The row createDocument inserts: status `'uploaded'`, page count 1 unless given. */
  function InsertedDocument(data: NewDocument, id: string, ownerId: string, now: string): Document
  {
    Document(id, Some(ownerId), data.title, data.filename, data.storagePath, data.fileSize,
             data.mimeType, Some(StatusUploaded), Some(OrElse(data.pageCount, 1)), now, now,
             None, None, None, None)
  }

  /** The backend's answers and generated values for one createDocument call. */
  datatype CreateEnv = CreateEnv(userLookup: Reply, newUserId: string, userInsert: Reply, newDocId: string,
                                 now: string, insert: Reply, log: LogEnv)

  function CreateDocumentState(s: Snapshot, data: NewDocument, env: CreateEnv): (Snapshot, Result<Document>)
  {
    var (s1, owner) := ResolveUser(s, data.ownerClerkId, env.userLookup, env.newUserId, env.userInsert);
    if owner.Err? then (s1, Err(owner.error))
    else if env.insert.Failed? then (s1, Err("Error creando documento: " + env.insert.message))
    else
      var d := InsertedDocument(data, env.newDocId, owner.value, env.now);
      (LogState(s1.(documents := s1.documents + [d]), data.ownerClerkId, "document_uploaded", env.log), Ok(d))
  }

  /**
   * A created document is appended with status `'uploaded'` and the page
   * count defaulted to 1, owned by the resolved user; when the activity insert
   * succeeds and the identity was not duplicated by a failed lookup, a
   * `document_uploaded` activity by that same user is the last activity. A
   * failure adds no document.
   */
  lemma CreateDocumentUploads(s: Snapshot, data: NewDocument, env: CreateEnv)
    requires |UsersWithClerkId(s.users, data.ownerClerkId)| <= 1
    ensures var (t, r) := CreateDocumentState(s, data, env);
            (r.Ok? ==>
               r.value.status == Some(StatusUploaded)
               && r.value.pageCount == Some(OrElse(data.pageCount, 1))
               && t.documents == s.documents + [r.value]
               && (env.log.activityInsert.Done? && env.log.userLookup.Done?
                   && (env.userLookup.Done? || |UsersWithClerkId(s.users, data.ownerClerkId)| == 0) ==>
                     t.activities == s.activities + [Activity(r.value.ownerId.value, "document_uploaded", env.log.now)]))
            && (r.Err? ==> t.documents == s.documents && t.activities == s.activities)
  {
    var (s1, owner) := ResolveUser(s, data.ownerClerkId, env.userLookup, env.newUserId, env.userInsert);
    ResolvedUserExists(s, data.ownerClerkId, env.userLookup, env.newUserId, env.userInsert);
    if owner.Ok? && env.insert.Done? && env.log.userLookup.Done?
       && (env.userLookup.Done? || |UsersWithClerkId(s.users, data.ownerClerkId)| == 0) {
      var d := InsertedDocument(data, env.newDocId, owner.value, env.now);
      var s2 := s1.(documents := s1.documents + [d]);
      ResolveUserStable(s, data.ownerClerkId, env.userLookup, env.newUserId, env.userInsert,
                        env.log.newUserId, env.log.userInsert);
      assert ResolveUser(s2, data.ownerClerkId, env.log.userLookup, env.log.newUserId, env.log.userInsert) == (s2, owner);
    }
  }

  method CreateDocument(db: Database, data: NewDocument, env: CreateEnv) returns (r: Result<Document>)
    modifies db
    ensures (db.State(), r) == CreateDocumentState(old(db.State()), data, env)
  {
    var owner := GetUserIdFromClerk(db, data.ownerClerkId, env.userLookup, env.newUserId, env.userInsert);
    if owner.Err? {
      return Err(owner.error);
    }
    if env.insert.Failed? {
      return Err("Error creando documento: " + env.insert.message);
    }
    var d := InsertedDocument(data, env.newDocId, owner.value, env.now);
    db.documents := db.documents + [d];
    LogActivity(db, data.ownerClerkId, "document_uploaded", env.log);
    r := Ok(d);
  }

  // ------------------------------------------------------------------
  // updateDocumentStatus and saveOcrResult

  /** The documents table after `update({status}).eq('id', id)`. */
  function SetStatus(docs: seq<Document>, id: string, status: DocumentStatus): (r: seq<Document>)
    ensures |r| == |docs|
    ensures forall i | 0 <= i < |r| ::
              && r[i].id == docs[i].id
              && (docs[i].id == id ==> r[i].status == Some(status.Name()))
              && (docs[i].id != id ==> r[i] == docs[i])
  {
    seq(|docs|, i requires 0 <= i < |docs| =>
      if docs[i].id == id then docs[i].(status := Some(status.Name())) else docs[i])
  }

  function UpdateStatusState(s: Snapshot, id: string, status: DocumentStatus, reply: Reply): (Snapshot, Reply)
  {
    if reply.Failed? then (s, Failed("Error actualizando documento: " + reply.message))
    else (s.(documents := SetStatus(s.documents, id, status)), Done)
  }

  /**
   * A status update changes exactly the status of the rows with that id and
   * nothing else; a failed update changes nothing.
   */
  lemma UpdateStatusEffect(s: Snapshot, id: string, status: DocumentStatus, reply: Reply)
    ensures var (t, r) := UpdateStatusState(s, id, status, reply);
            (r.Done? <==> reply.Done?)
            && t == s.(documents := t.documents) && |t.documents| == |s.documents|
            && forall i | 0 <= i < |s.documents| ::
                 t.documents[i] == if reply.Done? && s.documents[i].id == id
                                   then s.documents[i].(status := Some(status.Name()))
                                   else s.documents[i]
  {
  }

  method UpdateDocumentStatus(db: Database, id: string, status: DocumentStatus, reply: Reply)
    returns (r: Reply)
    modifies db
    ensures (db.State(), r) == UpdateStatusState(old(db.State()), id, status, reply)
  {
    if reply.Failed? {
      return Failed("Error actualizando documento: " + reply.message);
    }
    db.documents := SetStatus(db.documents, id, status);
    r := Done;
  }

  datatype OcrInput = OcrInput(
    documentId: string,
    pageNumber: int,
    textContent: string,
    confidence: Option<int>,
    language: Option<string>)

  function OcrRow(ocr: OcrInput): OcrResult
  {
    OcrResult(ocr.documentId, ocr.pageNumber, ocr.textContent, ocr.confidence, OrElse(ocr.language, "es"))
  }

  function SaveOcrState(s: Snapshot, ocr: OcrInput, insert: Reply, update: Reply): (Snapshot, Reply)
  {
    if insert.Failed? then (s, Failed("Error guardando OCR: " + insert.message))
    else UpdateStatusState(s.(ocrResults := s.ocrResults + [OcrRow(ocr)]), ocr.documentId, Processed, update)
  }

  /**
   * The status lifecycle: a saved OCR result (language defaulting to `'es'`)
   * moves its document from any status to `'processed'`; a failed insert
   * throws before the status changes, and nothing is written.
   */
  lemma SaveOcrMarksProcessed(s: Snapshot, ocr: OcrInput, insert: Reply, update: Reply)
    ensures var (t, r) := SaveOcrState(s, ocr, insert, update);
            (insert.Failed? ==> t == s && r.Failed?)
            && (insert.Done? ==> t.ocrResults == s.ocrResults + [OcrRow(ocr)]
                                  && t.ocrResults[|s.ocrResults|].language == OrElse(ocr.language, "es"))
            && (r.Done? ==> forall i | 0 <= i < |t.documents| && t.documents[i].id == ocr.documentId ::
                              t.documents[i].status == Some(StatusProcessed))
  {
  }

  /** A freshly created document is `'uploaded'` and becomes `'processed'` once its OCR result is saved. */
  lemma CreatedThenProcessed(s: Snapshot, data: NewDocument, env: CreateEnv,
                             ocr: OcrInput, insert: Reply, update: Reply)
    requires |UsersWithClerkId(s.users, data.ownerClerkId)| <= 1
    requires CreateDocumentState(s, data, env).1.Ok?
    requires ocr.documentId == env.newDocId
    requires SaveOcrState(CreateDocumentState(s, data, env).0, ocr, insert, update).1.Done?
    ensures var t := CreateDocumentState(s, data, env).0;
            var u := SaveOcrState(t, ocr, insert, update).0;
            t.documents[|t.documents| - 1].status == Some(StatusUploaded)
            && u.documents[|t.documents| - 1].status == Some(StatusProcessed)
  {
    CreateDocumentUploads(s, data, env);
    SaveOcrMarksProcessed(CreateDocumentState(s, data, env).0, ocr, insert, update);
  }

  method SaveOcrResult(db: Database, ocr: OcrInput, insert: Reply, update: Reply) returns (r: Reply)
    modifies db
    ensures (db.State(), r) == SaveOcrState(old(db.State()), ocr, insert, update)
  {
    if insert.Failed? {
      return Failed("Error guardando OCR: " + insert.message);
    }
    db.ocrResults := db.ocrResults + [OcrRow(ocr)];
    r := UpdateDocumentStatus(db, ocr.documentId, Processed, update);
  }

  // ------------------------------------------------------------------
  // addDocumentTags

  /** The seventeen colours tags are drawn from. */
  const TagPalette: seq<string> := [
    "#EF4444", "#F97316", "#F59E0B", "#EAB308", "#84CC16", "#22C55E", "#10B981", "#14B8A6",
    "#06B6D4", "#0EA5E9", "#3B82F6", "#6366F1", "#8B5CF6", "#A855F7", "#D946EF", "#EC4899",
    "#F43F5E"]

  /** One row per tag, in order, each tag trimmed; `colors` are the random palette picks. */
  function TagRows(documentId: string, tags: seq<string>, colors: seq<string>): (rows: seq<DocumentTag>)
    requires |colors| == |tags|
    ensures |rows| == |tags|
    ensures forall i | 0 <= i < |rows| :: rows[i].documentId == documentId && rows[i].tag == Trim(tags[i])
  {
    seq(|tags|, i requires 0 <= i < |tags| => DocumentTag(documentId, Trim(tags[i]), colors[i]))
  }

  function AddTagsState(s: Snapshot, documentId: string, tags: seq<string>, colors: seq<string>, insert: Reply)
    : (Snapshot, Reply)
    requires |colors| == |tags|
  {
    if insert.Failed? then (s, Failed("Error agregando etiquetas: " + insert.message))
    else (s.(documentTags := s.documentTags + TagRows(documentId, tags, colors)), Done)
  }

  /**
   * addDocumentTags inserts all rows or none: one row per tag, for that
   * document, with the tag trimmed and the colour picked for it, which is
   * one of the palette's.
   */
  lemma AddTagsOneRowPerTag(s: Snapshot, documentId: string, tags: seq<string>, colors: seq<string>, insert: Reply)
    requires |colors| == |tags|
    requires forall i | 0 <= i < |colors| :: colors[i] in TagPalette
    ensures var (t, r) := AddTagsState(s, documentId, tags, colors, insert);
            t == s.(documentTags := t.documentTags)
            && (r.Failed? ==> t == s)
            && (r.Done? ==>
                  && |t.documentTags| == |s.documentTags| + |tags|
                  && t.documentTags[..|s.documentTags|] == s.documentTags
                  && (forall i | 0 <= i < |tags| ::
                        var row := t.documentTags[|s.documentTags| + i];
                        row.documentId == documentId && row.tag == Trim(tags[i])
                        && row.color == colors[i] && row.color in TagPalette))
  {
  }

  method AddDocumentTags(db: Database, documentId: string, tags: seq<string>, colors: seq<string>, insert: Reply)
    returns (r: Reply)
    requires |colors| == |tags|
    modifies db
    ensures (db.State(), r) == AddTagsState(old(db.State()), documentId, tags, colors, insert)
  {
    if insert.Failed? {
      return Failed("Error agregando etiquetas: " + insert.message);
    }
    db.documentTags := db.documentTags + TagRows(documentId, tags, colors);
    r := Done;
  }

  // ------------------------------------------------------------------
  // getDashboardStats

  datatype RecentActivity = RecentActivity(action: string, createdAt: string, userName: string)

  datatype DashboardStats = DashboardStats(
    totalDocuments: nat,
    totalUsers: nat,
    totalOcrPages: nat,
    totalActivities: nat,
    documentsByStatus: Counts,
    recentActivities: seq<RecentActivity>)

  const EmptyDashboard := DashboardStats(0, 0, 0, 0, [], [])

  /** An activity row as the dashboard query returns it: joined with its user. */
  function Recent(a: Activity, user: Option<User>): RecentActivity
  {
    RecentActivity(a.action, a.createdAt,
      if user.Some? then TemplateText(user.value.firstName) + " " + TemplateText(user.value.lastName) else "Usuario")
  }

  function Statuses(docs: seq<Document>): (r: seq<Option<string>>)
    ensures |r| == |docs| && forall i | 0 <= i < |docs| :: r[i] == docs[i].status
  {
    seq(|docs|, i requires 0 <= i < |docs| => docs[i].status)
  }

  lemma StatusesPrefix(docs: seq<Document>, i: nat)
    requires i < |docs|
    ensures Statuses(docs[..i + 1]) == Statuses(docs[..i]) + [docs[i].status]
  {
  }

  /**
   * getDashboardStats over the answers of its three queries: `ownerId` is the
   * internal id resolved for the caller (if any), `documents` the documents
   * query (an error there is thrown and caught, giving all zeros), `userCount`
   * the number of user rows (`None` when that query failed) and `activities`
   * the last 50 activities with their users (`None` when that query failed).
   */
  method GetDashboardStats(ownerId: Option<string>, documents: Result<seq<Document>>,
                           userCount: Option<nat>, activities: Option<seq<(Activity, Option<User>)>>)
    returns (stats: DashboardStats)
    ensures documents.Err? ==> stats == EmptyDashboard
    ensures documents.Ok? ==>
      && stats.totalDocuments == |documents.value|
      && stats.totalUsers == (if Truthy(ownerId) then 1 else OrElse(userCount, 0))
      && stats.totalOcrPages == 0
      && stats.documentsByStatus == StatusTally(Statuses(documents.value))
      && stats.totalActivities == (if activities.Some? then |activities.value| else 0)
      && stats.recentActivities
         == (if activities.None? then []
             else seq(|activities.value|, i requires 0 <= i < |activities.value| =>
                        Recent(activities.value[i].0, activities.value[i].1)))
  {
    if documents.Err? {
      return EmptyDashboard;
    }
    var docs := documents.value;
    var byStatus: Counts := [];
    var i := 0;
    while i < |docs|
      invariant 0 <= i <= |docs|
      invariant byStatus == StatusTally(Statuses(docs[..i]))
    {
      StatusesPrefix(docs, i);
      byStatus := Bump(byStatus, StatusKey(docs[i].status));
      i := i + 1;
    }
    assert docs[..i] == docs;
    var recent: seq<RecentActivity> := [];
    if activities.Some? {
      recent := seq(|activities.value|, j requires 0 <= j < |activities.value| =>
                      Recent(activities.value[j].0, activities.value[j].1));
    }
    stats := DashboardStats(|docs|, if Truthy(ownerId) then 1 else OrElse(userCount, 0), 0,
                            if activities.Some? then |activities.value| else 0, byStatus, recent);
  }

  /** The dashboard's status counts sum to its document total. */
  lemma DashboardStatusesSumToTotal(docs: seq<Document>)
    ensures Total(StatusTally(Statuses(docs))) == |docs|
  {
    StatusTallyTotal(Statuses(docs));
  }

  // ------------------------------------------------------------------
  // getActivityChartData: daily buckets

  datatype DayCount = DayCount(date: string, documents: nat, activities: nat)

  /** `createdAt?.split('T')[0]`: the calendar-date part of an ISO timestamp. */
  function DateKey(createdAt: string): string
  {
    Split(createdAt, 'T')[0]
  }

  /** How many of the timestamps fall on `day` (the empty day is never counted). */
  function OnDay(stamps: seq<string>, day: string): nat
  {
    if stamps == [] then 0
    else OnDay(stamps[..|stamps| - 1], day)
         + (if day != "" && DateKey(stamps[|stamps| - 1]) == day then 1 else 0)
  }

  function Dates(buckets: seq<DayCount>): (r: seq<string>)
    ensures |r| == |buckets| && forall i | 0 <= i < |buckets| :: r[i] == buckets[i].date
  {
    seq(|buckets|, i requires 0 <= i < |buckets| => buckets[i].date)
  }

  /** The bucket holding `day`, if any. */
  function FindDay(buckets: seq<DayCount>, day: string): (r: Option<nat>)
    ensures r.Some? ==> r.value < |buckets| && buckets[r.value].date == day
    ensures r.None? ==> forall i | 0 <= i < |buckets| :: buckets[i].date != day
  {
    if buckets == [] then None
    else if buckets[|buckets| - 1].date == day then Some(|buckets| - 1)
    else FindDay(buckets[..|buckets| - 1], day)
  }

  predicate SortedByDate(xs: seq<DayCount>)
  {
    forall i, j | 0 <= i < j < |xs| :: !LexLess(xs[j].date, xs[i].date)
  }

  function InsertByDate(x: DayCount, xs: seq<DayCount>): (r: seq<DayCount>)
    requires SortedByDate(xs)
    ensures SortedByDate(r)
    ensures multiset(r) == multiset(xs) + multiset{x}
  {
    if xs == [] then [x]
    else if !LexLess(xs[0].date, x.date) then
      assert forall j | 0 <= j < |xs| :: !LexLess(xs[j].date, x.date) by {
        forall j | 0 <= j < |xs| ensures !LexLess(xs[j].date, x.date) {
          if LexLess(xs[j].date, x.date) {
            LexLessTotal(xs[0].date, xs[j].date);
            if LexLess(xs[0].date, xs[j].date) { LexLessTransitive(xs[0].date, xs[j].date, x.date); }
          }
        }
      }
      [x] + xs
    else
      var rest := InsertByDate(x, xs[1..]);
      assert xs == [xs[0]] + xs[1..];
      assert forall j | 0 <= j < |rest| :: !LexLess(rest[j].date, xs[0].date) by {
        forall j | 0 <= j < |rest| ensures !LexLess(rest[j].date, xs[0].date) {
          assert rest[j] in multiset(xs[1..]) + multiset{x};
          if rest[j] == x {
            LexLessTotal(xs[0].date, x.date);
            if LexLess(x.date, xs[0].date) { LexLessIrreflexive(x.date); LexLessTransitive(x.date, xs[0].date, x.date); }
          } else {
            assert rest[j] in xs[1..];
          }
        }
      }
      [xs[0]] + rest
  }

  /** `.sort((a, b) => a.date.localeCompare(b.date))`, ISO dates comparing as plain strings. */
  function SortByDate(xs: seq<DayCount>): (r: seq<DayCount>)
    ensures SortedByDate(r)
    ensures multiset(r) == multiset(xs)
  {
    if xs == [] then []
    else
      assert xs == [xs[0]] + xs[1..];
      InsertByDate(xs[0], SortByDate(xs[1..]))
  }

  /** One bucket per day of `days`, counting the documents and activities stamped that day. */
  function Buckets(days: seq<string>, documentStamps: seq<string>, activityStamps: seq<string>)
    : (r: seq<DayCount>)
    ensures |r| == |days| && Dates(r) == days
  {
    seq(|days|, i requires 0 <= i < |days| =>
      DayCount(days[i], OnDay(documentStamps, days[i]), OnDay(activityStamps, days[i])))
  }

  /**
   * The daily series: one bucket per distinct day among `dayKeys` (the last
   * `days` dates the clock produces), counting the documents and activities
   * created that day, sorted by date.
   */
  function DailySeries(dayKeys: seq<string>, activityStamps: seq<string>, documentStamps: seq<string>)
    : seq<DayCount>
  {
    SortByDate(Buckets(Dedupe(dayKeys), documentStamps, activityStamps))
  }

  /**
   * The daily series holds exactly one bucket per requested day, none for any
   * other date, in ascending order, each counting the records of its day.
   */
  lemma DailySeriesBuckets(dayKeys: seq<string>, activityStamps: seq<string>, documentStamps: seq<string>)
    ensures var d := DailySeries(dayKeys, activityStamps, documentStamps);
            && SortedByDate(d)
            && |d| == |Dedupe(dayKeys)|
            && (forall i | 0 <= i < |d| ::
                  d[i].date in dayKeys
                  && d[i].documents == OnDay(documentStamps, d[i].date)
                  && d[i].activities == OnDay(activityStamps, d[i].date))
            && (forall k | k in dayKeys :: exists i :: 0 <= i < |d| && d[i].date == k)
  {
    var days := Dedupe(dayKeys);
    var b := Buckets(days, documentStamps, activityStamps);
    var d := SortByDate(b);
    assert |d| == |b| by {
      calc {
        |d|;
        |multiset(d)|;
        |multiset(b)|;
        |b|;
      }
    }
    forall i | 0 <= i < |d|
      ensures d[i].date in dayKeys
      ensures d[i].documents == OnDay(documentStamps, d[i].date)
      ensures d[i].activities == OnDay(activityStamps, d[i].date)
    {
      assert d[i] in multiset(b);
      var j :| 0 <= j < |b| && b[j] == d[i];
      assert days[j] in days;
    }
    forall k | k in dayKeys ensures exists i :: 0 <= i < |d| && d[i].date == k {
      var j :| 0 <= j < |days| && days[j] == k;
      assert b[j] in multiset(d);
      var i :| 0 <= i < |d| && d[i] == b[j];
    }
  }

  /** A record dated outside a day leaves that day's count unchanged. */
  lemma OtherDaysIgnored(stamps: seq<string>, extra: string, day: string)
    requires DateKey(extra) != day
    ensures OnDay(stamps + [extra], day) == OnDay(stamps, day)
  {
    assert (stamps + [extra])[..|stamps|] == stamps;
  }

  /** Adds one record's day to the matching bucket, as `dailyData[date].field++` does. */
  function CountInto(buckets: seq<DayCount>, stamp: string, activities: bool): (r: seq<DayCount>)
    ensures Dates(r) == Dates(buckets)
  {
    var day := DateKey(stamp);
    var p := FindDay(buckets, day);
    if day == "" || p.None? then buckets
    else if activities then buckets[p.value := buckets[p.value].(activities := buckets[p.value].activities + 1)]
    else buckets[p.value := buckets[p.value].(documents := buckets[p.value].documents + 1)]
  }

  lemma OnDayStep(stamps: seq<string>, stamp: string, day: string)
    ensures OnDay(stamps + [stamp], day)
            == OnDay(stamps, day) + (if day != "" && DateKey(stamp) == day then 1 else 0)
  {
    assert (stamps + [stamp])[..|stamps|] == stamps;
  }

  /** Counting the next activity updates exactly the bucket of its day. */
  lemma CountActivityStep(days: seq<string>, ds: seq<string>, acts: seq<string>, j: nat)
    requires NoDuplicates(days) && j < |acts|
    ensures CountInto(Buckets(days, ds, acts[..j]), acts[j], true) == Buckets(days, ds, acts[..j + 1])
  {
    var stamp := acts[j];
    assert acts[..j + 1] == acts[..j] + [stamp];
    var r := CountInto(Buckets(days, ds, acts[..j]), stamp, true);
    var e := Buckets(days, ds, acts[..j + 1]);
    forall i | 0 <= i < |days| ensures r[i] == e[i] {
      OnDayStep(acts[..j], stamp, days[i]);
    }
  }

  /** Counting the next document updates exactly the bucket of its day. */
  lemma CountDocumentStep(days: seq<string>, ds: seq<string>, acts: seq<string>, j: nat)
    requires NoDuplicates(days) && j < |ds|
    ensures CountInto(Buckets(days, ds[..j], acts), ds[j], false) == Buckets(days, ds[..j + 1], acts)
  {
    var stamp := ds[j];
    assert ds[..j + 1] == ds[..j] + [stamp];
    var r := CountInto(Buckets(days, ds[..j], acts), stamp, false);
    var e := Buckets(days, ds[..j + 1], acts);
    forall i | 0 <= i < |days| ensures r[i] == e[i] {
      OnDayStep(ds[..j], stamp, days[i]);
    }
  }

  /** Opening the buckets one day key at a time yields one empty bucket per distinct day. */
  lemma OpenDayStep(keys: seq<string>, i: nat)
    requires i < |keys|
    ensures var b := Buckets(Dedupe(keys[..i]), [], []);
            Buckets(Dedupe(keys[..i + 1]), [], [])
            == if FindDay(b, keys[i]).None? then b + [DayCount(keys[i], 0, 0)] else b
  {
    assert keys[..i + 1][..i] == keys[..i];
    var b := Buckets(Dedupe(keys[..i]), [], []);
    if FindDay(b, keys[i]).None? {
      assert keys[i] !in Dedupe(keys[..i]);
    } else {
      assert keys[i] in Dedupe(keys[..i]);
    }
  }

  method DailyActivity(dayKeys: seq<string>, activityStamps: seq<string>, documentStamps: seq<string>)
    returns (daily: seq<DayCount>)
    ensures daily == DailySeries(dayKeys, activityStamps, documentStamps)
  {
    var buckets: seq<DayCount> := [];
    var i := 0;
    while i < |dayKeys|
      invariant 0 <= i <= |dayKeys|
      invariant buckets == Buckets(Dedupe(dayKeys[..i]), [], [])
    {
      OpenDayStep(dayKeys, i);
      if FindDay(buckets, dayKeys[i]).None? {
        buckets := buckets + [DayCount(dayKeys[i], 0, 0)];
      }
      i := i + 1;
    }
    assert dayKeys[..i] == dayKeys;
    var days := Dedupe(dayKeys);
    var j := 0;
    while j < |activityStamps|
      invariant 0 <= j <= |activityStamps|
      invariant buckets == Buckets(days, [], activityStamps[..j])
    {
      CountActivityStep(days, [], activityStamps, j);
      buckets := CountInto(buckets, activityStamps[j], true);
      j := j + 1;
    }
    assert activityStamps[..j] == activityStamps;
    j := 0;
    while j < |documentStamps|
      invariant 0 <= j <= |documentStamps|
      invariant buckets == Buckets(days, documentStamps[..j], activityStamps)
    {
      CountDocumentStep(days, documentStamps, activityStamps, j);
      buckets := CountInto(buckets, documentStamps[j], false);
      j := j + 1;
    }
    assert documentStamps[..j] == documentStamps;
    daily := SortByDate(buckets);
  }

  // ------------------------------------------------------------------
  // getActivityChartData: hourly buckets

  /** A value of `Date.prototype.getHours` for a valid date. */
  type Hour = h: int | 0 <= h < 24

  /**
   * An entry of the hourly series. `hour` is `None` for the entry keyed
   * `"NaN"`, which `parseInt` turns back into `NaN`.
   */
  datatype HourCount = HourCount(hour: Option<Hour>, count: nat)

  /**
   * An activity as the chart sees it: its `created_at` and the local hour of
   * that instant, `None` when `new Date(created_at)` is an invalid date and
   * `getHours()` gives `NaN`.
   */
  datatype StampedActivity = StampedActivity(createdAt: string, hour: Option<Hour>)

  /** How many activities with a `created_at` fall in hour `h` (`None`: an invalid date). */
  function InHour(acts: seq<StampedActivity>, h: Option<Hour>): nat
  {
    if acts == [] then 0
    else InHour(acts[..|acts| - 1], h)
         + (if acts[|acts| - 1].createdAt != "" && acts[|acts| - 1].hour == h then 1 else 0)
  }

  /** How many activities have a `created_at`. */
  function Stamped(acts: seq<StampedActivity>): nat
  {
    if acts == [] then 0
    else Stamped(acts[..|acts| - 1]) + (if acts[|acts| - 1].createdAt != "" then 1 else 0)
  }

  function SumCounts(xs: seq<HourCount>): nat
  {
    if xs == [] then 0 else SumCounts(xs[..|xs| - 1]) + xs[|xs| - 1].count
  }

  lemma {:induction false} SumCountsBump(xs: seq<HourCount>, p: nat)
    requires p < |xs|
    ensures SumCounts(xs[p := xs[p].(count := xs[p].count + 1)]) == SumCounts(xs) + 1
  {
    var ys := xs[p := xs[p].(count := xs[p].count + 1)];
    if p < |xs| - 1 {
      assert ys[..|ys| - 1] == xs[..|xs| - 1][p := xs[p].(count := xs[p].count + 1)];
      SumCountsBump(xs[..|xs| - 1], p);
    } else {
      assert ys[..|ys| - 1] == xs[..|xs| - 1];
    }
  }

  /**
   * The hourly series: 24 buckets, bucket `h` for hour `h`, counting the
   * activities with a `created_at` in that hour, followed by a `NaN` bucket
   * exactly when some `created_at` is not a valid date; the counts sum to the
   * number of activities with a `created_at`.
   */
  method HourlyActivity(acts: seq<StampedActivity>) returns (hourly: seq<HourCount>)
    ensures |hourly| == if InHour(acts, None) > 0 then 25 else 24
    ensures forall h: Hour :: hourly[h] == HourCount(Some(h), InHour(acts, Some(h)))
    ensures InHour(acts, None) > 0 ==> hourly[24] == HourCount(None, InHour(acts, None))
    ensures SumCounts(hourly) == Stamped(acts)
  {
    hourly := [];
    var h := 0;
    while h < 24
      invariant 0 <= h <= 24 && |hourly| == h
      invariant forall k | 0 <= k < h :: hourly[k] == HourCount(Some(k), 0)
      invariant SumCounts(hourly) == 0
    {
      assert (hourly + [HourCount(Some(h), 0)])[..h] == hourly;
      hourly := hourly + [HourCount(Some(h), 0)];
      h := h + 1;
    }
    var invalid := 0;
    var i := 0;
    while i < |acts|
      invariant 0 <= i <= |acts| && |hourly| == 24
      invariant forall k: Hour :: hourly[k] == HourCount(Some(k), InHour(acts[..i], Some(k)))
      invariant invalid == InHour(acts[..i], None)
      invariant SumCounts(hourly) + invalid == Stamped(acts[..i])
    {
      assert acts[..i + 1][..i] == acts[..i];
      if acts[i].createdAt != "" {
        if acts[i].hour.Some? {
          var k := acts[i].hour.value;
          SumCountsBump(hourly, k);
          hourly := hourly[k := hourly[k].(count := hourly[k].count + 1)];
        } else {
          invalid := invalid + 1;
        }
      }
      i := i + 1;
    }
    assert acts[..i] == acts;
    if invalid > 0 {
      assert (hourly + [HourCount(None, invalid)])[..24] == hourly;
      hourly := hourly + [HourCount(None, invalid)];
    }
  }

  // ------------------------------------------------------------------
  // getActivityChartData: status distribution

  /** `Math.round(count / total * 100)` in exact arithmetic, 0 when there are no documents. */
  function RoundPercent(count: nat, total: nat): (p: nat)
    ensures total > 0 ==> 2 * total * p <= 200 * count + total < 2 * total * (p + 1)
    ensures total == 0 ==> p == 0
  {
    if total == 0 then 0 else (200 * count + total) / (2 * total)
  }

  /** A share of at most the whole is at most 100 percent, and the whole is exactly 100. */
  lemma RoundPercentBounds(count: nat, total: nat)
    requires count <= total
    ensures RoundPercent(count, total) <= 100
    ensures total > 0 && count == total ==> RoundPercent(count, total) == 100
  {
    if total > 0 {
      var p := RoundPercent(count, total);
      assert 2 * total * p <= 200 * total + total < 2 * total * 101;
      ProductBound(p, 101, 2 * total);
      if count == total {
        assert 2 * total * 100 < 2 * total * (p + 1);
        ProductBound(100, p + 1, 2 * total);
      }
    }
  }

  lemma ProductBound(a: int, b: int, c: int)
    requires c > 0 && c * a < c * b
    ensures a < b
  {
  }

  datatype StatusShare = StatusShare(status: string, count: nat, percentage: nat)

  function Shares(c: Counts, total: nat): (r: seq<StatusShare>)
    ensures |r| == |c|
  {
    seq(|c|, i requires 0 <= i < |c| => StatusShare(c[i].0, c[i].1, RoundPercent(c[i].1, total)))
  }

  /**
   * The status distribution: the status counter (a missing status counted as
   * `'uploaded'`), each entry with its rounded percentage of `totalDocs`.
   */
  method StatusDistribution(docs: seq<Document>) returns (dist: seq<StatusShare>, totalDocs: nat)
    ensures totalDocs == |docs|
    ensures dist == Shares(StatusTally(Statuses(docs)), totalDocs)
  {
    var counts: Counts := [];
    totalDocs := 0;
    var i := 0;
    while i < |docs|
      invariant 0 <= i <= |docs| && totalDocs == i
      invariant counts == StatusTally(Statuses(docs[..i]))
    {
      StatusesPrefix(docs, i);
      counts := Bump(counts, StatusKey(docs[i].status));
      totalDocs := totalDocs + 1;
      i := i + 1;
    }
    assert docs[..i] == docs;
    dist := Shares(counts, totalDocs);
  }

  /** The distribution's counts sum to `totalDocs`, and every percentage lies in 0..100. */
  lemma DistributionSumsToTotal(docs: seq<Document>)
    ensures var c := StatusTally(Statuses(docs));
            Total(c) == |docs|
            && forall i | 0 <= i < |c| :: Shares(c, |docs|)[i].percentage <= 100
  {
    var c := StatusTally(Statuses(docs));
    StatusTallyTotal(Statuses(docs));
    forall i | 0 <= i < |c| ensures Shares(c, |docs|)[i].percentage <= 100 {
      EntryAtMostTotal(c, i);
      RoundPercentBounds(c[i].1, |docs|);
    }
  }

  lemma {:induction false} EntryAtMostTotal(c: Counts, i: nat)
    requires i < |c|
    ensures c[i].1 <= Total(c)
  {
    if i > 0 {
      EntryAtMostTotal(c[1..], i - 1);
    }
  }

  datatype ChartData = ChartData(daily: seq<DayCount>, hourly: seq<HourCount>, statuses: seq<StatusShare>)

  /**
   * getActivityChartData over the answers of its two queries (`None` when a
   * query failed, which the source treats as no rows) and the dates of the
   * last `days` days.
   */
  method GetActivityChartData(dayKeys: seq<string>, activities: Option<seq<StampedActivity>>,
                              documents: Option<seq<Document>>)
    returns (chart: ChartData)
    ensures var acts := OrElse(activities, []);
            var docs := OrElse(documents, []);
            && chart.daily == DailySeries(dayKeys, seq(|acts|, i requires 0 <= i < |acts| => acts[i].createdAt),
                                          seq(|docs|, i requires 0 <= i < |docs| => docs[i].createdAt))
            && |chart.hourly| == (if InHour(acts, None) > 0 then 25 else 24)
            && (forall h: Hour :: chart.hourly[h] == HourCount(Some(h), InHour(acts, Some(h))))
            && chart.statuses == Shares(StatusTally(Statuses(docs)), |docs|)
  {
    var acts := OrElse(activities, []);
    var docs := OrElse(documents, []);
    var daily := DailyActivity(dayKeys, seq(|acts|, i requires 0 <= i < |acts| => acts[i].createdAt),
                               seq(|docs|, i requires 0 <= i < |docs| => docs[i].createdAt));
    var hourly := HourlyActivity(acts);
    var dist, _ := StatusDistribution(docs);
    chart := ChartData(daily, hourly, dist);
  }

  // ------------------------------------------------------------------
  // getDashboardStats and getActivityChartData over the tables

  /**
   * The owner filter both functions apply: the caller's internal id when an
   * identity was given and resolved; a failed resolution is caught and the
   * queries then run unfiltered.
   */
  function StatsOwner(s: Snapshot, clerkUserId: Option<string>, lookup: Reply, newId: string, insert: Reply)
    : (Snapshot, Option<string>)
  {
    if !Truthy(clerkUserId) then (s, None)
    else
      var (t, r) := ResolveUser(s, clerkUserId.value, lookup, newId, insert);
      (t, if r.Ok? then Some(r.value) else None)
  }

  /** Resolving the owner only ever adds the caller's user row, and a resolved owner exists. */
  lemma StatsOwnerResolves(s: Snapshot, clerkUserId: Option<string>, lookup: Reply, newId: string, insert: Reply)
    ensures var (t, ownerId) := StatsOwner(s, clerkUserId, lookup, newId, insert);
            && t == s.(users := t.users)
            && (!Truthy(clerkUserId) ==> t == s && ownerId.None?)
            && (ownerId.Some? ==> exists u :: u in t.users && u.id == ownerId.value
                                              && u.clerkUserId == clerkUserId.value)
  {
    if Truthy(clerkUserId) {
      ResolvedUserExists(s, clerkUserId.value, lookup, newId, insert);
    }
  }

  /** The documents `.eq('owner_id', ownerId)` keeps, the filter applied only when the owner is truthy. */
  function OwnedDocuments(docs: seq<Document>, ownerId: Option<string>): (r: seq<Document>)
    ensures forall d :: d in r <==> d in docs && (Truthy(ownerId) ==> d.ownerId == ownerId)
  {
    FilterIf(docs, Truthy(ownerId), (d: Document) => d.ownerId == ownerId)
  }

  /** An activity the dashboard query returns: its user row exists (`users!inner`) and, under an owner, it is the owner's. */
  predicate DashboardActivity(a: Activity, users: seq<User>, ownerId: Option<string>)
  {
    FindUser(users, Some(a.userId)).Some? && (Truthy(ownerId) ==> Some(a.userId) == ownerId)
  }

  /**
   * The dashboard's activities query over `activities`, which is taken to be
   * in the query's order (newest first): each returned activity is joined
   * with its user, at most fifty are returned, and when fewer than fifty are
   * returned every activity the query selects is among them.
   */
  function LatestActivities(acts: seq<Activity>, users: seq<User>, ownerId: Option<string>)
    : (r: seq<(Activity, Option<User>)>)
    ensures |r| <= 50
    ensures forall k | 0 <= k < |r| ::
              && r[k].0 in acts
              && DashboardActivity(r[k].0, users, ownerId)
              && r[k].1 == FindUser(users, Some(r[k].0.userId))
    ensures |r| < 50 ==>
              forall a | a in acts && DashboardActivity(a, users, ownerId) ::
                exists k :: 0 <= k < |r| && r[k].0 == a
  {
    JoinedActivitiesCover(acts, users, ownerId);
    Take(JoinedActivities(acts, users, ownerId), 50)
  }

  /** The activities the dashboard query selects, each paired with its user row, in table order. */
  function JoinedActivities(acts: seq<Activity>, users: seq<User>, ownerId: Option<string>)
    : seq<(Activity, Option<User>)>
  {
    var selected := Filter(acts, (a: Activity) => DashboardActivity(a, users, ownerId));
    seq(|selected|, i requires 0 <= i < |selected| => (selected[i], FindUser(users, Some(selected[i].userId))))
  }

  lemma JoinedActivitiesCover(acts: seq<Activity>, users: seq<User>, ownerId: Option<string>)
    ensures var r := Take(JoinedActivities(acts, users, ownerId), 50);
            && (forall k | 0 <= k < |r| ::
                  && r[k].0 in acts
                  && DashboardActivity(r[k].0, users, ownerId)
                  && r[k].1 == FindUser(users, Some(r[k].0.userId)))
            && (|r| < 50 ==>
                  forall a | a in acts && DashboardActivity(a, users, ownerId) ::
                    exists k :: 0 <= k < |r| && r[k].0 == a)
  {
    var selected := Filter(acts, (a: Activity) => DashboardActivity(a, users, ownerId));
    var joined := JoinedActivities(acts, users, ownerId);
    var r := Take(joined, 50);
    forall k | 0 <= k < |r|
      ensures r[k].0 in acts && DashboardActivity(r[k].0, users, ownerId)
      ensures r[k].1 == FindUser(users, Some(r[k].0.userId))
    {
      assert r[k] == joined[k] == (selected[k], FindUser(users, Some(selected[k].userId)));
      assert selected[k] in selected;
    }
    forall a | |r| < 50 && a in acts && DashboardActivity(a, users, ownerId)
      ensures exists k :: 0 <= k < |r| && r[k].0 == a
    {
      assert a in selected;
      var k :| 0 <= k < |selected| && selected[k] == a;
      assert r[k].0 == a;
    }
  }

  /** What the backend answers to the calls of one getDashboardStats. */
  datatype StatsEnv = StatsEnv(userLookup: Reply, newUserId: string, userInsert: Reply,
                               documents: Reply, users: Reply, activities: Reply)

  /**
   * getDashboardStats over the tables: the caller is resolved (which may add
   * their user row), then each query is answered from the tables unless the
   * backend fails it; a failed documents query gives all zeros.
   */
  method DashboardStatsOf(db: Database, clerkUserId: Option<string>, env: StatsEnv)
    returns (stats: DashboardStats)
    modifies db
    ensures var (t, ownerId) := StatsOwner(old(db.State()), clerkUserId, env.userLookup, env.newUserId, env.userInsert);
            var docs := OwnedDocuments(t.documents, ownerId);
            var acts := if env.activities.Failed? then [] else LatestActivities(t.activities, t.users, ownerId);
            && db.State() == t
            && (env.documents.Failed? ==> stats == EmptyDashboard)
            && (env.documents.Done? ==>
                  && stats.totalDocuments == |docs|
                  && stats.documentsByStatus == StatusTally(Statuses(docs))
                  && stats.totalUsers == (if Truthy(ownerId) then 1 else if env.users.Done? then |t.users| else 0)
                  && stats.totalOcrPages == 0
                  && stats.totalActivities == |acts|
                  && stats.recentActivities
                     == seq(|acts|, i requires 0 <= i < |acts| => Recent(acts[i].0, acts[i].1)))
  {
    var ownerId: Option<string> := None;
    if Truthy(clerkUserId) {
      var r := GetUserIdFromClerk(db, clerkUserId.value, env.userLookup, env.newUserId, env.userInsert);
      if r.Ok? {
        ownerId := Some(r.value);
      }
    }
    var documents := if env.documents.Failed? then Err(env.documents.message)
                     else Ok(OwnedDocuments(db.documents, ownerId));
    var userCount := if env.users.Failed? then None else Some(|db.users|);
    var activities := if env.activities.Failed? then None
                      else Some(LatestActivities(db.activities, db.users, ownerId));
    stats := GetDashboardStats(ownerId, documents, userCount, activities);
  }

  /** The chart's `.gte('created_at', startDate)` and owner filters on `activities`. */
  function ChartActivities(acts: seq<Activity>, ownerId: Option<string>, startDate: string): (r: seq<Activity>)
    ensures forall a :: a in r <==> a in acts && !LexLess(a.createdAt, startDate)
                                    && (Truthy(ownerId) ==> Some(a.userId) == ownerId)
  {
    Filter(acts, (a: Activity) => !LexLess(a.createdAt, startDate) && (Truthy(ownerId) ==> Some(a.userId) == ownerId))
  }

  /** The chart's `.gte('created_at', startDate)` and owner filters on `documents`. */
  function ChartDocuments(docs: seq<Document>, ownerId: Option<string>, startDate: string): (r: seq<Document>)
    ensures forall d :: d in r <==> d in docs && !LexLess(d.createdAt, startDate)
                                    && (Truthy(ownerId) ==> d.ownerId == ownerId)
  {
    Filter(docs, (d: Document) => !LexLess(d.createdAt, startDate) && (Truthy(ownerId) ==> d.ownerId == ownerId))
  }

  /** Each activity with the hour the runtime reads from its timestamp (`hourOf`). */
  function WithHours(acts: seq<Activity>, hourOf: string -> Option<Hour>): (r: seq<StampedActivity>)
    ensures |r| == |acts|
    ensures forall i | 0 <= i < |acts| :: r[i] == StampedActivity(acts[i].createdAt, hourOf(acts[i].createdAt))
  {
    seq(|acts|, i requires 0 <= i < |acts| => StampedActivity(acts[i].createdAt, hourOf(acts[i].createdAt)))
  }

  /** What the backend answers to the calls of one getActivityChartData. */
  datatype ChartEnv = ChartEnv(userLookup: Reply, newUserId: string, userInsert: Reply, activities: Reply, documents: Reply)

  /**
   * getActivityChartData over the tables: the caller is resolved, then the
   * activities and documents created on or after `startDate` (the date
   * `days` days before now, compared as text) are read, the owner's only
   * when one was resolved; a failed query counts as no rows.
   */
  method ActivityChartOf(db: Database, clerkUserId: Option<string>, startDate: string, dayKeys: seq<string>,
                         hourOf: string -> Option<Hour>, env: ChartEnv)
    returns (chart: ChartData)
    modifies db
    ensures var (t, ownerId) := StatsOwner(old(db.State()), clerkUserId, env.userLookup, env.newUserId, env.userInsert);
            var acts := if env.activities.Failed? then [] else WithHours(ChartActivities(t.activities, ownerId, startDate), hourOf);
            var docs := if env.documents.Failed? then [] else ChartDocuments(t.documents, ownerId, startDate);
            && db.State() == t
            && chart.daily == DailySeries(dayKeys, seq(|acts|, i requires 0 <= i < |acts| => acts[i].createdAt),
                                          seq(|docs|, i requires 0 <= i < |docs| => docs[i].createdAt))
            && |chart.hourly| == (if InHour(acts, None) > 0 then 25 else 24)
            && (forall h: Hour :: chart.hourly[h] == HourCount(Some(h), InHour(acts, Some(h))))
            && chart.statuses == Shares(StatusTally(Statuses(docs)), |docs|)
  {
    var ownerId: Option<string> := None;
    if Truthy(clerkUserId) {
      var r := GetUserIdFromClerk(db, clerkUserId.value, env.userLookup, env.newUserId, env.userInsert);
      if r.Ok? {
        ownerId := Some(r.value);
      }
    }
    var activities := if env.activities.Failed? then None
                      else Some(WithHours(ChartActivities(db.activities, ownerId, startDate), hourOf));
    var documents := if env.documents.Failed? then None
                     else Some(ChartDocuments(db.documents, ownerId, startDate));
    chart := GetActivityChartData(dayKeys, activities, documents);
  }
}
