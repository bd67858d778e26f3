/**
 * `createDocumentBypass` of `src/lib/database-bypass.ts`: find the owner by
 * identity or insert a temporary user, insert the document, then try to log
 * the upload, ignoring a failed activity insert.
 */
module DatabaseBypass {
  import opened Common
  import opened Tables
  import opened Store
  import opened Database

  /** The user inserted for an identity without a `users` row. */
  function TemporaryUser(id: string, clerkId: string): User
  {
    User(id, clerkId, clerkId + "@temp.com", Some("Usuario"), Some("Temporal"), "empleado")
  }

  /** The backend's answers and the generated values for one call. */
  datatype BypassEnv = BypassEnv(
    userLookup: Reply,
    newUserId: string,
    userInsert: Reply,
    newDocId: string,
    now: string,
    insert: Reply,
    activityInsert: Reply)

  /**
   * The owner lookup: the one user carrying the identity when the lookup
   * succeeds, or a new temporary user; the lookup's error is never read, so a
   * failed lookup counts as "not found".
   */
  function BypassOwner(s: Snapshot, clerkId: string, env: BypassEnv): (Snapshot, Result<string>)
  {
    var found := UsersWithClerkId(s.users, clerkId);
    if env.userLookup.Done? && |found| == 1 then (s, Ok(found[0].id))
    else if env.userInsert.Failed? then (s, Err("Error de usuario: Error creando usuario: " + env.userInsert.message))
    else (s.(users := s.users + [TemporaryUser(env.newUserId, clerkId)]), Ok(env.newUserId))
  }

  function BypassState(s: Snapshot, data: NewDocument, env: BypassEnv): (Snapshot, Result<Document>)
  {
    var (s1, owner) := BypassOwner(s, data.ownerClerkId, env);
    if owner.Err? then (s1, Err(owner.error))
    else if env.insert.Failed? then (s1, Err("Error creando documento: " + env.insert.message))
    else
      var d := InsertedDocument(data, env.newDocId, owner.value, env.now);
      var s2 := s1.(documents := s1.documents + [d]);
      if env.activityInsert.Done?
      then (s2.(activities := s2.activities + [Activity(owner.value, "document_uploaded", env.now)]), Ok(d))
      else (s2, Ok(d))
  }

  method CreateDocumentBypass(db: Store.Database, data: NewDocument, env: BypassEnv) returns (r: Result<Document>)
    modifies db
    ensures (db.State(), r) == BypassState(old(db.State()), data, env)
  {
    var ownerId: string;
    var found := UsersWithClerkId(db.users, data.ownerClerkId);
    if env.userLookup.Done? && |found| == 1 {
      ownerId := found[0].id;
    } else {
      if env.userInsert.Failed? {
        return Err("Error de usuario: Error creando usuario: " + env.userInsert.message);
      }
      db.users := db.users + [TemporaryUser(env.newUserId, data.ownerClerkId)];
      ownerId := env.newUserId;
    }
    if env.insert.Failed? {
      return Err("Error creando documento: " + env.insert.message);
    }
    var d := InsertedDocument(data, env.newDocId, ownerId, env.now);
    db.documents := db.documents + [d];
    if env.activityInsert.Done? {
      db.activities := db.activities + [Activity(ownerId, "document_uploaded", env.now)];
    }
    r := Ok(d);
  }

  /**
   * An identity carried by exactly one user, found by a successful lookup,
   * reuses that user's id and adds no user; otherwise (a failed lookup counts
   * as not found) a successful insert adds one more user carrying the
   * identity, with the email `<identity>@temp.com` and the role `empleado`,
   * and a failed one throws an error prefixed `Error de usuario:` and changes
   * nothing.
   */
  lemma BypassFindsOrCreatesOwner(s: Snapshot, data: NewDocument, env: BypassEnv)
    ensures var found := UsersWithClerkId(s.users, data.ownerClerkId);
            var hit := env.userLookup.Done? && |found| == 1;
            var (t, r) := BypassState(s, data, env);
            (hit ==> t.users == s.users && (r.Ok? ==> r.value.ownerId == Some(found[0].id)))
            && (!hit && env.userInsert.Done? ==>
                  t.users == s.users + [TemporaryUser(env.newUserId, data.ownerClerkId)]
                  && |UsersWithClerkId(t.users, data.ownerClerkId)| == |found| + 1
                  && t.users[|s.users|].email == data.ownerClerkId + "@temp.com"
                  && t.users[|s.users|].role == "empleado"
                  && (r.Ok? ==> r.value.ownerId == Some(env.newUserId)))
            && (!hit && env.userInsert.Failed? ==>
                  t == s && r == Err("Error de usuario: Error creando usuario: " + env.userInsert.message)
                  && IsPrefix("Error de usuario:", r.error))
  {
    var found := UsersWithClerkId(s.users, data.ownerClerkId);
    BypassStateOwner(s, data, env);
    FilterAppendOne(s.users, TemporaryUser(env.newUserId, data.ownerClerkId), data.ownerClerkId);
    if !(env.userLookup.Done? && |found| == 1) && env.userInsert.Failed? {
      var e := "Error de usuario: Error creando usuario: " + env.userInsert.message;
      assert e[..|"Error de usuario:"|] == "Error de usuario:";
    }
  }

  /** The document step keeps the users the owner step left, and records the owner it found. */
  lemma BypassStateOwner(s: Snapshot, data: NewDocument, env: BypassEnv)
    ensures var (s1, owner) := BypassOwner(s, data.ownerClerkId, env);
            var (t, r) := BypassState(s, data, env);
            && t.users == s1.users
            && (owner.Err? ==> t == s1 && r == Err(owner.error))
            && (r.Ok? ==> owner.Ok? && r.value.ownerId == Some(owner.value))
  {
  }

  /**
   * A created document is appended with status `'uploaded'` and the page
   * count defaulted to 1; a failed document insert adds no document.
   */
  lemma BypassInsertsUploaded(s: Snapshot, data: NewDocument, env: BypassEnv)
    ensures var (t, r) := BypassState(s, data, env);
            (r.Ok? ==> r.value.status == Some(StatusUploaded)
                       && r.value.pageCount == Some(OrElse(data.pageCount, 1))
                       && r.value.id == env.newDocId
                       && t.documents == s.documents + [r.value])
            && (r.Err? ==> t.documents == s.documents && t.activities == s.activities)
  {
  }

  /**
   * The activity insert does not decide the outcome: the result is the same
   * whatever it answers, and it only adds (or not) the one upload activity.
   */
  lemma BypassActivityFailureIgnored(s: Snapshot, data: NewDocument, env: BypassEnv)
    ensures var (t, r) := BypassState(s, data, env);
            var (t2, r2) := BypassState(s, data, env.(activityInsert := Done));
            r == r2
            && t == t2.(activities := t.activities)
            && (t.activities == s.activities
                || (r.Ok? && t.activities == s.activities + [Activity(r.value.ownerId.value, "document_uploaded", env.now)]))
  {
  }
}
