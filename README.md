# DocSafe document store: a Dafny model

This project models the core of DocSafe, a document-management web application whose server keeps its data in Supabase tables, authenticates callers with Clerk and stores file contents in Supabase Storage. The model covers six parts:

- **Tables and the data library.**
  - The `documents`, `document_folders`, `folder_documents`, `users`, `activities`, `ocr_results`, `document_tags` and `shared_documents` tables are modelled as one `Snapshot` value.
  - The library functions of `src/lib/database.ts`, `src/lib/database-bypass.ts` and `src/lib/admin-documents.ts` are modelled as pure transitions over it. These cover document creation, status and OCR updates, tags, activity logging, folders, bulk moves, administrative update and delete, listings and statistics.
  - Each transition also has a method on the `Store.Database` class that performs it in place.
  - The answer of each backend call (success or error message) is an input, so every error path is a branch of the model. This includes the user lookup by Clerk id, whose error the library never reads: a failed lookup is taken for "not found" and goes on to insert a user.
- **The HTTP endpoints.** The document listing, move and delete routes, the consultation listing, the mock search, the three create endpoints, the administration endpoints for documents, folders and moves, and the user-creation endpoint. Each takes the caller's identity as a parameter and is modelled with its status codes, messages and the state it leaves.
- **The query builder's semantics.** The query builder's filters (`eq`, `in`, `is null`, `ilike`, `gte`, `lt`/`lte`) and its `range` window are modelled over a table already in the requested order. This is what lets the paging properties be stated.
- **The storage helpers.** File validation, the generated storage path, the `fileExists` lookup and the choice between the S3 protocol and the plain storage API, with the progress reports of the S3 upload.
- **The client components.**
  - Components modelled: the document viewer, the administrator's document manager, the document consultation page, the grid of cards, the upload dialog and the metadata editor.
  - Each is modelled as a class whose fields are the component's React state, and as pure transition functions that specify those methods.
  - The server's answer to each request is an input.
- **JavaScript built-ins.** The built-ins the code relies on are written out explicitly: `trim`, `toLowerCase`, `split`/`join`, `filter`, `new Set`, `Math.ceil` of a division, `%` on negative numbers and string comparison with `<`.

Wherever the code behaves differently from what its comments or messages suggest, the model follows the code. The lemmas state these behaviours explicitly:

- the consultation month filter drops the 31st (compared as text; see "Left out" for months without a 31st);
- a bulk move whose unlink step fails leaves a document in two folders;
- an administrative delete leaves dangling junction rows;
- `'Sin carpeta'` in the statistics counts every document;
- the `'null'` folder choice in the components hides every unfiled document;
- the upload dialog accepts an empty file that the create endpoint refuses;
- the manager's metadata editor cannot clear a description or take a document out of its folder: a blank description and the empty folder choice are both left out of the request.

## Model

| member | source | states |
|---|---|---|
| Common.OrElse | src/app/api/documents/route.ts:51-59 | `x ?? default`: the value when present, the default otherwise |
| Common.TemplateText | src/lib/admin-documents.ts:130 | a missing value rendered in a template literal reads `null`, a present one as itself |
| Common.Filter | src/app/api/documents/search/route.ts:73-76 | `Array.prototype.filter`: an element is in the result exactly when it is in the input and satisfies the predicate, and the result is no longer than the input |
| Common.Dedupe | src/app/api/documents/route.ts:172-176 | `[...new Set(xs)]`: a value is in the result exactly when it is in the input, with no repetition and no growth |
| Common.DedupeFirstOccurrenceOrder | src/app/api/documents/route.ts:172-176 | a `Set` keeps insertion order: the values come out in the order of their first occurrence in the input |
| Common.Trim | src/app/api/admin/folders/route.ts:61 | `trim`: the result is no longer than the input and has no white space at either end |
| Common.TrimIsSlice | src/app/api/admin/folders/route.ts:61 | the trimmed text is the input with only white space removed at the front and at the back: a contiguous slice whose cut-off ends are all white space |
| Common.TrimEmptyIffAllWhite | src/app/api/admin/folders/route.ts:61 | `!s.trim()` holds exactly when every character is white space |
| Common.TrimIdempotent | src/lib/admin-documents.ts:396-447 | trimming an already trimmed text changes nothing |
| Common.Lower | src/app/api/documents/search/route.ts:74 | `toLowerCase` keeps the length and maps each character on its own |
| Common.Split | src/lib/supabase-storage.ts:183-200 | `split` on one character: the pieces never contain the separator and there is at least one |
| Common.JoinSplit | src/lib/supabase-storage.ts:142-169 | splitting on a separator and joining with it gives the original text back |
| Common.SplitJoin | src/lib/supabase-storage.ts:142-169 | joining pieces without the separator and splitting again gives the pieces back |
| Common.NatToString | src/app/api/admin/create-user/route.ts:116 | `toString` of a non-negative integer is a non-empty string of decimal digits, without a leading zero unless the number is 0 |
| Common.NatToStringInjective | src/components/DocumentViewer.tsx:67-75 | distinct numbers render differently, so toast ids taken from distinct clock readings differ |
| Common.PadStart2 | src/lib/supabase-storage.ts:197 | `padStart(2, '0')` yields at least two characters and keeps the text as a suffix |
| Common.LexLessTransitive | src/lib/database.ts:363-365 | JavaScript's string order is transitive |
| Common.LexLessTotal | src/lib/database.ts:363-365 | of two distinct strings one sorts before the other |
| Common.JsCeilDiv | src/lib/admin-documents.ts:142-143 | `Math.ceil(a / b)` is the least integer at least the quotient for a positive divisor; a zero divisor gives `null` in JSON |
| Query.Execute | src/app/api/documents/route.ts:112-115 | the count is the number of matching rows, and the page holds at most `to - from + 1` rows, each a matching row of the table; a negative offset or limit is refused |
| Query.PageRange | src/lib/admin-documents.ts:58 | the `range` window of page `page` starts at position `(page - 1) * limit` and spans exactly `limit` positions |
| Query.PagingFindsEveryMatch | src/lib/admin-documents.ts:117-143 | with a positive limit every match appears on exactly one page, at the position predicted by its index, and that page is not past `Math.ceil(count / limit)` |
| Query.PageBeyondLastIsEmpty | src/lib/admin-documents.ts:117-143 | a page past the last one is empty |
| Tally.Put | src/lib/database.ts:249 | `c[k] = v` keeps the keys distinct, gives `k` the value `v` and leaves every other key's value |
| Tally.Bump | src/lib/database.ts:249 | `c[k] = (c[k] ?? 0) + 1` raises `k` by one and leaves the other keys |
| Tally.BumpTotal | src/lib/database.ts:247-250 | bumping a key raises the counter's sum by exactly one |
| Tally.StatusTallyTotal | src/lib/database.ts:247-250 | the status counts add up to the number of documents visited |
| Tally.StatusTallyCounts | src/lib/admin-documents.ts:654-657 | each status is counted once per document carrying it, and a missing status is counted as `'uploaded'` |
| Database.ResolvedUserExists | src/lib/database.ts:520-558 | a resolved internal id belongs to a user row with that Clerk id; only `users` may change, and an error changes nothing |
| Database.ResolveUserStable | src/lib/database.ts:520-558 | when at most one user carries the identity and the first lookup succeeded or found nobody, a second resolution whose lookup succeeds returns the same id and inserts nothing |
| Database.ResolveUserLookupFailure | src/lib/database.ts:520-558 | the lookup's error is not read: a failed lookup counts as not found, so a successful insert adds one more user carrying the identity and a failed one throws `Error creando usuario: <message>`, even when the user exists |
| Database.LogStateFrame | src/lib/database.ts:559-582 | `logActivity` touches only `users` and `activities` and appends at most one activity, carrying the action and the time |
| Database.GetUserIdFromClerk | src/lib/database.ts:520-558 | the method leaves the database and returns the result the pure resolution specifies, with the lookup's reply as an input and a failed lookup taken for not found |
| Database.LogActivity | src/lib/database.ts:559-582 | the method leaves the database as the pure logging transition specifies |
| Database.CreateDocumentUploads | src/lib/database.ts:59-105 | a created document is appended with status `'uploaded'` and a page count of 1 by default, owned by the resolved user; when the activity insert succeeds and no failed lookup duplicated the identity, `document_uploaded` by that user is the last activity; a failure adds no document |
| Database.CreateDocument | src/lib/database.ts:59-105 | the method leaves the database and returns the result the creation transition specifies |
| Database.SetStatus | src/lib/database.ts:106-125 | the documents keep their count and ids; the rows with that id get the new status and every other row is unchanged |
| Database.UpdateStatusEffect | src/lib/database.ts:106-125 | a status update changes exactly the status of the rows with that id; a failed update changes nothing |
| Database.UpdateDocumentStatus | src/lib/database.ts:106-125 | the method performs the status transition in place |
| Database.SaveOcrMarksProcessed | src/lib/database.ts:126-158 | a saved OCR result, with language `'es'` by default, moves its document to `'processed'`; a failed insert throws before the status changes and writes nothing |
| Database.CreatedThenProcessed | src/lib/database.ts:59-158 | the status lifecycle: a new document is `'uploaded'` and becomes `'processed'` once its OCR result is saved |
| Database.SaveOcrResult | src/lib/database.ts:126-158 | the method performs the OCR transition in place |
| Database.TagRows | src/lib/database.ts:423-444 | one row per tag, for that document, each tag trimmed |
| Database.AddTagsOneRowPerTag | src/lib/database.ts:423-444 | `addDocumentTags` inserts all of its rows or none, and changes no other table; row i is for that document, carries tag i trimmed and the colour picked for it, one of the seventeen of `getRandomTagColor` (database.ts:584-602) |
| Database.AddDocumentTags | src/lib/database.ts:423-444 | the method performs the tag insertion in place |
| Database.GetDashboardStats | src/lib/database.ts:176-282 | totals: documents counted, users 1 for a resolved caller, the status counter from the documents, the recent activities joined with their users; a failed documents query gives all zeros |
| Database.StatsOwnerResolves | src/lib/database.ts:180-190 | without an identity nothing changes and no owner filter applies; resolving may only add the caller's user row, and a resolved owner is a user carrying the identity |
| Database.OwnedDocuments | src/lib/database.ts:193-199 | the documents query keeps exactly the rows whose `owner_id` is the resolved owner, or every row without an owner |
| Database.LatestActivities | src/lib/database.ts:217-233 | at most fifty activities, each with an existing user row (the inner join) and the owner's when one is resolved, paired with that user; with fewer than fifty every such activity is among them |
| Database.JoinedActivitiesCover | src/lib/database.ts:217-233 | the first fifty joined activities are selected ones with their users, and cover every selected activity when fewer than fifty |
| Database.DashboardStatsOf | src/lib/database.ts:176-282 | the caller is resolved first (its user row may be added); the totals, the status counter and the recent activities are those of the owner's documents and latest activities in the tables; a failed documents query gives all zeros |
| Database.DashboardStatusesSumToTotal | src/lib/database.ts:241-250 | the dashboard's status counts sum to its document total |
| Database.SortByDate | src/lib/database.ts:363-365 | the `localeCompare` sort yields a permutation of the buckets ordered by date |
| Database.DailySeriesBuckets | src/lib/database.ts:334-365 | the daily series has one bucket per requested day and none for other dates, in ascending order, each counting the documents and activities created that day |
| Database.OtherDaysIgnored | src/lib/database.ts:347-361 | a record dated outside a day leaves that day's count unchanged |
| Database.DailyActivity | src/lib/database.ts:334-365 | the loop computes exactly the daily series |
| Database.HourlyActivity | src/lib/database.ts:367-385 | 24 buckets in hour order counting the activities of each hour, then a `NaN` bucket exactly when some date is invalid; the counts sum to the number of timestamped activities |
| Database.RoundPercent | src/lib/database.ts:401 | `Math.round(count / total * 100)`, and 0 when there are no documents |
| Database.RoundPercentBounds | src/lib/database.ts:401 | a share of at most the whole is at most 100 percent, and the whole is exactly 100 |
| Database.StatusDistribution | src/lib/database.ts:387-402 | each status with its count and rounded percentage of `totalDocs`, which is the number of documents |
| Database.DistributionSumsToTotal | src/lib/database.ts:387-402 | the distribution's counts sum to `totalDocs` and every percentage lies in 0..100 |
| Database.GetActivityChartData | src/lib/database.ts:287-418 | the chart data is made of the daily series, the hourly series and the status distribution of the rows loaded, with a failed query counting as no rows |
| Database.ChartActivities | src/lib/database.ts:306-316 | the chart reads exactly the activities created on or after the start date (compared as text), the owner's when one is resolved |
| Database.ChartDocuments | src/lib/database.ts:318-331 | the chart reads exactly the documents created on or after the start date (compared as text), the owner's when one is resolved |
| Database.ActivityChartOf | src/lib/database.ts:287-418 | after resolving the caller, the daily and hourly series and the status distribution are those of the activities and documents since the start date in the tables, a failed query counting as no rows |
| DatabaseBypass.BypassFindsOrCreatesOwner | src/lib/database-bypass.ts:28-70 | a unique identity found by a successful lookup reuses its user; otherwise, a failed lookup counting as not found, a temporary user `<id>@temp.com` with role `empleado` is added (one more user carrying the identity), and a failed insert throws `Error de usuario: Error creando usuario: <message>` and changes nothing |
| DatabaseBypass.BypassInsertsUploaded | src/lib/database-bypass.ts:72-92 | a created document is appended as `'uploaded'` with a page count of 1 by default; a failed insert adds no document |
| DatabaseBypass.BypassActivityFailureIgnored | src/lib/database-bypass.ts:96-116 | the activity insert never decides the outcome and adds at most the one upload activity |
| DatabaseBypass.CreateDocumentBypass | src/lib/database-bypass.ts:15-120 | the method performs the bypass creation in place |
| AdminDocuments.LinkRows | src/lib/admin-documents.ts:551-555 | one junction row per id, in order, each in the target folder |
| AdminDocuments.LinkRowsOfDocument | src/lib/admin-documents.ts:551-555 | linking distinct ids gives each of them exactly one row |
| AdminDocuments.WithoutDocumentsHasNone | src/lib/admin-documents.ts:542-546 | `delete().in('document_id', ids)` leaves no row of any of the ids |
| AdminDocuments.AdminLogFrame | src/lib/admin-documents.ts:696-722 | administrative logging touches only `users` and `activities` |
| AdminDocuments.LogAdminActivity | src/lib/admin-documents.ts:696-722 | the method performs the logging transition in place |
| AdminDocuments.MoveRelinks | src/lib/admin-documents.ts:533-591 | after a move whose delete succeeded, the other documents keep their rows; with a truthy folder and a successful insert each moved document has exactly the one row to that folder, otherwise none |
| AdminDocuments.RelinkedRows | src/lib/admin-documents.ts:533-591 | the junction rows after the delete and the insert: without the moved documents they are the rows the delete kept, and each distinct moved document has exactly its one new link |
| AdminDocuments.MoveWithFailedDeleteKeepsOldLinks | src/lib/admin-documents.ts:542-561 | a silently failed delete still inserts the new rows, so a filed document ends up in two folders |
| AdminDocuments.MoveUpdatesFolderCounts | src/lib/admin-documents.ts:347-395 | after a successful move of distinct documents, the target folder's count is its other rows plus one per moved document, and every other folder counts only its rows from unmoved documents |
| AdminDocuments.MoveDocumentsToFolder | src/lib/admin-documents.ts:533-591 | the method performs the move transition in place |
| AdminDocuments.CreatedFolderIsTrimmed | src/lib/admin-documents.ts:396-447 | a created folder is appended with trimmed name and description, created by an existing user, counted 0; a name that is not all white space stays non-empty |
| AdminDocuments.UsersOnlyGrow | src/lib/admin-documents.ts:696-722 | logging never removes a user |
| AdminDocuments.CreateDocumentFolder | src/lib/admin-documents.ts:396-447 | the method performs the folder creation in place |
| AdminDocuments.UpdateFolders | src/lib/admin-documents.ts:448-489 | the folder with that id takes the given name, description and colour, keeping the old value of each absent one and every other column; folders with another id are unchanged |
| AdminDocuments.UpdateFolderKeepsOthers | src/lib/admin-documents.ts:448-489 | the update succeeds exactly when the backend accepts it; on success the folder with that id holds each given field and the old value of each absent one; a failure changes nothing; other folders, the junction table and the documents are untouched |
| AdminDocuments.UpdateDocumentFolder | src/lib/admin-documents.ts:448-489 | the method performs the folder update in place |
| AdminDocuments.DeleteFolderUnlinks | src/lib/admin-documents.ts:490-532 | deleting a folder removes exactly its junction rows and keeps the documents; on success the folder is gone and the others remain in order |
| AdminDocuments.DeleteDocumentFolder | src/lib/admin-documents.ts:490-532 | the method performs the folder delete in place |
| AdminDocuments.UpdateRows | src/lib/admin-documents.ts:222-231 | the row with that id holds the given title, status, description and document type, the old value of each absent one, and `updated_at` set to now; `category`, `folder_id` and every other column are kept; rows with another id are unchanged |
| AdminDocuments.UpdateDocumentColumns | src/lib/admin-documents.ts:208-283 | a failed column update changes nothing and reports its message; otherwise the documents keep their count, the row with that id holds each given field (title, status, description, document type) or its old value, `updated_at` is now, and every other row is unchanged |
| AdminDocuments.UpdateDocumentFolderPart | src/lib/admin-documents.ts:235-265 | an absent `folder_id` leaves the junction table; otherwise the other documents' rows are kept and the document ends with exactly one row to a truthy folder, or none |
| AdminDocuments.KeptRowsOfDocument | src/lib/admin-documents.ts:235-265 | deleting a document's junction rows keeps the other rows and none of its own |
| AdminDocuments.UpdateDocumentAdmin | src/lib/admin-documents.ts:208-283 | the method performs the administrative update in place |
| AdminDocuments.RemoveRelated | src/lib/admin-documents.ts:284-346 | the steps before the row delete remove only the document's storage object, OCR results, tags and shares, each when its call succeeds |
| AdminDocuments.RemoveRelatedRows | src/lib/admin-documents.ts:284-346 | the method performs those steps in place |
| AdminDocuments.DeleteDocumentEffects | src/lib/admin-documents.ts:284-346 | a missing or duplicated id answers `Documento no encontrado` and changes nothing; the storage removal never decides the outcome; a success leaves no row with that id |
| AdminDocuments.DeleteLeavesDanglingLink | src/lib/admin-documents.ts:312-314 | because the junction rows are kept, a deleted document that was filed leaves a junction row pointing at no document |
| AdminDocuments.DeleteDocumentAdmin | src/lib/admin-documents.ts:284-346 | the method performs the administrative delete in place |
| AdminDocuments.AdminRow | src/lib/admin-documents.ts:128-140 | a listed row carries the document; with an owner, the name `first last` as a template renders it, its e-mail and role (`Usuario`, `''` and `empleado` without one); with a folder, its name and colour; and zero extras |
| AdminDocuments.FolderMembers | src/lib/admin-documents.ts:78-90 | the folder filter reads exactly the ids of that folder's junction rows, and none when that query fails |
| AdminDocuments.AdminListingDefaults | src/lib/admin-documents.ts:46-58 | without page and limit the listing asks for rows 0 to 19 |
| AdminDocuments.AdminListingEmptyFolder | src/lib/admin-documents.ts:92-95 | a folder filter on a folder with no readable junction rows lists nothing, with 0 pages |
| AdminDocuments.AdminCondsMeaning | src/lib/admin-documents.ts:61-114 | a row passes the listing's filters exactly when it has an owner and, for each filter given, its status and category are requested ones, it is in the folder, it belongs to the owner, its title or filename contains the search text ignoring case, and it lies within the dates |
| AdminDocuments.AdminListingCountsSelected | src/lib/admin-documents.ts:61-127 | the total the listing reports is the number of rows that satisfy every given filter |
| AdminDocuments.AdminListingWindow | src/lib/admin-documents.ts:116-150 | a failure gives the empty result; otherwise `total` counts every match, `pages` is `Math.ceil(total / limit)` and the page is the transformed window of the matches |
| AdminDocuments.SelectedForStats | src/lib/admin-documents.ts:604-606 | the statistics query selects no `id`: every row has an absent id and the document's status |
| AdminDocuments.GetAdminStats | src/lib/admin-documents.ts:592-693 | the statistics are assembled from the folder counts and the per-document tallies of the rows loaded |
| AdminDocuments.CountByFolder | src/lib/admin-documents.ts:630-651 | `'Sin carpeta'` first, then each folder's count of junction rows, or everything unfiled when a folder query failed |
| AdminDocuments.TallyDocuments | src/lib/admin-documents.ts:654-671 | the loop yields the status counter, the `General` category count, the recent uploads and the storage sum |
| AdminDocuments.AdminStatsTotals | src/lib/admin-documents.ts:592-693 | status counts and `General` add up to the total, recent uploads are at most the total, and `'Sin carpeta'` equals the total whatever the folders hold |
| AdminDocuments.SinCarpetaIgnoresFolders | src/lib/admin-documents.ts:644-647 | with `id` selected, one filed document would already make the unfiled count fall below the total reported |
| AdminDocuments.FolderEntryCounts | src/lib/admin-documents.ts:636-640 | a folder whose name no other folder shares is reported with the number of junction rows carrying its id |
| AdminDocuments.AdminStatsFolderEntry | src/lib/admin-documents.ts:634-640 | when both folder queries load, each uniquely named folder's entry is its junction row count |
| AdminDocuments.StorageUsageIgnoresMissingSizes | src/lib/admin-documents.ts:665 | a missing `file_size` adds nothing to the storage usage |
| AdminRoutes.Outcome | src/app/api/admin/documents/route.ts:95-99 | a failed library call, and only a failed one, answers 400 carrying its message |
| AdminRoutes.ParseList | src/app/api/admin/documents/route.ts:29-30 | `split(',').filter(Boolean) ?? []` contains no empty piece |
| AdminRoutes.ParseListJoin | src/app/api/admin/documents/route.ts:29-30 | a comma-joined list of non-empty values without commas parses back to exactly those values |
| AdminRoutes.AdminGetDefaults | src/app/api/admin/documents/route.ts:26-42 | without `page` and `limit` the listing asks for rows 0 to 19; without `status` or `category` those filters are empty |
| AdminRoutes.AdminGetHasNoRoleCheck | src/app/api/admin/documents/route.ts:23-24 | any signed-in identity gets the same listing |
| AdminRoutes.AdminPutChecks | src/app/api/admin/documents/route.ts:68-100 | no `document_id` answers 400 and changes nothing; otherwise the state is the library update's, 400 exactly when it fails; after a successful column update the rows with that id hold each given field of the body (title, status, description, document type) and the new `updated_at`, and other rows are unchanged |
| AdminRoutes.AdminDeleteChecks | src/app/api/admin/documents/route.ts:114-138 | no `id` answers 400 and changes nothing; a missing document answers 400 `Documento no encontrado` with nothing changed; a success removes every row with that id |
| AdminRoutes.FolderPostChecks | src/app/api/admin/folders/route.ts:45-78 | a missing or blank name answers 400 and changes nothing; a created folder has a non-empty trimmed name and an empty description when none was sent |
| AdminRoutes.FolderPutChecks | src/app/api/admin/folders/route.ts:91-121 | no `folder_id` answers 400; otherwise the folder with that id takes each given name, description and colour and keeps the rest, other folders are unchanged, and a failed update answers 400 with nothing changed |
| AdminRoutes.FolderDeleteChecks | src/app/api/admin/folders/route.ts:135-159 | no `id` answers 400; a failed delete answers 400; a success leaves no such folder and no junction row of it, and the documents untouched |
| AdminRoutes.AdminMoveChecks | src/app/api/admin/folders/move/route.ts:18-40 | a missing, non-array or empty list answers 400 and changes nothing; a failure answers 400; a success reports the number of ids, and a `null` folder leaves the documents unfiled |
| AdminRoutes.AdminHandlersNeedIdentity | src/app/api/admin/folders/route.ts:19-21 | every administration handler answers 401 without an identity and changes nothing |
| DocumentsRoute.FolderEntries | src/app/api/documents/route.ts:122-164 | one entry per folder, counting the documents whose `folder_id` names it; a failed query lists none |
| DocumentsRoute.TruthyValues | src/app/api/documents/route.ts:172-176 | `.filter(Boolean)` keeps exactly the present, non-empty values |
| DocumentsRoute.FolderSentinel | src/app/api/documents/route.ts:98-104 | the folder text `'null'` filters `folder_id IS NULL`, any other non-empty text filters by equality |
| DocumentsRoute.ListDefaults | src/app/api/documents/route.ts:56-59 | without parameters: page 1 of 10 rows, newest first |
| DocumentsRoute.ListSortAllowList | src/app/api/documents/route.ts:106-109 | a sort field outside the four allowed falls back to `created_at`; ascending only for `asc` |
| DocumentsRoute.ListWindow | src/app/api/documents/route.ts:111-192 | `totalDocuments` counts every match, `totalPages` is `Math.ceil(count / limit)` and the page is the window of the matches |
| DocumentsRoute.OptionListsDistinct | src/app/api/documents/route.ts:166-176 | the option lists have no duplicates and no empty value, and list a value exactly when some row read for them carries it |
| DocumentsRoute.ListFailures | src/app/api/documents/route.ts:117-137 | a failed listing answers 500; a failed folder or option query only empties those lists |
| DocumentsRoute.SetFolder | src/app/api/documents/route.ts:223-226 | exactly the listed documents take the new `folder_id`, in place |
| DocumentsRoute.PutMovesListed | src/app/api/documents/route.ts:202-258 | a missing or non-array `documentIds` answers 400 and changes nothing; any array is accepted, the listed documents move and the message counts the ids |
| DocumentsRoute.MoveFolderCount | src/app/api/documents/route.ts:237-252 | after a move the target folder counts exactly the documents that were moved or already in it |
| DocumentsRoute.PutDocuments | src/app/api/documents/route.ts:202-265 | the method performs the PUT transition in place |
| DocumentsRoute.DeleteRemovesOnlyThatId | src/app/api/documents/route.ts:268-324 | no `id` answers 400 and changes nothing; a failed delete answers 500 'Error eliminando documento' and changes nothing; a success leaves the documents filtered by id in their order, each other document with all its copies, and the other tables untouched |
| DocumentsRoute.DeleteDocument | src/app/api/documents/route.ts:268-330 | the method performs the DELETE transition in place |
| DocumentsRoute.HandlersNeedIdentity | src/app/api/documents/route.ts:46-48 | every handler answers 401 without an identity and changes nothing |
| Consultation.ConsultationOrder | src/app/api/documents/consultation/route.ts:99-100 | the ordering column is always one of the six allowed |
| Consultation.ConsultationDefaults | src/app/api/documents/consultation/route.ts:98-109 | without parameters: page 1 of 10 rows, newest first, no filter |
| Consultation.ConsultationSortAllowList | src/app/api/documents/consultation/route.ts:99-104 | an allowed field is used as given, anything else is `created_at`; ascending only for `asc` |
| Consultation.ConsultationIgnoresParams | src/app/api/documents/consultation/route.ts:87-89 | `category`, `user` and `folder_id` never affect the response |
| Consultation.MonthFilterExcludes31st | src/app/api/documents/consultation/route.ts:91-96 | with a month given, a document created on the 31st is never listed |
| Consultation.MonthFilterKeepsEarlierDays | src/app/api/documents/consultation/route.ts:91-96 | days 01 to 30 of the month pass both date bounds |
| Consultation.ConsultationWindow | src/app/api/documents/consultation/route.ts:106-172 | a failed query answers 500 with its message as `details`; otherwise the total, page count and window follow the matches |
| Consultation.ConsultationNeedsIdentity | src/app/api/documents/consultation/route.ts:28-31 | without an identity the answer is 401 |
| Search.SearchGet | src/app/api/documents/search/route.ts:64-92 | the answer echoes the query and tag, and `total` is the length of the documents returned |
| Search.SearchGetKeeps | src/app/api/documents/search/route.ts:64-92 | GET keeps, in order, exactly the mock documents matching the query in OCR text or name (ignoring case) and listing the lower-cased tag |
| Search.SearchPost | src/app/api/documents/search/route.ts:94-148 | an unparsable body answers 500; otherwise `total` is the length of the documents returned |
| Search.PostFiltersConjunction | src/app/api/documents/search/route.ts:99-134 | applying the five POST filters one after another, each only when its parameter is set, keeps exactly the documents that pass all five tests |
| Search.TextAndDateConjunction | src/app/api/documents/search/route.ts:99-121 | the text, `dateFrom` and `dateTo` filters in sequence keep exactly the documents that pass all three tests |
| Search.SearchPostIsConjunction | src/app/api/documents/search/route.ts:99-134 | the POST filters combine as a conjunction; the result is the ordered selection of the mock documents satisfying it |
| Search.SearchPostBounds | src/app/api/documents/search/route.ts:111-133 | `dateFrom`/`dateTo` are inclusive bounds, `fileType` must occur in the type, a positive `minConfidence` is a lower bound and 0 filters nothing |
| Search.SearchPostNoFilters | src/app/api/documents/search/route.ts:99-140 | with no usable field the whole list comes back |
| MoveRoute.MoveRouteChecks | src/app/api/documents/move/route.ts:18-45 | a missing, non-array or empty list answers 400 and changes nothing; a success reports `movedCount` equal to the ids sent; a failure answers 500 with its message |
| MoveRoute.MoveMessageNamesDirection | src/app/api/documents/move/route.ts:41-43 | the two message forms differ, so the direction can be read back |
| MoveRoute.MoveStatusDiffersFromAdmin | src/app/api/documents/move/route.ts:30-36 | this route and the administration move leave the same state; on failure this one answers 500 and that one 400 |
| MoveRoute.MoveNeedsIdentity | src/app/api/documents/move/route.ts:14-16 | without an identity the answer is 401 and nothing changes |
| CreateRoutes.RejectionOrder | src/app/api/documents/create/route.ts:36-63 | the first failing check decides: a falsy required field, then a size above 50 MiB, then a type outside the five; a body passing all three is accepted |
| CreateRoutes.SizeBoundaries | src/app/api/documents/create/route.ts:36-47 | size 0 is a missing field; exactly 50 MiB passes and one byte more does not |
| CreateRoutes.SameChecks | src/app/api/documents/create-bypass/route.ts:36-63 | the three create endpoints refuse the same bodies with the same 400 answer and store nothing |
| CreateRoutes.CreateStoresTrimmedTitle | src/app/api/documents/create/route.ts:64-114 | a success answers 201 with the new row's id and `'uploaded'`, storing the trimmed title and one page; a library error answers 500 and adds no document |
| CreateRoutes.CreateViaLibrary | src/app/api/documents/create/route.ts:64-88 | a body that passes the checks is handed to `createDocument`, whose outcome decides the answer |
| CreateRoutes.CreateIgnoresCategory | src/app/api/documents/create/route.ts:89-93 | `category` and `activate_ocr` change neither state nor answer |
| CreateRoutes.BypassOutcome | src/app/api/documents/create-bypass/route.ts:64-109 | a bypass success answers 201 with `document_id`, trimmed title and one page; any error answers 500 with mode `'bypass'` |
| CreateRoutes.BypassViaLibrary | src/app/api/documents/create-bypass/route.ts:64-98 | a body that passes is handed to `createDocumentBypass` |
| CreateRoutes.MockOutcome | src/app/api/documents/create-mock/route.ts:64-106 | the simulation answers 201 with an id starting `doc_`, `'uploaded'`, the untrimmed title and the caller as owner |
| CreateRoutes.CreateNeedsIdentity | src/app/api/documents/create/route.ts:20-22 | all three endpoints answer 401 without an identity and change nothing |
| CreateUserRoute.FindAccount | src/app/api/admin/create-user/route.ts:43-44 | the account found carries the id asked for, and none is found exactly when no account has it |
| CreateUserRoute.Underscored | src/app/api/admin/create-user/route.ts:115 | every character outside `[a-zA-Z0-9]` becomes `_`, others are kept, length unchanged |
| CreateUserRoute.CreateUserNeedsAdmin | src/app/api/admin/create-user/route.ts:35-48 | no identity answers 401, a caller without role `admin` 403; neither changes anything |
| CreateUserRoute.BodyChecks | src/app/api/admin/create-user/route.ts:55-66 | a falsy field answers "all fields required", then a role other than `admin`/`empleado` "invalid role" |
| CreateUserRoute.RejectedBodyAnswers400 | src/app/api/admin/create-user/route.ts:55-66 | an administrator's rejected body answers 400 and changes nothing |
| CreateUserRoute.NormalizeEmailIdempotent | src/app/api/admin/create-user/route.ts:74 | normalising an address twice gives the same address as once |
| CreateUserRoute.DuplicateAnswers409 | src/app/api/admin/create-user/route.ts:68-104 | an address already listed, or matching one of the first 500 accounts in another case, answers 409 before any account is created |
| CreateUserRoute.FailedSearchSkipsCheck | src/app/api/admin/create-user/route.ts:106-108 | a failed search refuses nothing, it only skips its checks |
| CreateUserRoute.UsernameAlphabet | src/app/api/admin/create-user/route.ts:114-117 | the username uses only ASCII letters, digits and `_` |
| CreateUserRoute.LastDigitsValue | src/app/api/admin/create-user/route.ts:116 | `n.toString().slice(-k)` is `n % 10^k` written out |
| CreateUserRoute.UsernameShape | src/app/api/admin/create-user/route.ts:114-117 | the username is the underscored prefix, `_` and six digits worth `now % 1000000` once the clock has six digits |
| CreateUserRoute.CreatedAccount | src/app/api/admin/create-user/route.ts:121-182 | a creation appends exactly one account with the normalised address, trimmed names and derived username, and answers 201 with them and the role |
| CreateUserRoute.SideStepsIgnored | src/app/api/admin/create-user/route.ts:131-169 | a failed role assignment, mirror or activity log never changes the answer |
| CreateUserRoute.ThrownStatus | src/app/api/admin/create-user/route.ts:184-245 | an e-mail issue of an error with a status gives 422; otherwise 422 and 400 are kept and anything else gives 500 |
| CreateUserRoute.ThrownChangesNothing | src/app/api/admin/create-user/route.ts:184-221 | a creation error leaves the registry as it was |
| CreateUserRoute.PostCreateUser | src/app/api/admin/create-user/route.ts:30-246 | the method performs the whole request on the directory, as the pure transition specifies |
| CreateUserRoute.StoreCreatedAccount | src/app/api/admin/create-user/route.ts:128-182 | once the account exists: the stored account (with the role when its update succeeded), the mirror row and activity entry only when the sync succeeded, and the 201 answer, written one step at a time |
| Storage.ValidateFileRule | src/lib/supabase-storage.ts:205-236 | a file is valid exactly when at most 100 MiB and of one of the eleven types; a large file is refused for its size whatever its type |
| Storage.ValidateFileBoundary | src/lib/supabase-storage.ts:206-226 | exactly 100 MiB passes, one byte more does not |
| Storage.ValidatorsAgree | src/lib/document-upload-s3.ts:136-171 | the two validators accept the same files and refuse the others for the same reason |
| Storage.Replaced | src/lib/supabase-storage.ts:186 | every character outside `[a-zA-Z0-9.-]` becomes `_`, others are kept |
| Storage.CollapseUnderscores | src/lib/supabase-storage.ts:187 | `replace(/_+/g, '_')`: the result has no double underscore |
| Storage.CollapseRun | src/lib/supabase-storage.ts:187 | a run of one or more `_` followed by anything not starting with `_` becomes a single `_` before the rest's collapse |
| Storage.CollapseLeadingChar | src/lib/supabase-storage.ts:187 | any character other than `_` is kept as it is, in front of the rest's collapse |
| Storage.CollapseKeepsOthers | src/lib/supabase-storage.ts:187 | collapsing keeps every other character, in order |
| Storage.CleanName | src/lib/supabase-storage.ts:185-188 | the cleaned name is made of lower-case letters, digits, `.`, `-` and `_`, with no double underscore |
| Storage.CleanNameIdempotent | src/lib/supabase-storage.ts:185-188 | cleaning a cleaned name changes nothing |
| Storage.CleanNameKeepsSafeChars | src/lib/supabase-storage.ts:185-188 | cleaning keeps every letter, digit, `.` and `-`, lower-cased and in order |
| Storage.MonthSegment | src/lib/supabase-storage.ts:197 | the month segment is two digits naming a month 01 to 12 |
| Storage.PathSegments | src/lib/supabase-storage.ts:183-200 | for ids without `/` the path has exactly four segments: user, year, month, object name |
| Storage.DirectoryAndBaseName | src/lib/supabase-storage.ts:142-169 | directory and base name put back together give the path |
| Storage.GeneratedPathLookup | src/lib/supabase-storage.ts:142-204 | for a generated path `fileExists` lists `userId/year/month` and searches for the object name |
| Storage.FileExists | src/lib/supabase-storage.ts:142-169 | the file exists exactly when the listing succeeds with a match; an error is reported exactly when the listing fails |
| Storage.UploadWithApi | src/lib/supabase-storage.ts:52-113 | success exactly when stored, with the public URL; otherwise the error message |
| Storage.UploadFallbackRule | src/lib/supabase-storage.ts:14-51 | without both credentials the plain API decides; with both, an S3 result is final and only a throw falls back |
| Storage.UploadProgress | src/lib/document-upload-s3.ts:9-43 | progress is a prefix of 10 then 100, reaching 100 exactly when S3 returned, and then its result is returned; a throw gives a failure with a message |
| Storage.LargeUploadDelegates | src/lib/document-upload-s3.ts:44-74 | the size never changes what the large-file upload does |
| UiState.PreviousPage | src/components/DocumentManager.tsx:714 | `Math.max(page - 1, 1)`: never below 1, one page back when possible |
| UiState.NextPage | src/components/DocumentManager.tsx:724 | `Math.min(page + 1, pages)`: never past `pages`, at most one page forward |
| UiState.PageButtonsClamp | src/components/DocumentConsultation.tsx:785-792 | inside the range both buttons stay inside it; with no pages "next" goes to page 0 |
| UiState.DisplayRangeBounds | src/components/DocumentManager.tsx:709-711 | on a page with rows the shown range lies within 1..total and spans one page except the last; with no rows page 1 shows "1 to 0" |
| UiState.PageNumbers | src/components/DocumentConsultation.tsx:824-829 | the buttons are `1..min(5, pages)` |
| UiState.PageNumbersWithinRange | src/components/DocumentConsultation.tsx:824-829 | the numbered buttons are ascending first pages, never past the last, at most five |
| UiState.ToggleFlips | src/components/DocumentManager.tsx:287-297 | a click flips exactly that id's membership and keeps the selection free of repetitions |
| UiState.ToggleTwice | src/components/DocumentManager.tsx:287-297 | two clicks give back the same members |
| UiState.Column | src/components/DocumentConsultation.tsx:310-312 | one field of every row, in row order |
| UiState.IdsOf | src/components/DocumentManager.tsx:299-301 | the selected ids are exactly the loaded rows' ids, each once |
| UiState.NullChoiceHidesUnfiled | src/components/DocumentManager.tsx:308-310 | the choice `'null'` is compared as text, so it never shows a row without a folder |
| UiState.VisibleIsFolderFilter | src/components/DocumentConsultation.tsx:315-317 | a folder choice keeps exactly that folder's rows, in order |
| UiState.TypeOptions | src/components/DocumentConsultation.tsx:310 | each `document_type ?? category` once, and only those |
| UiState.DepartmentOptions | src/components/DocumentConsultation.tsx:311 | each category once, and only those |
| UiState.UserOptions | src/components/DocumentConsultation.tsx:312 | each owner name once, and only those |
| Viewer.Rem360 | src/components/DocumentViewer.tsx:121-124 | JavaScript `% 360`: a non-negative angle maps into 0..359, unchanged below 360 and less 360 below 720; a negative one maps into -359..0 |
| Viewer.ZoomInRule | src/components/DocumentViewer.tsx:97-104 | zooming in adds exactly 25 below 300 and leaves the level at 300 |
| Viewer.ZoomOutRule | src/components/DocumentViewer.tsx:106-113 | zooming out takes exactly 25 above 25 and leaves the level at 25 |
| Viewer.ZoomInThenOut | src/components/DocumentViewer.tsx:97-113 | in then out returns to the starting level below the maximum |
| Viewer.RotateRule | src/components/DocumentViewer.tsx:121-124 | a quarter turn moves through 0, 90, 180, 270 and wraps; four come back |
| Viewer.RunStaysReachable | src/components/DocumentViewer.tsx:97-129 | whatever the clicks, zoom stays in 25..300 in steps of 25 and rotation a quarter turn |
| Viewer.ViewerStaysInRange | src/components/DocumentViewer.tsx:32-35 | the viewer opens at 100% unrotated, so every state it reaches is in range |
| Viewer.ClosedRule | src/components/DocumentViewer.tsx:77-79 | closing removes every toast with that id and keeps the others in order |
| Viewer.ShowThenClose | src/components/DocumentViewer.tsx:67-79 | showing then closing a toast's id also removes older toasts of the same millisecond |
| Viewer.DocumentViewer.constructor | src/components/DocumentViewer.tsx:32-35 | the initial state: 100%, no rotation, no toasts, not fullscreen |
| Viewer.DocumentViewer.ShowToast | src/components/DocumentViewer.tsx:67-75 | appends one toast with the clock as id |
| Viewer.DocumentViewer.CloseToast | src/components/DocumentViewer.tsx:77-79 | the toasts become those the close transition specifies |
| Viewer.DocumentViewer.HandleZoomIn | src/components/DocumentViewer.tsx:97-104 | the state becomes the zoom-in transition's |
| Viewer.DocumentViewer.HandleZoomOut | src/components/DocumentViewer.tsx:106-113 | the state becomes the zoom-out transition's |
| Viewer.DocumentViewer.HandleZoomReset | src/components/DocumentViewer.tsx:115-119 | back to 100% and no rotation |
| Viewer.DocumentViewer.HandleRotate | src/components/DocumentViewer.tsx:121-124 | the state becomes the rotation transition's |
| Viewer.DocumentViewer.HandleFullscreen | src/components/DocumentViewer.tsx:126-129 | the flag flips, with a toast naming the mode entered |
| DocumentManagerView.SelectDocumentFlips | src/components/DocumentManager.tsx:287-297 | toggling flips membership of that id only and keeps the selection free of repetitions |
| DocumentManagerView.SelectAllExact | src/components/DocumentManager.tsx:299-301 | select-all selects exactly the loaded ids, each once |
| DocumentManagerView.DeleteRemovesEverywhere | src/components/DocumentManager.tsx:147-174 | a confirmed, accepted delete removes the id from rows and selection; a refused or unconfirmed one keeps both |
| DocumentManagerView.BulkMoveRule | src/components/DocumentManager.tsx:175-204 | an empty selection alerts and sends nothing; otherwise the request carries the selection, and a success empties it |
| DocumentManagerView.VisibleRule | src/components/DocumentManager.tsx:308-310 | the folder filter shows exactly that folder's rows, and `'null'` never an unfiled row |
| DocumentManagerView.EditModalToggles | src/components/DocumentManager.tsx:247-250 | opening the editor shows it on that row and changes nothing else; closing it hides it and drops the row |
| DocumentManagerView.EditorStartsFromRow | src/components/DocumentManager.tsx:737-752 | the editor opens on the row's title, an empty description, the row's type or else its category, and its folder or `''` |
| DocumentManagerView.SaveDocumentRule | src/components/DocumentManager.tsx:252-279 | the body names the document and carries the editor's title and type; the returned promise resolves exactly when the PUT is accepted, and only then are the rows reloaded; a refusal rejects with the server's message |
| DocumentManagerView.SavedEditReachesDocument | src/components/DocumentManager.tsx:252-279 | a save that reaches the administrators' update sets the trimmed title and the chosen type, keeps the stored description when the editor's is blank, keeps status and category, and leaves the folder links when no folder is chosen; a row without an id is refused with 400 |
| DocumentManagerView.DocumentManager.constructor | src/components/DocumentManager.tsx:52-72 | no rows, no selection, default filters at page 1, the editor closed |
| DocumentManagerView.DocumentManager.LoadDocuments | src/components/DocumentManager.tsx:97-121 | a successful listing replaces rows and page count |
| DocumentManagerView.DocumentManager.HandleSelectDocument | src/components/DocumentManager.tsx:287-297 | the state becomes the toggle transition's, keeping the selection distinct |
| DocumentManagerView.DocumentManager.HandleSelectAll | src/components/DocumentManager.tsx:299-301 | the selection becomes the loaded ids |
| DocumentManagerView.DocumentManager.HandleDeselectAll | src/components/DocumentManager.tsx:303-305 | the selection becomes empty, nothing else changes |
| DocumentManagerView.DocumentManager.HandleDeleteDocument | src/components/DocumentManager.tsx:147-174 | the state becomes the delete transition's |
| DocumentManagerView.DocumentManager.HandleBulkMove | src/components/DocumentManager.tsx:175-204 | state and request are the bulk-move transition's |
| DocumentManagerView.DocumentManager.HandleEditDocument | src/components/DocumentManager.tsx:247-250 | the state becomes the open-editor transition's |
| DocumentManagerView.DocumentManager.CloseEditor | src/components/DocumentManager.tsx:747-750 | the state becomes the close-editor transition's |
| DocumentManagerView.DocumentManager.HandleSaveDocument | src/components/DocumentManager.tsx:252-279 | state, body and settlement are the save transition's |
| DocumentManagerView.DocumentManager.SetSearch | src/components/DocumentManager.tsx:430 | sets the search text and goes back to page 1 |
| DocumentManagerView.DocumentManager.SetStatus | src/components/DocumentManager.tsx:437 | sets the status and goes back to page 1 |
| DocumentManagerView.DocumentManager.SetFolder | src/components/DocumentManager.tsx:451 | sets the folder and goes back to page 1 |
| DocumentManagerView.DocumentManager.PreviousPageClick | src/components/DocumentManager.tsx:714 | page becomes `Math.max(1, page - 1)`, never below 1 |
| DocumentManagerView.DocumentManager.NextPageClick | src/components/DocumentManager.tsx:724 | page becomes `Math.min(pages, page + 1)`, never above `pages` |
| ConsultationView.ClearFiltersRule | src/components/DocumentConsultation.tsx:213-221 | clearing empties all six filters and returns to page 1, touching nothing else |
| ConsultationView.SetFilterRule | src/components/DocumentConsultation.tsx:385-473 | setting a filter changes only that field and lands on page 1 |
| ConsultationView.FolderCardTwice | src/components/DocumentConsultation.tsx:543-551 | clicking the same folder card twice leaves no folder chosen |
| ConsultationView.CheckDocumentRule | src/components/DocumentConsultation.tsx:698-704 | a checkbox adds exactly its id or removes exactly it, keeping a distinct selection distinct |
| ConsultationView.CheckAllRule | src/components/DocumentConsultation.tsx:634-638 | the header checkbox selects exactly the loaded ids in order, or none |
| ConsultationView.MoveToFolderRule | src/components/DocumentConsultation.tsx:185-210 | an empty selection or no user sends nothing and changes nothing; `''` asks for no folder; a success empties the selection |
| ConsultationView.DeleteRule | src/components/DocumentConsultation.tsx:224-245 | a confirmed, accepted delete removes exactly that id from the selection |
| ConsultationView.PagingRule | src/components/DocumentConsultation.tsx:785-792 | paging stays in 1..pages from inside it; with no pages "next" gives 0 and "previous" 1 |
| ConsultationView.LoadedRule | src/components/DocumentConsultation.tsx:62-117 | failed loads keep the rows and set a message; a success clears it |
| ConsultationView.CreateFolderRule | src/components/DocumentConsultation.tsx:156-182 | a blank name or no user sends nothing and changes nothing; otherwise the request carries the trimmed non-empty name, an empty description and the chosen colour; a success clears the name and hides the form, a failure keeps it and adds one alert |
| ConsultationView.CreateFolderOnce | src/components/DocumentConsultation.tsx:156-182 | after a successful creation pressing the button again sends nothing |
| ConsultationView.DocumentConsultation.constructor | src/components/DocumentConsultation.tsx:34-57 | no rows, default pagination, no filters, newest first, page 1, an empty hidden new-folder form with colour `#ef4444` |
| ConsultationView.DocumentConsultation.LoadDocuments | src/components/DocumentConsultation.tsx:62-117 | the state becomes the load transition's |
| ConsultationView.DocumentConsultation.ChangeFilter | src/components/DocumentConsultation.tsx:385-473 | the state becomes the filter transition's |
| ConsultationView.DocumentConsultation.ClickFolderCard | src/components/DocumentConsultation.tsx:543-551 | the state becomes the folder-card transition's |
| ConsultationView.DocumentConsultation.ChangeSort | src/components/DocumentConsultation.tsx:606-608 | sets field and order and goes back to page 1 |
| ConsultationView.DocumentConsultation.ClearAllFilters | src/components/DocumentConsultation.tsx:213-221 | the state becomes the clear transition's |
| ConsultationView.DocumentConsultation.ToggleCheckbox | src/components/DocumentConsultation.tsx:698-704 | the state becomes the checkbox transition's |
| ConsultationView.DocumentConsultation.ToggleAll | src/components/DocumentConsultation.tsx:634-638 | the state becomes the header checkbox transition's |
| ConsultationView.DocumentConsultation.HandleDeleteDocument | src/components/DocumentConsultation.tsx:224-245 | the state becomes the delete transition's |
| ConsultationView.DocumentConsultation.MoveSelectedToFolder | src/components/DocumentConsultation.tsx:185-210 | state and request are the move transition's |
| ConsultationView.DocumentConsultation.ToggleCreateFolder | src/components/DocumentConsultation.tsx:499 | the form is shown or hidden, nothing else changes |
| ConsultationView.DocumentConsultation.TypeFolderName | src/components/DocumentConsultation.tsx:516 | the typed name is stored, nothing else changes |
| ConsultationView.DocumentConsultation.ChooseFolderColor | src/components/DocumentConsultation.tsx:524 | the chosen colour is stored, nothing else changes |
| ConsultationView.DocumentConsultation.HandleCreateFolder | src/components/DocumentConsultation.tsx:156-182 | state and request are the create-folder transition's |
| ConsultationView.DocumentConsultation.PreviousPageClick | src/components/DocumentConsultation.tsx:785 | the state becomes the "Anterior" transition's |
| ConsultationView.DocumentConsultation.NextPageClick | src/components/DocumentConsultation.tsx:792 | the state becomes the "Siguiente" transition's |
| ConsultationView.DocumentConsultation.PageNumberClick | src/components/DocumentConsultation.tsx:824-829 | the page becomes the number on the button clicked, which lies within 1..pages |
| GridView.FileExtension | src/components/DocumentGridView.tsx:58-60 | the lower-cased text after the last dot contains no dot |
| GridView.IconFor | src/components/DocumentGridView.tsx:61-76 | the clip icon is chosen exactly for the extensions the table does not name |
| GridView.StatusText | src/components/DocumentGridView.tsx:88-95 | a status is shown as itself exactly when it is not one of the three with Spanish labels |
| GridView.FileIconOfExtension | src/components/DocumentGridView.tsx:58-76 | the icon of `stem.ext` depends only on the lower-cased `ext`, whatever dots the stem holds |
| GridView.DotlessNameIsExtension | src/components/DocumentGridView.tsx:58-60 | a name without a dot is its own extension, so a file called `PDF` gets the PDF icon |
| GridView.FileIconIgnoresCase | src/components/DocumentGridView.tsx:58-76 | upper case in the extension does not change the icon |
| GridView.HeaderClick | src/components/DocumentGridView.tsx:112 | the header deselects all exactly when all are selected |
| GridView.HeaderCheckboxRule | src/components/DocumentGridView.tsx:97-110 | an empty grid is never all selected; all implies some; the dash shows exactly when one card is selected and another is not |
| GridView.SelectAllChecksHeader | src/components/DocumentGridView.tsx:97-98 | after select-all the header is checked exactly when there are cards; after deselect-all it is neither checked nor dashed |
| UploadForm.DefaultNameStrips | src/components/DocumentUpload.tsx:94 | `stem.ext` with a non-empty extension free of dots and slashes defaults to `stem` |
| UploadForm.DefaultNameIsPrefix | src/components/DocumentUpload.tsx:94 | the default is the name or the name with a dot and its final piece cut off |
| UploadForm.DefaultNameKeeps | src/components/DocumentUpload.tsx:94 | a name with no dot, or ending in a dot, or like `a.b/c`, is its own default |
| UploadForm.SelectFileRule | src/components/DocumentUpload.tsx:67-100 | a disallowed type only sets the type error; an allowed type over 50 MiB only the size error; otherwise the file is taken and a typed name kept |
| UploadForm.DialogMatchesCreateChecks | src/components/DocumentUpload.tsx:77-91 | the dialog takes a file exactly when the create endpoint passes its type and size, except for an empty file, which the endpoint calls missing |
| UploadForm.DropUsesFirst | src/components/DocumentUpload.tsx:108-121 | only the first dropped file is looked at |
| UploadForm.SaveRule | src/components/DocumentUpload.tsx:170-210 | no file or a blank name only sets the error; a failure ends at progress 0 with a message; a success ends complete at 100, and progress only moves forward until a failure |
| UploadForm.SaveErrorText | src/components/DocumentUpload.tsx:202-209 | the error line shows the server's text, or a fixed one when there is none |
| UploadForm.DocumentUpload.constructor | src/components/DocumentUpload.tsx:30-39 | the empty form |
| UploadForm.DocumentUpload.HandleFileSelect | src/components/DocumentUpload.tsx:67-100 | the state becomes the selection transition's |
| UploadForm.DocumentUpload.HandleDrop | src/components/DocumentUpload.tsx:108-121 | the state becomes the drop transition's |
| UploadForm.DocumentUpload.UploadToSupabase | src/components/DocumentUpload.tsx:124-168 | progress goes to 10, then 80 when answered, then 100 on success; the outcome is the id or the error |
| UploadForm.DocumentUpload.HandleSave | src/components/DocumentUpload.tsx:170-210 | state, progress trace and id are the save transition's |
| EditModal.PayloadRule | src/components/DocumentEditModal.tsx:76-81 | the payload's title is trimmed; a blank description and an empty folder become `undefined`; the type passes through |
| EditModal.UnchangedFormSendsDocument | src/components/DocumentEditModal.tsx:57-81 | saving a document's own normalised values sends them back exactly |
| EditModal.SaveThenReopen | src/components/DocumentEditModal.tsx:57-81 | storing the payload and reopening gives the same payload again |
| EditModal.SaveRule | src/components/DocumentEditModal.tsx:68-89 | no document or a blank title alerts and sends nothing; otherwise one call with the payload, `onClose` only on success, an alert on failure, `saving` false at the end |
| EditModal.DocumentEditModal.constructor | src/components/DocumentEditModal.tsx:49-55 | the empty form with type `Documento Legal`, not saving |
| EditModal.DocumentEditModal.LoadDocument | src/components/DocumentEditModal.tsx:57-66 | the form takes the document's values, missing ones as `''` |
| EditModal.DocumentEditModal.HandleSave | src/components/DocumentEditModal.tsx:68-89 | state and call are the save transition's |
| EditModal.DocumentEditModal.HandleCancel | src/components/DocumentEditModal.tsx:91-101 | the form is restored from the document and `onClose` runs once |

## Left out

- Floating point: `formatFileSize`, `formatBytes` and the percentage display are not modelled. The percentages of the status distribution are exact rational rounding.
- Case mapping covers ASCII and Latin-1 letters only, and strings are sequences of code points rather than UTF-16 units.
- `ilike` is modelled as a case-insensitive substring match: `%`, `_` and commas inside a search term (which would break the `or` filter text) are not modelled.
- Database ordering: every listing receives its table already in the requested order, so `order()` is not computed; `localeCompare` on ISO dates is plain string order.
- `parseInt` on a non-numeric page or limit (`NaN`) is not modelled; parameters are the parsed integers.
- Clocks, random numbers and timers are inputs. A toast's expiry timer is the same transition as closing it.
- The `metadata` column of activities, request headers and the `entity_type`/`entity_id` columns are not modelled.
- Explicit `null` values in update bodies (other than `folder_id`) are treated as absent.
- `Promise.all` in `getDocumentFolders` is modelled as sequential queries; concurrency is not modelled.
- Outside the modelled core: `getDocumentByIdAdmin`, `getUserDocuments`, `searchDocuments`, `getRecentActivities`, the settings and users endpoints, `getDocumentCategories`, `deleteDocument` and `getPublicUrl` in storage, the presigned-URL functions, the OCR and upload endpoints, and the analytics pages.
- Folder `created_at` and `description` in listing responses, and a missing `color` in a folder POST, are not modelled.
- Catch-all 500 answers are modelled only for a request body that is not JSON; any other unexpected exception is not.
- The identity provider's search by address is modelled as exact match on the normalised address; JSON fields of unexpected types are modelled as absent.
- Client components: reloading statistics and folders, loading flags, typing into form fields, the category and OCR options of the upload form and the success-callback timer are not modelled.
- UploadForm.SaveRule: `isUploading` staying true after a success is modelled as written, not corrected.
- Storage: `generateSecureFileName` is modelled by the same function as `generateFileName`, which it duplicates.
- Viewer: `localStorage` persistence and OCR processing are not modelled.
- DocumentManagerView: the category filter has no input in the component, so it stays `''`.
- Search.SearchPost: `minConfidence` and the mock documents' `confidence` are modelled as integers, so a fractional threshold such as `90.5` cannot be expressed; the `searchParams` echo (query and filters) of the POST answer is not modelled.
- CreateUserRoute.DuplicateAnswers409: which 500 accounts the duplicate check sees depends on the order in which the identity provider returns its user list; that order is an input, taken as the registry's order.
- AdminDocuments.UpdateDocumentAdmin: the object spread writes every key of the body to the row; only `title`, `status`, `description` and `document_type` are modelled, so a body naming `owner_id`, `storage_path`, `filename`, `file_size`, `mime_type`, `page_count` or a column that does not exist is outside the model (the last would surface as the update's error answer).
- AdminRoutes.AdminPutChecks: states the rewritten columns for the four modelled keys only, for the same reason.
- AdminDocuments.UpdateFolderKeepsOthers: the folder update writes every key of the body; only `name`, `description` and `color` are modelled, and the same holds for AdminRoutes.FolderPutChecks.
- AdminRoutes.FolderPutChecks: a body key other than `name`, `description` and `color` is not modelled.
- Consultation.MonthFilterKeepsEarlierDays: the bounds `${month}-01` and `${month}-31` are compared with `created_at` as text. On the real timestamp column a bound such as `2024-02-31` or `2024-04-31` is not a valid date, so the database would refuse the query and the route would answer 500; the model instead lists that month's rows.
- Consultation.MonthFilterExcludes31st: holds for text comparison; for a month without a 31st the query itself would fail on a timestamp column, as above.
- Database.DashboardStatsOf: the activities table is taken to be already newest first, as for every listing, so the fifty latest are its first fifty selected rows.
- Database.ActivityChartOf: the start date (today minus `days`, from the clock), the day keys and the hour of a timestamp (`new Date(...).getHours()`, which depends on the server's time zone) are inputs.
- AdminDocuments.CountByFolder: JavaScript objects list integer-like keys first, so a folder named like `2024` would precede `'Sin carpeta'` in the JSON object; the model keeps insertion order.
- DocumentManagerView: handleViewDocument opens a browser window (`window.open`), which is outside the model.
- ConsultationView: handleViewDocument downloads the file through `/api/documents/{id}/download` and the storage URL; that endpoint and the file viewer hand-off are not part of this model. The `/api/folders` endpoint that createFolder posts to is not part of this model either, so its request is the model's output.
