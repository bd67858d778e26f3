/**
 * The storage helpers of `src/lib/supabase-storage.ts` and
 * `src/lib/document-upload-s3.ts`: the two file validators, the object-path
 * builder with its file-name cleaner, the directory/name split used to ask
 * whether an object exists, and the rules that choose between the S3
 * protocol and the plain storage API and report upload progress.
 */
module Storage {
  import opened Common

  // ------------------------------------------------------------------
  // Validation

  /** 100 MiB. */
  const MaxStorageSize := 100 * 1024 * 1024

  const StorageTypes: seq<string> := [
    "application/pdf",
    "image/jpeg",
    "image/jpg",
    "image/png",
    "image/gif",
    "image/webp",
    "text/plain",
    "application/msword",
    "application/vnd.openxmlformats-officedocument.wordprocessingml.document",
    "application/vnd.ms-excel",
    "application/vnd.openxmlformats-officedocument.spreadsheetml.sheet"]

  datatype Validation = Valid | Invalid(error: string)

  /** validateFile: the size first, then the type. */
  function ValidateFile(size: int, mimeType: string): Validation
  {
    if size > MaxStorageSize then Invalid("Archivo demasiado grande. Máximo: 100MB")
    else if mimeType !in StorageTypes then Invalid("Tipo de archivo no permitido. Soportados: PDF, imágenes, documentos Office")
    else Valid
  }

  /** validateFileForS3: the same checks with longer messages. */
  function ValidateFileForS3(size: int, mimeType: string): Validation
  {
    if size > MaxStorageSize then Invalid("El archivo es demasiado grande. Máximo permitido: 100MB")
    else if mimeType !in StorageTypes
    then Invalid("Tipo de archivo no permitido. Tipos soportados: PDF, imágenes, documentos de Office, texto plano")
    else Valid
  }

  /**
   * A file is valid exactly when it is at most 100 MiB and of one of the
   * eleven types; a file too large is refused for its size whatever its type.
   */
  lemma ValidateFileRule(size: int, mimeType: string)
    ensures ValidateFile(size, mimeType).Valid? <==> size <= MaxStorageSize && mimeType in StorageTypes
    ensures size > MaxStorageSize ==> ValidateFile(size, mimeType) == Invalid("Archivo demasiado grande. Máximo: 100MB")
  {
  }

  /** Exactly 100 MiB passes; one byte more does not. */
  lemma ValidateFileBoundary(mimeType: string)
    requires mimeType in StorageTypes
    ensures ValidateFile(104857600, mimeType).Valid?
    ensures ValidateFile(104857601, mimeType).Invalid?
  {
  }

  /** The two validators accept the same files and refuse the others for the same reason. */
  lemma ValidatorsAgree(size: int, mimeType: string)
    ensures ValidateFile(size, mimeType).Valid? <==> ValidateFileForS3(size, mimeType).Valid?
    ensures ValidateFileForS3(size, mimeType).Invalid? && size <= MaxStorageSize ==> mimeType !in StorageTypes
  {
  }

  // ------------------------------------------------------------------
  // Object names

  /** `.replace(/[^a-zA-Z0-9.-]/g, '_')` on one character. */
  function SafeChar(c: char): char
  {
    if IsAsciiAlnum(c) || c == '.' || c == '-' then c else '_'
  }

  function Replaced(s: string): (r: string)
    ensures |r| == |s|
    ensures forall i | 0 <= i < |s| :: r[i] == SafeChar(s[i])
  {
    seq(|s|, i requires 0 <= i < |s| => SafeChar(s[i]))
  }

  predicate NoDoubleUnderscore(s: string)
  {
    forall i | 0 <= i < |s| - 1 :: !(s[i] == '_' && s[i + 1] == '_')
  }

  function RemoveUnderscores(s: string): string
  {
    Filter(s, (c: char) => c != '_')
  }

  /** `.replace(/_{2,}/g, '_')`: every run of underscores becomes one. */
  function CollapseUnderscores(s: string): (r: string)
    ensures |r| <= |s|
    ensures s != [] ==> r != [] && r[0] == s[0]
    ensures forall i | 0 <= i < |r| :: r[i] in s
    ensures NoDoubleUnderscore(r)
    decreases |s|
  {
    if |s| <= 1 then s
    else if s[0] == '_' && s[1] == '_' then CollapseUnderscores(s[1..])
    else [s[0]] + CollapseUnderscores(s[1..])
  }

  /** `n` underscores. */
  function Underscores(n: nat): (r: string)
    ensures |r| == n && forall i | 0 <= i < n :: r[i] == '_'
  {
    seq(n, i => '_')
  }

  /**
   * A run of one or more underscores at the front, up to the next other
   * character or the end, leaves exactly one underscore in its place.
   */
  lemma {:induction false} CollapseRun(n: nat, t: string)
    requires n >= 1 && (t == [] || t[0] != '_')
    ensures CollapseUnderscores(Underscores(n) + t) == "_" + CollapseUnderscores(t)
    decreases n
  {
    var s := Underscores(n) + t;
    assert s[0] == '_';
    if n == 1 {
      assert s[1..] == t;
    } else {
      assert s[1..] == Underscores(n - 1) + t;
      CollapseRun(n - 1, t);
    }
  }

  /** Any other character at the front stays there, and the rest is collapsed on its own. */
  lemma CollapseLeadingChar(c: char, t: string)
    requires c != '_'
    ensures CollapseUnderscores([c] + t) == [c] + CollapseUnderscores(t)
  {
    assert ([c] + t)[1..] == t;
  }

  /** Collapsing keeps every other character, in order. */
  lemma {:induction false} CollapseKeepsOthers(s: string)
    ensures RemoveUnderscores(CollapseUnderscores(s)) == RemoveUnderscores(s)
    decreases |s|
  {
    if |s| > 1 {
      CollapseKeepsOthers(s[1..]);
      assert s == [s[0]] + s[1..];
      FilterAppend([s[0]], s[1..], (c: char) => c != '_');
      if !(s[0] == '_' && s[1] == '_') {
        FilterAppend([s[0]], CollapseUnderscores(s[1..]), (c: char) => c != '_');
      }
    }
  }

  /** A string without a double underscore is left as it is. */
  lemma {:induction false} CollapseOfCollapsed(s: string)
    requires NoDoubleUnderscore(s)
    ensures CollapseUnderscores(s) == s
    decreases |s|
  {
    if |s| > 1 {
      CollapseOfCollapsed(s[1..]);
    }
  }

  /** What a cleaned name is made of: lower-case ASCII letters, digits, `.`, `-` and `_`. */
  predicate IsCleanChar(c: char)
  {
    'a' <= c <= 'z' || '0' <= c <= '9' || c == '.' || c == '-' || c == '_'
  }

  /** The cleaned file name: unsafe characters to `_`, runs of `_` to one, then lower case. */
  function CleanName(original: string): (r: string)
    ensures forall i | 0 <= i < |r| :: IsCleanChar(r[i])
    ensures NoDoubleUnderscore(r)
  {
    var c := CollapseUnderscores(Replaced(original));
    var r := Lower(c);
    assert forall i | 0 <= i < |r| :: IsCleanChar(r[i]) by {
      forall i | 0 <= i < |r| ensures IsCleanChar(r[i]) {
        var k :| 0 <= k < |original| && Replaced(original)[k] == c[i];
      }
    }
    r
  }

  /** Cleaning a cleaned name changes nothing. */
  lemma CleanNameIdempotent(original: string)
    ensures CleanName(CleanName(original)) == CleanName(original)
  {
    var n := CleanName(original);
    assert Replaced(n) == n;
    CollapseOfCollapsed(n);
    assert Lower(n) == n;
  }

  /** Cleaning keeps every letter, digit, `.` and `-` of the name, in order, lower-cased. */
  lemma CleanNameKeepsSafeChars(original: string)
    ensures RemoveUnderscores(CleanName(original)) == Lower(RemoveUnderscores(Replaced(original)))
  {
    var c := CollapseUnderscores(Replaced(original));
    CollapseKeepsOthers(Replaced(original));
    LowerCommutesWithRemoval(c);
  }

  lemma {:induction false} LowerCommutesWithRemoval(s: string)
    ensures RemoveUnderscores(Lower(s)) == Lower(RemoveUnderscores(s))
    decreases |s|
  {
    if s != [] {
      var t := s[1..];
      LowerCommutesWithRemoval(t);
      assert s == [s[0]] + t;
      LowerAppend([s[0]], t);
      RemoveUnderscoresCons(LowerChar(s[0]), Lower(t));
      RemoveUnderscoresCons(s[0], t);
      LowerAppend(if s[0] != '_' then [s[0]] else [], RemoveUnderscores(t));
    }
  }

  lemma RemoveUnderscoresCons(c: char, s: string)
    ensures RemoveUnderscores([c] + s) == (if c != '_' then [c] else []) + RemoveUnderscores(s)
  {
    assert ([c] + s)[1..] == s;
  }

  lemma LowerAppend(a: string, b: string)
    ensures Lower(a + b) == Lower(a) + Lower(b)
  {
  }

  /**
   * generateFileName (and generateSecureFileName, which is the same
   * function): `userId/year/month/timestamp_randomId_cleanName`, where the
   * month is `getMonth() + 1` padded to two digits. The clock, the calendar
   * fields and the random id are inputs.
   */
  function GenerateFileName(original: string, userId: string, year: int, monthIndex: nat, timestamp: nat,
                            randomId: string): string
    requires monthIndex < 12
  {
    userId + "/" + IntToString(year) + "/" + PadStart2(NatToString(monthIndex + 1)) + "/"
    + NatToString(timestamp) + "_" + randomId + "_" + CleanName(original)
  }

  /** The month segment is two digits naming a month from 01 to 12. */
  lemma MonthSegment(monthIndex: nat)
    requires monthIndex < 12
    ensures var m := PadStart2(NatToString(monthIndex + 1));
            |m| == 2 && AllDigits(m) && DigitsValue(m) == monthIndex + 1 && 1 <= DigitsValue(m) <= 12
  {
    var s := NatToString(monthIndex + 1);
    NatToStringValue(monthIndex + 1);
    if monthIndex + 1 < 10 {
      var m := "0" + s;
      assert m[..1] == "0";
    } else {
      assert s == NatToString(1) + [(('0' as int) + (monthIndex + 1) % 10) as char];
    }
  }

  /** A rendered number contains no `/`. */
  lemma NoSlashInNumber(n: int)
    ensures '/' !in IntToString(n)
  {
    var s := IntToString(n);
    forall i | 0 <= i < |s| ensures s[i] != '/' {
      if n < 0 && i > 0 {
        assert s[i] == NatToString(-n)[i - 1];
      }
    }
  }

  /** The padded month contains no `/`. */
  lemma NoSlashInMonth(monthIndex: nat)
    requires monthIndex < 12
    ensures '/' !in PadStart2(NatToString(monthIndex + 1))
  {
    MonthSegment(monthIndex);
    var m := PadStart2(NatToString(monthIndex + 1));
    forall i | 0 <= i < |m| ensures m[i] != '/' {
      assert IsDigit(m[i]);
    }
  }

  /** The name that goes after the month: `timestamp_randomId_cleanName`. */
  function ObjectName(original: string, timestamp: nat, randomId: string): string
  {
    NatToString(timestamp) + "_" + randomId + "_" + CleanName(original)
  }

  /**
   * For a user id and random id without `/`, the path has exactly four
   * segments: the user, the year, the month and the object name.
   */
  lemma PathSegments(original: string, userId: string, year: int, monthIndex: nat, timestamp: nat, randomId: string)
    requires monthIndex < 12
    requires '/' !in userId && '/' !in randomId
    ensures Split(GenerateFileName(original, userId, year, monthIndex, timestamp, randomId), '/')
         == [userId, IntToString(year), PadStart2(NatToString(monthIndex + 1)), ObjectName(original, timestamp, randomId)]
  {
    var y := IntToString(year);
    var m := PadStart2(NatToString(monthIndex + 1));
    var o := ObjectName(original, timestamp, randomId);
    var parts := [userId, y, m, o];
    NoSlashInNumber(year);
    NoSlashInMonth(monthIndex);
    NoSlashInName(original, timestamp, randomId);
    JoinFour(userId, y, m, o, '/');
    assert Join(parts, '/') == GenerateFileName(original, userId, year, monthIndex, timestamp, randomId);
    SplitJoin(parts, '/');
  }

  lemma JoinThree(a: string, b: string, c: string, sep: char)
    ensures Join([a, b, c], sep) == a + [sep] + b + [sep] + c
  {
    assert [a, b, c][1..] == [b, c];
    assert [b, c][1..] == [c];
    assert Join([b, c], sep) == b + [sep] + c;
    assert a + [sep] + (b + [sep] + c) == a + [sep] + b + [sep] + c;
  }

  lemma JoinFour(a: string, b: string, c: string, d: string, sep: char)
    ensures Join([a, b, c, d], sep) == a + [sep] + b + [sep] + c + [sep] + d
  {
    assert [a, b, c, d][1..] == [b, c, d];
    JoinThree(b, c, d, sep);
    assert a + [sep] + (b + [sep] + c + [sep] + d) == a + [sep] + b + [sep] + c + [sep] + d;
  }

  lemma NoSlashInName(original: string, timestamp: nat, randomId: string)
    requires '/' !in randomId
    ensures '/' !in ObjectName(original, timestamp, randomId)
  {
    NoSlashInNumber(timestamp);
    var c := CleanName(original);
    forall i | 0 <= i < |c| ensures c[i] != '/' {
      assert IsCleanChar(c[i]);
    }
  }

  // ------------------------------------------------------------------
  // fileExists

  /** `fileName.split('/').slice(0, -1).join('/')`: the directory listed. */
  function Directory(fileName: string): string
  {
    var parts := Split(fileName, '/');
    Join(parts[..|parts| - 1], '/')
  }

  /** `fileName.split('/').pop()`: the name searched for. */
  function BaseName(fileName: string): string
  {
    var parts := Split(fileName, '/');
    parts[|parts| - 1]
  }

  /**
   * The directory and the name put back together give the path: a path
   * without `/` is a name in the root directory, and otherwise the name is
   * what follows the last `/`.
   */
  lemma {:induction false} DirectoryAndBaseName(fileName: string)
    ensures '/' !in BaseName(fileName)
    ensures '/' !in fileName ==> Directory(fileName) == "" && BaseName(fileName) == fileName
    ensures '/' in fileName ==> Directory(fileName) + "/" + BaseName(fileName) == fileName
  {
    var parts := Split(fileName, '/');
    JoinSplit(fileName, '/');
    if '/' in fileName {
      assert |parts| > 1;
      JoinSnoc(parts, '/');
    }
  }

  /** For a generated path, `fileExists` lists `userId/year/month` and searches for the object name. */
  lemma GeneratedPathLookup(original: string, userId: string, year: int, monthIndex: nat, timestamp: nat, randomId: string)
    requires monthIndex < 12
    requires '/' !in userId && '/' !in randomId
    ensures var path := GenerateFileName(original, userId, year, monthIndex, timestamp, randomId);
            && Directory(path) == userId + "/" + IntToString(year) + "/" + PadStart2(NatToString(monthIndex + 1))
            && BaseName(path) == ObjectName(original, timestamp, randomId)
  {
    PathSegments(original, userId, year, monthIndex, timestamp, randomId);
    var y := IntToString(year);
    var m := PadStart2(NatToString(monthIndex + 1));
    var o := ObjectName(original, timestamp, randomId);
    var parts := [userId, y, m, o];
    assert parts[..3] == [userId, y, m];
    JoinThree(userId, y, m, '/');
  }

  datatype Existence = Existence(exists_: bool, error: Option<string>)

  /**
   * fileExists over the backend's answer to the listing of
   * `Directory(fileName)` searched for `BaseName(fileName)`: `Err` carries
   * the message of a failed listing.
   */
  function FileExists(listing: Result<seq<string>>): (r: Existence)
    ensures r.error.Some? <==> listing.Err?
    ensures r.exists_ <==> listing.Ok? && |listing.value| > 0
  {
    if listing.Err? then Existence(false, Some(listing.error))
    else Existence(|listing.value| > 0, None)
  }

  // ------------------------------------------------------------------
  // Uploads

  datatype Upload = Upload(success: bool, url: Option<string>, error: Option<string>)

  /** A thrown value: `Some(message)` for an `Error`, `None` for anything else. */
  datatype Step = Completed | Raised(message: Option<string>)

  /** The message reported for a thrown value. */
  function ThrownMessage(message: Option<string>): string
  {
    OrElse(message, "Error desconocido")
  }

  function Failure(message: string): Upload
  {
    Upload(false, None, Some(message))
  }

  /** What the S3 upload did: returned a result (successful or not) or threw. */
  datatype S3Call = S3Returned(result: Upload) | S3Threw(message: Option<string>)

  /** What the plain storage API did. */
  datatype ApiUpload = ApiRejected(message: string) | ApiThrew(thrown: Option<string>) | ApiStored(publicUrl: string)

  /** uploadWithSupabaseAPI. */
  function UploadWithApi(api: ApiUpload): (r: Upload)
    ensures r.success <==> api.ApiStored?
    ensures r.success ==> r.url == Some(api.publicUrl) && r.error.None?
    ensures !r.success ==> r.error.Some? && r.url.None?
  {
    match api
    case ApiRejected(m) => Failure(m)
    case ApiThrew(m) => Failure(ThrownMessage(m))
    case ApiStored(u) => Upload(true, Some(u), None)
  }

  /**
   * uploadDocument: the S3 protocol when both credentials are set, the plain
   * API otherwise or when the S3 upload throws.
   */
  function UploadDocument(accessKey: Option<string>, secretKey: Option<string>, s3: S3Call, api: ApiUpload): Upload
  {
    if Truthy(accessKey) && Truthy(secretKey) && s3.S3Returned? then s3.result
    else UploadWithApi(api)
  }

  /**
   * Without both credentials the plain API decides, whatever S3 would have
   * done; with both, a result S3 returns is final even when unsuccessful, and
   * only a throw falls back to the plain API.
   */
  lemma UploadFallbackRule(accessKey: Option<string>, secretKey: Option<string>, s3: S3Call, api: ApiUpload)
    ensures !(Truthy(accessKey) && Truthy(secretKey)) ==> UploadDocument(accessKey, secretKey, s3, api) == UploadWithApi(api)
    ensures Truthy(accessKey) && Truthy(secretKey) && s3.S3Returned?
            ==> UploadDocument(accessKey, secretKey, s3, api) == s3.result
    ensures Truthy(accessKey) && Truthy(secretKey) && s3.S3Threw?
            ==> UploadDocument(accessKey, secretKey, s3, api) == UploadWithApi(api)
    ensures UploadDocument(accessKey, secretKey, s3, api).success
            ==> (Truthy(accessKey) && Truthy(secretKey) && s3.S3Returned? && s3.result.success) || api.ApiStored?
  {
  }

  /**
   * uploadDocumentS3: the result and the progress values reported, in
   * order. Reading the file may throw before any report; the S3 call may
   * throw after the first.
   */
  function UploadDocumentS3(conversion: Step, s3: S3Call): (Upload, seq<int>)
  {
    if conversion.Raised? then (Failure(ThrownMessage(conversion.message)), [])
    else if s3.S3Threw? then (Failure(ThrownMessage(s3.message)), [10])
    else (s3.result, [10, 100])
  }

  /**
   * The progress reports are a prefix of 10 then 100; they reach 100
   * exactly when the S3 call returned, and then its result is returned as
   * it is; anything thrown gives an unsuccessful result with a message.
   */
  lemma UploadProgress(conversion: Step, s3: S3Call)
    ensures var (r, reports) := UploadDocumentS3(conversion, s3);
            && |reports| <= 2 && reports == [10, 100][..|reports|]
            && (reports == [10, 100] <==> conversion.Completed? && s3.S3Returned?)
            && (reports == [10, 100] ==> r == s3.result)
            && (reports != [10, 100] ==> !r.success && r.error.Some?)
  {
  }

  /** 5 MiB: the size above which a multipart upload was planned. */
  const ChunkSize := 5 * 1024 * 1024

  /** uploadLargeDocumentS3: both sides of the threshold delegate to uploadDocumentS3. */
  function UploadLargeDocumentS3(size: int, conversion: Step, s3: S3Call): (Upload, seq<int>)
  {
    if size <= ChunkSize then UploadDocumentS3(conversion, s3)
    else UploadDocumentS3(conversion, s3)
  }

  /** The size never changes what the large-file upload does. */
  lemma LargeUploadDelegates(size: int, size2: int, conversion: Step, s3: S3Call)
    ensures UploadLargeDocumentS3(size, conversion, s3) == UploadLargeDocumentS3(size2, conversion, s3)
    ensures UploadLargeDocumentS3(size, conversion, s3) == UploadDocumentS3(conversion, s3)
  {
  }
}
