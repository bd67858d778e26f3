/**
 * The upload dialog, `src/components/DocumentUpload.tsx`: one `UploadState`
 * record that the handlers merge updates into — the chosen file, the
 * document name, the folder, the OCR switch, the uploading flag, the
 * progress bar, the completion flag and the error line.
 */
module UploadForm {
  import opened Common
  import CreateRoutes

  /** The part of a browser `File` the dialog looks at. */
  datatype ChosenFile = ChosenFile(name: string, mimeType: string, size: int)

  datatype FormState = FormState(
    file: Option<ChosenFile>,
    documentName: string,
    category: string,
    activateOcr: bool,
    isUploading: bool,
    uploadProgress: int,
    uploadComplete: bool,
    error: Option<string>)

  const InitialForm := FormState(None, "", "", true, false, 0, false, None)

  const TypeRefused := "Tipo de archivo no permitido. Solo se aceptan PDF, JPEG, PNG y WebP."
  const SizeRefused := "El archivo es muy grande. Tamaño máximo: 50MB."
  const FieldsMissing := "Por favor completa todos los campos requeridos."

  /**
   * `name.replace(/\.[^/.]+$/, '')`: drop a final dot and the non-empty text
   * after it, provided that text has no `/`; otherwise the name as it is.
   */
  function DefaultName(name: string): string
  {
    var parts := Split(name, '.');
    var last := parts[|parts| - 1];
    if |parts| > 1 && last != [] && '/' !in last then Join(parts[..|parts| - 1], '.') else name
  }

  /** handleFileSelect: the type is checked first, then the size; a name already typed is kept. */
  function SelectFile(u: FormState, f: ChosenFile): FormState
  {
    if f.mimeType !in CreateRoutes.CreateTypes then u.(error := Some(TypeRefused))
    else if f.size > CreateRoutes.MaxCreateSize then u.(error := Some(SizeRefused))
    else u.(file := Some(f), documentName := if u.documentName != "" then u.documentName else DefaultName(f.name),
            error := None)
  }

  /** handleDrop and handleFileInput: only the first file counts, and none means nothing happens. */
  function DropFiles(u: FormState, files: seq<ChosenFile>): FormState
  {
    if |files| > 0 then SelectFile(u, files[0]) else u
  }

  /** What the upload request came to. */
  datatype UploadReply =
    | Stored(documentId: string)               // `response.ok`
    | UploadRejected(error: string)            // a non-ok answer; `""` when it carries no error text
    | UploadThrew(message: Option<string>)     // fetch threw; `None` when not an `Error`

  /**
   * handleSave and uploadToSupabase: the progress values written, in order,
   * the final state, and the new document's id for the success callback.
   */
  function Save(u: FormState, reply: UploadReply): (FormState, seq<int>, Option<string>)
  {
    if u.file.None? || Trim(u.documentName) == "" then (u.(error := Some(FieldsMissing)), [], None)
    else
      var started := u.(isUploading := true, uploadProgress := 0, error := None);
      match reply
      case UploadThrew(message) =>
        (started.(error := Some(OrElse(message, "Error desconocido")), isUploading := false, uploadProgress := 0),
         [0, 10, 0], None)
      case UploadRejected(error) =>
        (started.(error := Some(if error != "" then error else "Error en el upload"), isUploading := false,
                  uploadProgress := 0),
         [0, 10, 80, 0], None)
      case Stored(id) =>
        (started.(uploadProgress := 100, uploadComplete := true), [0, 10, 80, 100, 100], Some(id))
  }

  // ------------------------------------------------------------------
  // Default names

  /** A name `stem.ext` whose extension is non-empty and free of dots and slashes defaults to `stem`. */
  lemma DefaultNameStrips(stem: string, ext: string)
    requires ext != [] && '.' !in ext && '/' !in ext
    ensures DefaultName(stem + "." + ext) == stem
  {
    var name := stem + "." + ext;
    assert name == stem + ['.'] + ext;
    SplitSnoc(stem, '.', ext);
    var parts := Split(name, '.');
    assert parts[..|parts| - 1] == Split(stem, '.');
    JoinSplit(stem, '.');
  }

  /**
   * Whatever the name, the default is either the name itself or the name
   * with a dot and its final piece cut off the end.
   */
  lemma DefaultNameIsPrefix(name: string)
    ensures DefaultName(name) == name
            || exists last: string :: last != [] && '.' !in last && '/' !in last && DefaultName(name) + "." + last == name
  {
    var parts := Split(name, '.');
    var last := parts[|parts| - 1];
    if |parts| > 1 && last != [] && '/' !in last {
      JoinSplit(name, '.');
      JoinSnoc(parts, '.');
      assert DefaultName(name) + "." + last == name;
    }
  }

  /** A name with no dot, or one ending in a dot, is its own default; so is `a.b/c`. */
  lemma DefaultNameKeeps(name: string)
    ensures '.' !in name ==> DefaultName(name) == name
    ensures name != [] && name[|name| - 1] == '.' ==> DefaultName(name) == name
  {
    if name != [] && name[|name| - 1] == '.' {
      var init := name[..|name| - 1];
      assert name == init + ['.'] + [];
      SplitSnoc(init, '.', []);
    }
  }

  // ------------------------------------------------------------------
  // Choosing a file

  /**
   * A file of a type outside the five only sets the type error; an allowed
   * type over 50 MiB only the size error; otherwise the file is taken, a
   * typed name is kept, an empty one becomes the default, and the error is cleared.
   */
  lemma SelectFileRule(u: FormState, f: ChosenFile)
    ensures var v := SelectFile(u, f);
            && (f.mimeType !in CreateRoutes.CreateTypes ==> v == u.(error := Some(TypeRefused)))
            && (f.mimeType in CreateRoutes.CreateTypes && f.size > 52428800 ==> v == u.(error := Some(SizeRefused)))
            && (f.mimeType in CreateRoutes.CreateTypes && f.size <= 52428800 ==>
                  && v.file == Some(f) && v.error.None?
                  && (u.documentName != "" ==> v.documentName == u.documentName)
                  && (u.documentName == "" ==> v.documentName == DefaultName(f.name))
                  && v.isUploading == u.isUploading && v.uploadProgress == u.uploadProgress)
  {
  }

  /**
   * The dialog takes a file (and clears its error) exactly when the create endpoint would pass a
   * body with its type and size, except that the dialog also takes an empty
   * file, which the endpoint reports as a missing field.
   */
  lemma DialogMatchesCreateChecks(u: FormState, f: ChosenFile, title: string, storagePath: string)
    requires title != "" && f.name != "" && storagePath != ""
    ensures var b := CreateRoutes.CreateBody(Some(title), Some(f.name), Some(storagePath), Some(f.size),
                                             Some(f.mimeType), None, false);
            && (f.size != 0 ==> (SelectFile(u, f).error.None? <==> CreateRoutes.CreateRejection(b).None?))
            && (f.size == 0 && f.mimeType in CreateRoutes.CreateTypes ==>
                  SelectFile(u, f).error.None? && CreateRoutes.CreateRejection(b) == Some(CreateRoutes.MissingFields))
  {
    var b := CreateRoutes.CreateBody(Some(title), Some(f.name), Some(storagePath), Some(f.size),
                                     Some(f.mimeType), None, false);
    CreateRoutes.RejectionOrder(b);
  }

  /** Only the first dropped file is looked at. */
  lemma DropUsesFirst(u: FormState, f: ChosenFile, rest: seq<ChosenFile>)
    ensures DropFiles(u, [f] + rest) == SelectFile(u, f)
    ensures DropFiles(u, []) == u
  {
  }

  // ------------------------------------------------------------------
  // Saving

  /**
   * Without a file or with a blank name only the error is set and nothing
   * is sent. A failed upload ends not uploading, at progress 0, with the
   * error's message; a successful one ends complete at 100, and the
   * progress bar only moves forward until a failure resets it.
   */
  lemma SaveRule(u: FormState, reply: UploadReply)
    ensures var (v, trace, id) := Save(u, reply);
            && (u.file.None? || Trim(u.documentName) == "" ==>
                  v == u.(error := Some(FieldsMissing)) && trace == [] && id.None?)
            && (u.file.Some? && Trim(u.documentName) != "" ==>
                  && trace[0] == 0 && trace[1] == 10
                  && (reply.Stored? ==>
                        && v.uploadComplete && v.uploadProgress == 100 && v.error.None?
                        && id == Some(reply.documentId)
                        && (forall i, j | 0 <= i < j < |trace| :: trace[i] <= trace[j]))
                  && (!reply.Stored? ==>
                        && !v.isUploading && v.uploadProgress == 0 && v.error.Some? && id.None?
                        && trace[|trace| - 1] == 0 && v.uploadComplete == u.uploadComplete))
            && v.file == u.file && v.documentName == u.documentName
  {
  }

  /** The error line shows the server's text, or a fixed text when it sent none or the failure was not an `Error`. */
  lemma SaveErrorText(u: FormState, reply: UploadReply)
    requires u.file.Some? && Trim(u.documentName) != ""
    ensures reply == UploadRejected("") ==> Save(u, reply).0.error == Some("Error en el upload")
    ensures reply == UploadThrew(None) ==> Save(u, reply).0.error == Some("Error desconocido")
    ensures reply.UploadRejected? && reply.error != "" ==> Save(u, reply).0.error == Some(reply.error)
  {
  }

  // ------------------------------------------------------------------
  // The component

  class DocumentUpload {
    var file: Option<ChosenFile>
    var documentName: string
    var category: string
    var activateOcr: bool
    var isUploading: bool
    var uploadProgress: int
    var uploadComplete: bool
    var error: Option<string>

    function State(): FormState
      reads this
    {
      FormState(file, documentName, category, activateOcr, isUploading, uploadProgress, uploadComplete, error)
    }

    constructor ()
      ensures State() == InitialForm
    {
      file := None;
      documentName := "";
      category := "";
      activateOcr := true;
      isUploading := false;
      uploadProgress := 0;
      uploadComplete := false;
      error := None;
    }

    method HandleFileSelect(f: ChosenFile)
      modifies this
      ensures State() == SelectFile(old(State()), f)
    {
      if f.mimeType !in CreateRoutes.CreateTypes {
        error := Some(TypeRefused);
        return;
      }
      if f.size > CreateRoutes.MaxCreateSize {
        error := Some(SizeRefused);
        return;
      }
      var defaultName := DefaultName(f.name);
      file := Some(f);
      documentName := if documentName != "" then documentName else defaultName;
      error := None;
    }

    method HandleDrop(files: seq<ChosenFile>)
      modifies this
      ensures State() == DropFiles(old(State()), files)
    {
      if |files| > 0 {
        HandleFileSelect(files[0]);
      }
    }

    /** uploadToSupabase: moves the bar to 10, then 80 once answered, then 100 on success. */
    method UploadToSupabase(reply: UploadReply) returns (outcome: Result<string>, trace: seq<int>)
      requires file.Some?
      modifies this
      ensures outcome.Ok? <==> reply.Stored?
      ensures outcome.Ok? ==> outcome.value == reply.documentId
      ensures reply.UploadThrew? ==> outcome == Err(OrElse(reply.message, "Error desconocido")) && trace == [10]
      ensures reply.UploadRejected? ==>
                outcome == Err(if reply.error != "" then reply.error else "Error en el upload") && trace == [10, 80]
      ensures reply.Stored? ==> trace == [10, 80, 100]
      ensures uploadProgress == trace[|trace| - 1]
      ensures State() == old(State()).(uploadProgress := uploadProgress)
    {
      uploadProgress := 10;
      trace := [10];
      match reply {
        case UploadThrew(message) =>
          return Err(if message.Some? then message.value else "Error desconocido"), trace;
        case UploadRejected(e) =>
          uploadProgress := 80;
          trace := trace + [80];
          return Err(if e != "" then e else "Error en el upload"), trace;
        case Stored(id) =>
          uploadProgress := 80;
          trace := trace + [80];
          uploadProgress := 100;
          trace := trace + [100];
          return Ok(id), trace;
      }
    }

    method HandleSave(reply: UploadReply) returns (trace: seq<int>, documentId: Option<string>)
      modifies this
      ensures (State(), trace, documentId) == Save(old(State()), reply)
    {
      if file.None? || Trim(documentName) == "" {
        error := Some(FieldsMissing);
        return [], None;
      }
      isUploading := true;
      uploadProgress := 0;
      error := None;
      ghost var started := State();
      var outcome, steps := UploadToSupabase(reply);
      assert State() == started.(uploadProgress := uploadProgress);
      trace := [0] + steps;
      if outcome.Ok? {
        uploadProgress := 100;
        uploadComplete := true;
        trace := trace + [100];
        documentId := Some(outcome.value);
      } else {
        error := Some(outcome.error);
        isUploading := false;
        uploadProgress := 0;
        trace := trace + [0];
        documentId := None;
      }
      assert reply.UploadThrew? ==> trace == [0, 10, 0];
      assert reply.UploadRejected? ==> trace == [0, 10, 80, 0];
      assert reply.Stored? ==> trace == [0, 10, 80, 100, 100];
      assert State() == Save(old(State()), reply).0;
    }
  }
}
