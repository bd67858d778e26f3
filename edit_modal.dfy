/**
 * The metadata editor, `src/components/DocumentEditModal.tsx`: a form of
 * four text fields loaded from the document, the payload `handleSave`
 * hands to the `onSave` callback, and the `saving` flag, alerts and
 * `onClose` calls the handlers produce.
 */
module EditModal {
  import opened Common

  /** The document the modal edits; absent optional fields are `None`. */
  datatype EditedDocument = EditedDocument(
    id: string, title: string, description: Option<string>, documentType: string, folderId: Option<string>)

  /** `formData`: every field is text, `''` standing for "none". */
  datatype Form = Form(title: string, description: string, documentType: string, folderId: string)

  const InitialFormData := Form("", "", "Documento Legal", "")

  /** The updates object passed to `onSave`; `None` is `undefined`. */
  datatype Updates = Updates(title: string, description: Option<string>, documentType: string, folderId: Option<string>)

  const TitleRequired := "El título es requerido"
  const SaveFailed := "Error guardando los cambios"

  /** The load effect and handleCancel: the document's values, missing optionals as `''`. */
  function FormOf(d: EditedDocument): Form
  {
    Form(d.title, OrElse(d.description, ""), d.documentType, OrElse(d.folderId, ""))
  }

  /** The payload: trimmed title, trimmed description or `undefined` when blank, folder `undefined` for `''`. */
  function Payload(f: Form): Updates
  {
    var description := Trim(f.description);
    Updates(Trim(f.title), if description == "" then None else Some(description), f.documentType,
            if f.folderId == "" then None else Some(f.folderId))
  }

  /** The document as a caller that stores every field of the payload would leave it. */
  function Applied(d: EditedDocument, u: Updates): EditedDocument
  {
    d.(title := u.title, description := u.description, documentType := u.documentType, folderId := u.folderId)
  }

  datatype ModalState = ModalState(form: Form, saving: bool, alerts: seq<string>, closeCalls: nat)

  /** One call of `onSave`. */
  datatype SaveCall = SaveCall(documentId: string, updates: Updates)

  /**
   * handleSave, given how the `onSave` promise settles: the call made, if
   * any, and the state after the `finally`.
   */
  function Save(m: ModalState, document: Option<EditedDocument>, settled: Reply): (ModalState, Option<SaveCall>)
  {
    if document.None? || Trim(m.form.title) == "" then (m.(alerts := m.alerts + [TitleRequired]), None)
    else
      var call := Some(SaveCall(document.value.id, Payload(m.form)));
      if settled.Done? then (m.(saving := false, closeCalls := m.closeCalls + 1), call)
      else (m.(saving := false, alerts := m.alerts + [SaveFailed]), call)
  }

  // ------------------------------------------------------------------
  // Properties

  /**
   * The payload's title is trimmed and non-blank whenever a call is made;
   * a blank description and an empty folder become `undefined`; the type
   * passes through.
   */
  lemma PayloadRule(f: Form)
    ensures Payload(f).title == Trim(f.title)
    ensures Payload(f).description.None? <==> TrimEmpty(f.description)
    ensures Payload(f).description.Some? ==> Payload(f).description.value == Trim(f.description) != ""
    ensures Payload(f).folderId.None? <==> f.folderId == ""
    ensures Payload(f).documentType == f.documentType
  {
  }

  predicate TrimEmpty(s: string)
  {
    Trim(s) == ""
  }

  /**
   * Saving a document's own values unchanged sends them back exactly, when
   * they are already in the form the payload produces: a trimmed title, a
   * trimmed non-blank description or none, and a non-empty folder or none.
   */
  lemma UnchangedFormSendsDocument(d: EditedDocument)
    requires Trim(d.title) == d.title
    requires d.description.Some? ==> Trim(d.description.value) == d.description.value != ""
    requires d.folderId != Some("")
    ensures Payload(FormOf(d)) == Updates(d.title, d.description, d.documentType, d.folderId)
  {
    if d.description.None? {
      assert Trim("") == "" by { TrimEmptyIffAllWhite(""); }
    }
  }

  /**
   * Saving, storing the payload and reopening the modal gives a form whose
   * payload is the same: the normalisation is idempotent.
   */
  lemma SaveThenReopen(d: EditedDocument, f: Form)
    ensures Payload(FormOf(Applied(d, Payload(f)))) == Payload(f)
  {
    TrimIdempotent(f.title);
    TrimIdempotent(f.description);
    assert Trim("") == "" by { TrimEmptyIffAllWhite(""); }
  }

  /**
   * No document or a blank title: an alert, no call, nothing else. Otherwise
   * exactly one call with the payload; `onClose` runs only when it resolves,
   * an alert when it rejects, and `saving` ends false on both paths.
   */
  lemma SaveRule(m: ModalState, document: Option<EditedDocument>, settled: Reply)
    ensures var (n, call) := Save(m, document, settled);
            && (document.None? || Trim(m.form.title) == "" ==>
                  call.None? && n == m.(alerts := m.alerts + [TitleRequired]))
            && (document.Some? && Trim(m.form.title) != "" ==>
                  && call == Some(SaveCall(document.value.id, Payload(m.form)))
                  && call.value.updates.title != ""
                  && !n.saving && n.form == m.form
                  && (n.closeCalls == m.closeCalls + 1 <==> settled.Done?)
                  && (settled.Failed? ==> n.alerts == m.alerts + [SaveFailed] && n.closeCalls == m.closeCalls))
  {
  }

  // ------------------------------------------------------------------
  // The component

  class DocumentEditModal {
    var formData: Form
    var saving: bool
    var alerts: seq<string>
    var closeCalls: nat

    function State(): ModalState
      reads this
    {
      ModalState(formData, saving, alerts, closeCalls)
    }

    constructor ()
      ensures State() == ModalState(InitialFormData, false, [], 0)
    {
      formData := InitialFormData;
      saving := false;
      alerts := [];
      closeCalls := 0;
    }

    /** The effect that runs when the `document` prop changes. */
    method LoadDocument(document: Option<EditedDocument>)
      modifies this
      ensures document.Some? ==> State() == old(State()).(form := FormOf(document.value))
      ensures document.None? ==> State() == old(State())
    {
      if document.Some? {
        var d := document.value;
        formData := Form(d.title, if d.description.Some? then d.description.value else "", d.documentType,
                         if d.folderId.Some? then d.folderId.value else "");
      }
    }

    method HandleSave(document: Option<EditedDocument>, settled: Reply) returns (call: Option<SaveCall>)
      modifies this
      ensures (State(), call) == Save(old(State()), document, settled)
    {
      if document.None? || Trim(formData.title) == "" {
        alerts := alerts + [TitleRequired];
        return None;
      }
      saving := true;
      var description := Trim(formData.description);
      var updates := Updates(Trim(formData.title), if description == "" then None else Some(description),
                             formData.documentType, if formData.folderId == "" then None else Some(formData.folderId));
      call := Some(SaveCall(document.value.id, updates));
      if settled.Done? {
        closeCalls := closeCalls + 1;
      } else {
        alerts := alerts + [SaveFailed];
      }
      saving := false;
    }

    /** handleCancel: restore the form from the document, then close. */
    method HandleCancel(document: Option<EditedDocument>)
      modifies this
      ensures document.Some? ==> formData == FormOf(document.value)
      ensures document.None? ==> formData == old(formData)
      ensures closeCalls == old(closeCalls) + 1
      ensures saving == old(saving) && alerts == old(alerts)
    {
      LoadDocument(document);
      closeCalls := closeCalls + 1;
    }
  }
}
