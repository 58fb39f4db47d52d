/** The upload form of the document Q&A page: the selected file, the loading
    flag and the status message with its kind. The request is split at its
    `await`: `StartSubmit` runs up to the request, `FinishSubmit` from the
    response (or the thrown error) on. */
module FileUploadComponent {
  import opened Wrappers

  const AllowedTypes: seq<string> := [
    "application/pdf",
    "application/msword",
    "application/vnd.openxmlformats-officedocument.wordprocessingml.document",
    "text/plain",
    "image/png",
    "image/jpeg",
    "image/jpg"
  ]

  const InvalidType := "Invalid file type. Please upload a valid document or image."
  const NoFileSelected := "Please select a file to upload."
  const MissingId := "Success! But document ID is missing."
  const SuccessPrefix := "Success! Document ID: "
  const ErrorPrefix := "Error: "
  const NoDetail := "Something went wrong"
  const NoErrorMessage := "Network error"

  /** A JavaScript string field read for truthiness: present and non-empty. */
  predicate Truthy(s: Option<string>) {
    s.Some? && s.value != ""
  }

  datatype SelectedFile = SelectedFile(name: string, mimeType: string)

  /** The JSON body of the upload reply: its `document_id` and `detail`. */
  datatype UploadData = UploadData(documentId: Option<string>, detail: Option<string>)

  /** How the request ended: a response (its `ok` flag and body) or a thrown
      error with its message. */
  datatype UploadOutcome = Response(ok: bool, data: UploadData) | Thrown(message: Option<string>)

  /** The status line under the form. */
  datatype Notice = Notice(text: string, kind: string)

  /** The notice a finished request leaves. */
  function SubmitNotice(outcome: UploadOutcome): (n: Notice)
    ensures n.kind == "success" <==> outcome.Response? && outcome.ok && Truthy(outcome.data.documentId)
    ensures n.kind == "warning" <==> outcome.Response? && outcome.ok && !Truthy(outcome.data.documentId)
    ensures n.kind == "error" <==> outcome.Thrown? || !outcome.ok
    ensures outcome.Response? && outcome.ok && Truthy(outcome.data.documentId) ==>
      n.text == SuccessPrefix + outcome.data.documentId.value
    ensures outcome.Response? && outcome.ok && !Truthy(outcome.data.documentId) ==> n.text == MissingId
  {
    match outcome
    case Response(ok, data) =>
      if ok then
        if Truthy(data.documentId) then Notice(SuccessPrefix + data.documentId.value, "success")
        else Notice(MissingId, "warning")
      else Notice(ErrorPrefix + (if Truthy(data.detail) then data.detail.value else NoDetail), "error")
    case Thrown(message) =>
      Notice(ErrorPrefix + (if Truthy(message) then message.value else NoErrorMessage), "error")
  }

  /** The argument `onFileUpload` is called with, if it is called at all. */
  function SubmitCallback(outcome: UploadOutcome): (c: Option<UploadData>)
    ensures c.Some? <==> outcome.Response? && outcome.ok && Truthy(outcome.data.documentId)
    ensures c.Some? ==> c.value == outcome.data
  {
    if outcome.Response? && outcome.ok && Truthy(outcome.data.documentId) then Some(outcome.data) else None
  }

  /** A failed request, by status or by exception, reports the server's
      detail or the error's message, falling back to fixed texts, and never
      reaches the parent. */
  lemma FailureNotice(outcome: UploadOutcome)
    requires outcome.Thrown? || !outcome.ok
    ensures SubmitCallback(outcome) == None
    ensures var n := SubmitNotice(outcome);
      && ErrorPrefix <= n.text
      && (outcome.Response? && Truthy(outcome.data.detail) ==> n.text == ErrorPrefix + outcome.data.detail.value)
      && (outcome.Response? && !Truthy(outcome.data.detail) ==> n.text == ErrorPrefix + NoDetail)
      && (outcome.Thrown? && Truthy(outcome.message) ==> n.text == ErrorPrefix + outcome.message.value)
      && (outcome.Thrown? && !Truthy(outcome.message) ==> n.text == ErrorPrefix + NoErrorMessage)
  {
  }

  class FileUpload {
    var file: Option<SelectedFile>
    var loading: bool
    var message: string
    var messageType: string

    constructor ()
      ensures file == None && !loading && message == "" && messageType == ""
    {
      file := None;
      loading := false;
      message := "";
      messageType := "";
    }

    /** The submit button is disabled with no file or while loading. */
    function ButtonDisabled(): bool
      reads this
    {
      file.None? || loading
    }

    method ShowMessage(msg: string, kind: string)
      modifies this
      ensures message == msg && messageType == kind
      ensures file == old(file) && loading == old(loading)
    {
      message := msg;
      messageType := kind;
    }

    /** `handleFileChange`: no file changes nothing; a type outside the
        allow-list clears the file and shows an error; an allowed one is
        kept and clears the message, leaving its kind as it was. */
    method HandleFileChange(selected: Option<SelectedFile>)
      modifies this
      ensures loading == old(loading)
      ensures selected.None? ==>
        file == old(file) && message == old(message) && messageType == old(messageType)
      ensures selected.Some? && selected.value.mimeType !in AllowedTypes ==>
        file == None && message == InvalidType && messageType == "error"
      ensures selected.Some? && selected.value.mimeType in AllowedTypes ==>
        file == selected && message == "" && messageType == old(messageType)
    {
      if selected.Some? {
        if selected.value.mimeType !in AllowedTypes {
          ShowMessage(InvalidType, "error");
          file := None;
          return;
        }
        file := selected;
        message := "";
      }
    }

    /** `handleSubmit` up to the request: with no file it shows an error and
        sends nothing; otherwise it sets `loading`, which disables the button. */
    method StartSubmit() returns (sent: bool)
      modifies this
      ensures sent <==> old(file).Some?
      ensures file == old(file)
      ensures !sent ==> message == NoFileSelected && messageType == "error" && loading == old(loading)
      ensures sent ==> loading && ButtonDisabled() && message == old(message) && messageType == old(messageType)
    {
      if file.None? {
        ShowMessage(NoFileSelected, "error");
        return false;
      }
      loading := true;
      sent := true;
    }

    /** `handleSubmit` from the response on: the notice for the outcome, the
        parent called back only on an ok reply with a document id, and
        `loading` cleared on every path. */
    method FinishSubmit(outcome: UploadOutcome) returns (callback: Option<UploadData>)
      modifies this
      ensures message == SubmitNotice(outcome).text && messageType == SubmitNotice(outcome).kind
      ensures callback == SubmitCallback(outcome)
      ensures file == old(file) && !loading
      ensures ButtonDisabled() <==> file.None?
    {
      callback := None;
      match outcome {
        case Response(ok, data) =>
          if ok {
            if data.documentId.Some? && data.documentId.value != "" {
              ShowMessage(SuccessPrefix + data.documentId.value, "success");
              callback := Some(data);
            } else {
              ShowMessage(MissingId, "warning");
            }
          } else {
            var detail := if data.detail.Some? && data.detail.value != "" then data.detail.value else NoDetail;
            ShowMessage(ErrorPrefix + detail, "error");
          }
        case Thrown(msg) =>
          var text := if msg.Some? && msg.value != "" then msg.value else NoErrorMessage;
          ShowMessage(ErrorPrefix + text, "error");
      }
      loading := false;
    }
  }
}
