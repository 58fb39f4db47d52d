/** The document Q&A page: the uploaded document's id, the latest answer
    and the page-level error, and which sections they make visible. */
module HomePage {
  import opened Wrappers
  import FileUploadComponent

  const UploadFailed := "File upload failed. Please try again."

  /** What `handleFileUpload` accepts: a result with a truthy `document_id`. */
  predicate AcceptsUpload(doc: Option<FileUploadComponent.UploadData>) {
    doc.Some? && FileUploadComponent.Truthy(doc.value.documentId)
  }

  /** The upload form only ever calls back with a result the page accepts,
      so the page's "upload failed" message cannot come from it. */
  lemma CallbackAccepted(outcome: FileUploadComponent.UploadOutcome)
    ensures var c := FileUploadComponent.SubmitCallback(outcome);
      c.Some? ==> AcceptsUpload(c)
  {
  }

  class Home {
    var documentId: Option<string>
    var response: string
    var error: Option<string>

    /** A stored document id is never the empty string, so "non-null" and
        "truthy" agree for it. */
    predicate Valid()
      reads this
    {
      documentId.None? || documentId.value != ""
    }

    constructor ()
      ensures documentId == None && response == "" && error == None
      ensures Valid()
    {
      documentId := None;
      response := "";
      error := None;
    }

    /** The Q&A section is rendered once a document id is held. */
    function ShowsQnA(): (r: bool)
      reads this
      requires Valid()
      ensures r <==> documentId.Some?
    {
      FileUploadComponent.Truthy(documentId)
    }

    /** The answer and the fact-check button are rendered inside the Q&A
        section, and only for a non-empty answer. */
    function ShowsResponse(): (r: bool)
      reads this
      requires Valid()
      ensures r <==> documentId.Some? && response != ""
    {
      ShowsQnA() && response != ""
    }

    /** `handleFileUpload`: an accepted result stores its id and clears the
        error; anything else sets the error and keeps the id. */
    method HandleFileUpload(uploadedDoc: Option<FileUploadComponent.UploadData>)
      requires Valid()
      modifies this
      ensures Valid()
      ensures response == old(response)
      ensures AcceptsUpload(uploadedDoc) ==> documentId == uploadedDoc.value.documentId && error == None
      ensures !AcceptsUpload(uploadedDoc) ==> documentId == old(documentId) && error == Some(UploadFailed)
    {
      if uploadedDoc.Some? && uploadedDoc.value.documentId.Some? && uploadedDoc.value.documentId.value != "" {
        documentId := uploadedDoc.value.documentId;
        error := None;
      } else {
        error := Some(UploadFailed);
      }
    }

    /** `onResponse={setResponse}`, handed to the Q&A form. */
    method SetResponse(answer: string)
      requires Valid()
      modifies this
      ensures Valid()
      ensures response == answer && documentId == old(documentId) && error == old(error)
    {
      response := answer;
    }
  }
}
