/** The HTTP endpoints of the document Q&A back end: MIME-type dispatch for
    text extraction, the upload route with its error mapping, and the
    response shaping of the Q&A and fact-check routes. File readers, the MIME
    guesser and the models behind the routes are oracles. */
module Api {
  import opened Wrappers
  import Qna
  import FactCheck

  /** A raised `HTTPException`. */
  datatype HttpError = HttpError(status: nat, detail: string)

  const PdfMime := "application/pdf"
  const DocxMime := "application/vnd.openxmlformats-officedocument.wordprocessingml.document"
  const TextMime := "text/plain"
  const AcceptedMimes: seq<string> := [PdfMime, DocxMime, TextMime, "image/png", "image/jpeg", "image/jpg"]

  const ExtractFailed := "Failed to extract text from the uploaded file."
  const UnknownType := "Could not determine file type."
  const UploadErrorPrefix := "Error processing file: "
  const QnaErrorPrefix := "Error during Q&A: "
  /** What calling `.get` on the string `process_document` returns raises. */
  const NoGet := "'str' object has no attribute 'get'"

  /** The reader `extract_text_from_file` picks. */
  datatype FileKind = PdfFile | DocxFile | PlainText | ImageFile

  function Digit(d: nat): char
    requires d < 10
  {
    "0123456789"[d]
  }

  /** The decimal notation of a status code. */
  function Decimal(n: nat): (r: string)
    ensures |r| >= 1
  {
    if n < 10 then [Digit(n)] else Decimal(n / 10) + [Digit(n % 10)]
  }

  /** `str(e)` of an `HTTPException`: status code, colon, detail. */
  function HttpErrorText(e: HttpError): string {
    Decimal(e.status) + ": " + e.detail
  }

  /** A 400 error reads "400: " followed by its detail. */
  lemma BadRequestText(detail: string)
    ensures HttpErrorText(HttpError(400, detail)) == "400: " + detail
  {
    assert Decimal(4) == "4";
    assert Decimal(40) == "40";
    assert Decimal(400) == "400";
  }

  /** The dispatch of `extract_text_from_file` on the MIME type. */
  function KindOf(mime: string): (r: Option<FileKind>)
    ensures r == Some(PdfFile) <==> mime == PdfMime
    ensures r == Some(DocxFile) <==> mime == DocxMime
    ensures r == Some(PlainText) <==> mime == TextMime
  {
    if mime == PdfMime then Some(PdfFile)
    else if mime == DocxMime then Some(DocxFile)
    else if mime == TextMime then Some(PlainText)
    else if mime in ["image/png", "image/jpeg", "image/jpg"] then Some(ImageFile)
    else None
  }

  /** Exactly the six listed MIME types have a reader. */
  lemma KindOfAccepts(mime: string)
    ensures KindOf(mime).Some? <==> mime in AcceptedMimes
    ensures KindOf(mime) == Some(ImageFile) <==> mime in AcceptedMimes[3..]
  {
    assert AcceptedMimes[3..] == ["image/png", "image/jpeg", "image/jpg"];
  }

  /** `extract_text_from_file`: the reader for the type (`None` when it
      raised); an unsupported type and a failing reader both become the same
      400 error. */
  function ExtractTextFromFile(mime: string, read: FileKind -> Option<string>): (r: Result<string, HttpError>)
    ensures r.Err? <==> mime !in AcceptedMimes || read(KindOf(mime).value).None?
    ensures r.Err? ==> r.error == HttpError(400, ExtractFailed)
    ensures r.Ok? ==> Some(r.value) == read(KindOf(mime).value)
  {
    KindOfAccepts(mime);
    match KindOf(mime)
    case None => Err(HttpError(400, ExtractFailed))
    case Some(kind) =>
      match read(kind)
      case None => Err(HttpError(400, ExtractFailed))
      case Some(text) => Ok(text)
  }

  /** `upload_document`: every upload ends in a 500 error. A request with a
      type the guesser cannot name or that the extractor refuses never
      reaches `process_document`; one that does has the document stored and
      indexed exactly as `process_document` does (under the bare file name),
      and then fails on the `.get` call on the string it returned. */
  method UploadDocument<V>(backend: Qna.Backend<V>, filename: string,
                           guessType: string -> Option<string>,
                           readUpload: FileKind -> Option<string>,
                           read: Qna.Format -> Result<seq<string>, string>, embed: string -> V)
    returns (r: HttpError)
    modifies backend
    ensures r.status == 500 && UploadErrorPrefix <= r.detail
    ensures var path := Qna.UploadDir + filename;
      var t := guessType(path);
      var same := backend.documents == old(backend.documents) && backend.index == old(backend.index);
      if t.None? || t.value == "" then
        r.detail == UploadErrorPrefix + HttpErrorText(HttpError(400, UnknownType)) && same
      else if ExtractTextFromFile(t.value, readUpload).Err? then
        r.detail == UploadErrorPrefix + HttpErrorText(HttpError(400, ExtractFailed)) && same
      else
        var processed := Qna.ExtractText(path, read);
        if processed.Err? then
          r.detail == UploadErrorPrefix + processed.error.message && same
        else
          && backend.documents == old(backend.documents)[filename := processed.value]
          && (processed.value == "" ==>
                r.detail == UploadErrorPrefix + Qna.NoVectorsError.message && backend.index == old(backend.index))
          && (processed.value != "" ==>
                && r.detail == UploadErrorPrefix + NoGet
                && backend.index == old(backend.index) + Qna.Embeddings(Qna.Chunks(processed.value), embed))
  {
    var path := Qna.UploadDir + filename;
    var fileType := guessType(path);
    if fileType.None? || fileType.value == "" {
      return HttpError(500, UploadErrorPrefix + HttpErrorText(HttpError(400, UnknownType)));
    }
    var extracted := ExtractTextFromFile(fileType.value, readUpload);
    if extracted.Err? {
      return HttpError(500, UploadErrorPrefix + HttpErrorText(extracted.error));
    }
    var result := backend.ProcessDocument(filename, read, embed);
    if result.Err? {
      return HttpError(500, UploadErrorPrefix + result.error.message);
    }
    r := HttpError(500, UploadErrorPrefix + NoGet);
  }

  /** The body of a Q&A reply: `{"response": ...}` alone, or with `"source"`. */
  datatype QnaResponse = QnaResponse(response: string, source: Option<string>)

  /** `ask_qna`, with `query_document` called as written: the question in the
      file-name position and the document text in the question position. */
  function AskQna<V>(backend: Qna.Backend<V>, question: string, documentText: string,
                     embed: string -> V, nearest: (seq<V>, V) -> int,
                     generate: string -> Qna.GenOutcome): (r: Result<QnaResponse, HttpError>)
    reads backend
    ensures question !in backend.documents ==> r == Ok(QnaResponse(Qna.NotFound, None))
    ensures r.Ok? && r.value.source.Some? ==> r.value.source.value == question
    ensures r.Err? ==> r.error.status == 500 && QnaErrorPrefix <= r.error.detail
    ensures var d := backend.QueryDocument(question, documentText, embed, nearest, generate);
      && (d.Ok? && d.value.Answered? ==> r == Ok(QnaResponse(d.value.answer, Some(d.value.source))))
      && (d.Ok? && d.value.Failed? ==> r == Ok(QnaResponse(d.value.error, None)))
      && (d.Err? ==> r == Err(HttpError(500, QnaErrorPrefix + d.error.message)))
  {
    match backend.QueryDocument(question, documentText, embed, nearest, generate)
    case Err(e) => Err(HttpError(500, QnaErrorPrefix + e.message))
    case Ok(Failed(error)) => Ok(QnaResponse(error, None))
    case Ok(Answered(_, answer, source)) => Ok(QnaResponse(answer, Some(source)))
  }

  /** The document text sent with a question never selects the document:
      two requests with the same question and different texts look up the
      same entry, and a question naming no stored file is always answered
      with the not-found error. */
  lemma AskQnaKeyedByQuestion<V>(backend: Qna.Backend<V>, question: string, text1: string, text2: string,
                                 embed: string -> V, nearest: (seq<V>, V) -> int,
                                 generate: string -> Qna.GenOutcome)
    ensures var r1 := AskQna(backend, question, text1, embed, nearest, generate);
      var r2 := AskQna(backend, question, text2, embed, nearest, generate);
      && (r1.Ok? && r1.value.source.Some? ==> r1.value.source == Some(question))
      && (question !in backend.documents ==> r1 == r2)
  {
  }

  /** The body of a fact-check reply. */
  datatype FactCheckResponse =
    | ErrorResponse(response: string)
    | CheckedResponse(claim: string, verifiedSources: map<string, seq<string>>, confidenceScore: int)

  /** The `/fact-check/` route: the error alone, or the claim echoed with
      the sources and the score. */
  function FactCheckRoute(claim: string, fetch: string -> FactCheck.SearchOutcome): (r: FactCheckResponse)
    ensures var v := FactCheck.FactCheckLegalClaim(claim, fetch);
      && (v.VerdictError? ==> r == ErrorResponse(v.error))
      && (v.Checked? ==> r.CheckedResponse? && r.verifiedSources == v.verifiedSources
                         && r.confidenceScore == v.confidenceScore)
    ensures r.CheckedResponse? ==>
      && r.claim == claim
      && r.verifiedSources == FactCheck.SourceResults(claim, FactCheck.DefaultMaxResults, fetch)
      && r.confidenceScore == FactCheck.TotalLinks(r.verifiedSources, FactCheck.LegalSources)
  {
    match FactCheck.FactCheckLegalClaim(claim, fetch)
    case VerdictError(error) => ErrorResponse(error)
    case Checked(_, sources, score) => CheckedResponse(claim, sources, score)
  }

  /** The route never answers with an error: it echoes the claim, keys the
      sources by the three legal domains and scores between 3 and 9. */
  lemma FactCheckRouteOutcome(claim: string, fetch: string -> FactCheck.SearchOutcome)
    ensures var r := FactCheckRoute(claim, fetch);
      && r.CheckedResponse?
      && r.claim == claim
      && r.verifiedSources.Keys == set d | d in FactCheck.LegalSources
      && 3 <= r.confidenceScore <= 9
  {
    FactCheck.FactCheckOutcome(claim, fetch);
  }
}
