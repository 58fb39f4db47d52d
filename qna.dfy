/** The document Q&A back end: text extraction dispatch, the documents table,
    the process-wide vector index, fixed-width 512-character chunking, the
    nearest-chunk lookup and the three-way answer of `query_document`.
    Embedding, nearest-neighbour search, the document readers and the language
    model are oracles passed in as functions. */
module Qna {
  import opened Wrappers
  import opened Text
  import Slicing

  const ChunkSize: nat := 512
  const UploadDir := "uploaded_docs/"
  const UnsupportedFormat := "Unsupported file format. Please upload a PDF or DOCX."
  const NotFound := "Document not found or no relevant information available."
  const AiFailedPrefix := "AI processing failed: "
  /** What `faiss_index.add` raises for the embeddings of an empty chunk list:
      `encode([])` gives a one-dimensional empty array, and unpacking its
      shape into `n, d` fails. */
  const NoVectorsError := Exception(ValueError, "not enough values to unpack (expected 2, got 1)")

  /** The two formats `extract_text` has a reader for. */
  datatype Format = Pdf | Docx

  /** What the language model call gives: the response's text, or the message
      of the exception it raised (including a response without text). */
  datatype GenOutcome = Generated(text: string) | GenFailed(detail: string)

  /** The dictionary `query_document` returns. */
  datatype Reply =
    | Answered(question: string, answer: string, source: string)
    | Failed(error: string)

  // ---------------------------------------------------------------- chunking

  /** The chunks `[text[i:i+512] for i in range(0, len(text), 512)]`. */
  function Chunks(text: string): (r: seq<string>)
    ensures r == [] <==> text == ""
    ensures forall k :: 0 <= k < |r| ==> 0 < |r[k]| <= ChunkSize
  {
    Slicing.SlicesShape(text, ChunkSize);
    Slicing.Slices(text, ChunkSize)
  }

  /** Joining the chunks reproduces the text exactly. */
  lemma ChunksRoundTrip(text: string)
    ensures Slicing.Flatten(Chunks(text)) == text
  {
    Slicing.FlattenSlices(text, ChunkSize);
  }

  /** Every chunk is non-empty and at most 512 characters, all but the last
      are exactly 512, and there are ceil(len / 512) of them; an empty text
      has no chunk and a text of at most 512 characters is its only chunk. */
  lemma ChunksShape(text: string)
    ensures var c := Chunks(text);
      (forall k :: 0 <= k < |c| ==> 0 < |c[k]| <= ChunkSize) &&
      (forall k :: 0 <= k < |c| - 1 ==> |c[k]| == ChunkSize) &&
      |c| == (|text| + ChunkSize - 1) / ChunkSize &&
      (text == "" ==> c == []) &&
      (0 < |text| <= ChunkSize ==> c == [text])
  {
    Slicing.SlicesShape(text, ChunkSize);
    if |text| <= ChunkSize {
      Slicing.SlicesOfShort(text, ChunkSize);
    }
  }

  /** Chunk `k` is the 512-character window of the text starting at `512 * k`. */
  lemma ChunkAt(text: string, k: nat)
    requires k < |Chunks(text)|
    ensures k * ChunkSize < |text|
    ensures Chunks(text)[k] == text[k * ChunkSize..Slicing.Min(k * ChunkSize + ChunkSize, |text|)]
  {
    Slicing.SlicesAt(text, ChunkSize, k);
  }

  /** One embedding per chunk, in chunk order (`embedding_model.encode(chunks)`). */
  function Embeddings<V>(chunks: seq<string>, embed: string -> V): (vs: seq<V>)
    ensures |vs| == |chunks|
  {
    seq(|chunks|, i requires 0 <= i < |chunks| => embed(chunks[i]))
  }

  // -------------------------------------------------------- text extraction

  /** `path.split(".")[-1].lower()`. */
  function Extension(path: string): string {
    Lower(AfterLast(path, '.'))
  }

  /** The reader `extract_text` dispatches to, or the ValueError it raises. */
  function FormatOf(path: string): (r: Result<Format, Exception>)
    ensures r == Ok(Pdf) <==> Extension(path) == "pdf"
    ensures r == Ok(Docx) <==> Extension(path) == "docx"
    ensures r.Err? ==> r.error == Exception(ValueError, UnsupportedFormat)
  {
    var ext := Extension(path);
    if ext == "pdf" then Ok(Pdf)
    else if ext == "docx" then Ok(Docx)
    else Err(Exception(ValueError, UnsupportedFormat))
  }

  /** A path ending in `.` + an extension without dots is dispatched on that
      extension, whatever its letter case. */
  lemma FormatOfDotted(stem: string, ext: string)
    requires '.' !in ext
    ensures FormatOf(stem + "." + ext) ==
      if Lower(ext) == "pdf" then Ok(Pdf)
      else if Lower(ext) == "docx" then Ok(Docx)
      else Err(Exception(ValueError, UnsupportedFormat))
  {
    AfterLastOfJoin(stem, '.', ext);
  }

  /** An uploaded file whose name has no dot is always refused: the extension
      test then sees the whole upload path. */
  lemma DotlessUploadRefused(filename: string)
    requires '.' !in filename
    ensures FormatOf(UploadDir + filename) == Err(Exception(ValueError, UnsupportedFormat))
  {
    var path := UploadDir + filename;
    assert '.' !in path by {
      assert forall i :: 0 <= i < |path| ==> path[i] == if i < |UploadDir| then UploadDir[i] else filename[i - |UploadDir|];
    }
    assert |Extension(path)| == |path| >= |UploadDir|;
  }

  /** `"\n".join(parts)`. */
  function JoinLines(parts: seq<string>): string {
    if parts == [] then ""
    else if |parts| == 1 then parts[0]
    else parts[0] + "\n" + JoinLines(parts[1..])
  }

  /** The page texts that are truthy (`if page.extract_text()`). */
  function NonEmpty(parts: seq<string>): (r: seq<string>)
    ensures forall p :: p in r ==> p != "" && p in parts
    ensures r == [] <==> forall p :: p in parts ==> p == ""
  {
    if parts == [] then []
    else if parts[0] == "" then
      assert forall p :: p in parts <==> p == parts[0] || p in parts[1..];
      NonEmpty(parts[1..])
    else
      assert parts[0] in parts;
      [parts[0]] + NonEmpty(parts[1..])
  }

  /** The paragraph texts that are not blank (`if para.text.strip()`). */
  function NonBlank(parts: seq<string>): (r: seq<string>)
    ensures forall p :: p in r ==> !IsBlank(p, Python) && p in parts
    ensures r == [] <==> forall p :: p in parts ==> IsBlank(p, Python)
  {
    if parts == [] then []
    else if IsBlank(parts[0], Python) then
      assert forall p :: p in parts <==> p == parts[0] || p in parts[1..];
      NonBlank(parts[1..])
    else
      assert parts[0] in parts;
      [parts[0]] + NonBlank(parts[1..])
  }

  /** Joining non-empty parts gives "" exactly when there are no parts. */
  lemma {:induction false} JoinLinesEmpty(parts: seq<string>)
    requires forall p :: p in parts ==> p != ""
    ensures JoinLines(parts) == "" <==> parts == []
  {
    if |parts| > 1 {
      assert parts[0] in parts;
    } else if |parts| == 1 {
      assert parts[0] in parts;
    }
  }

  /** `extract_text(path)`: `read` is what pypdf (the page texts) or
      python-docx (the paragraph texts) gives for the file, or the text of
      the exception the library raises. Only "pdf" and "docx" reach a reader. */
  function ExtractText(path: string, read: Format -> Result<seq<string>, string>): (r: Result<string, Exception>)
    ensures r.Err? <==> FormatOf(path).Err? || read(FormatOf(path).value).Err?
    ensures r.Err? ==> r.error == Exception(ValueError, UnsupportedFormat) || r.error.kind == LibraryError
  {
    match FormatOf(path)
    case Err(e) => Err(e)
    case Ok(f) =>
      match read(f)
      case Err(message) => Err(Exception(LibraryError, message))
      case Ok(parts) =>
        Ok(JoinLines(if f == Pdf then NonEmpty(parts) else NonBlank(parts)))
  }

  /** Extraction succeeds with empty text exactly when every PDF page, or
      every DOCX paragraph, has no text; such a document is stored with empty
      content. */
  lemma ExtractedEmptyIff(path: string, read: Format -> Result<seq<string>, string>)
    requires FormatOf(path).Ok? && read(FormatOf(path).value).Ok?
    ensures var parts := read(FormatOf(path).value).value;
      ExtractText(path, read) == Ok("") <==>
        if FormatOf(path).value == Pdf then forall p :: p in parts ==> p == ""
        else forall p :: p in parts ==> IsBlank(p, Python)
  {
    var parts := read(FormatOf(path).value).value;
    if FormatOf(path).value == Pdf {
      JoinLinesEmpty(NonEmpty(parts));
    } else {
      var kept := NonBlank(parts);
      forall p | p in kept ensures p != "" {
        assert !IsBlank(p, Python);
      }
      JoinLinesEmpty(kept);
    }
  }

  // ------------------------------------------------------------ the prompt

  const PromptHead := "\n    You are a legal assistant. Answer based on the document below.\n\n    Document Context:\n    "
  const PromptMiddle := "\n\n    Question: "
  const PromptTail := "\n    "

  /** The f-string prompt of `query_document`, its indentation included. */
  function Prompt(context: string, question: string): (r: string)
    ensures |r| == |PromptHead| + |context| + |PromptMiddle| + |question| + |PromptTail|
    ensures PromptHead <= r
    ensures r[|PromptHead|..|PromptHead| + |context|] == context
    ensures r[|r| - |PromptTail| - |question|..|r| - |PromptTail|] == question
  {
    PromptHead + context + PromptMiddle + question + PromptTail
  }

  /** The prompt carries both the retrieved context and the question. */
  lemma PromptCarries(context: string, question: string)
    ensures Contains(Prompt(context, question), context)
    ensures Contains(Prompt(context, question), question)
  {
    var head := PromptHead;
    var mid := PromptMiddle;
    var p := Prompt(context, question);
    assert p == head + context + mid + question + "\n    ";
    assert p[|head|..|head| + |context|] == context;
    assert OccursAt(p, context, |head|);
    var j := |head| + |context| + |mid|;
    assert p[j..j + |question|] == question;
    assert OccursAt(p, question, j);
    ContainsIffOccurs(p, context);
    ContainsIffOccurs(p, question);
  }

  // --------------------------------------------------------- the back end

  /** The module-level state of the Q&A back end: the MySQL `documents` table
      (unique `filename` to `content`) and the process-wide FAISS index, whose
      positions are insertion ranks. */
  class Backend<V> {
    var documents: map<string, string>
    var index: seq<V>

    /** Start-up: the index is read back from its file when one exists,
        otherwise it starts empty. */
    constructor (table: map<string, string>, persisted: Option<seq<V>>)
      ensures documents == table
      ensures index == if persisted.Some? then persisted.value else []
    {
      documents := table;
      index := if persisted.Some? then persisted.value else [];
    }

    /** `store_document_in_db`: INSERT ... ON DUPLICATE KEY UPDATE, an upsert
        keyed by filename. */
    method StoreDocument(filename: string, content: string)
      modifies this
      ensures documents == old(documents)[filename := content]
      ensures forall f :: f in old(documents) && f != filename ==> f in documents && documents[f] == old(documents)[f]
      ensures index == old(index)
    {
      documents := documents[filename := content];
    }

    /** `faiss_index.add`: append in order after the existing vectors. */
    method AddVectors(vectors: seq<V>)
      modifies this
      ensures index == old(index) + vectors
      ensures old(index) <= index
      ensures documents == old(documents)
    {
      index := index + vectors;
    }

    /** `process_document`: extract, upsert the text, chunk it, and append
        one vector per chunk to the shared index, which is never reset. An
        extraction error propagates and changes nothing. An empty text is
        still upserted, but has no chunks, and adding their embeddings
        raises. */
    method ProcessDocument(filename: string, read: Format -> Result<seq<string>, string>, embed: string -> V)
      returns (r: Result<string, Exception>)
      modifies this
      ensures var extracted := ExtractText(UploadDir + filename, read);
        if extracted.Err? then
          r == Err(extracted.error) && documents == old(documents) && index == old(index)
        else
          && documents == old(documents)[filename := extracted.value]
          && (extracted.value == "" ==> r == Err(NoVectorsError) && index == old(index))
          && (extracted.value != "" ==>
                && r == Ok("Document '" + filename + "' processed successfully.")
                && index == old(index) + Embeddings(Chunks(extracted.value), embed))
    {
      var path := UploadDir + filename;
      var extracted := ExtractText(path, read);
      if extracted.Err? {
        return Err(extracted.error);
      }
      var text := extracted.value;
      StoreDocument(filename, text);
      var chunks := Chunks(text);
      ChunksShape(text);
      if chunks == [] {
        return Err(NoVectorsError);
      }
      AddVectors(Embeddings(chunks, embed));
      r := Ok("Document '" + filename + "' processed successfully.");
    }

    /** `search_relevant_text`: look the file up, re-chunk its text, ask the
        index for the position nearest to the query's embedding and resolve
        that position against THIS document's chunks with Python indexing,
        rejecting only positions at or past the chunk count. */
    function SearchRelevantText(fileName: string, query: string, embed: string -> V,
                                nearest: (seq<V>, V) -> int): (r: Result<string, Exception>)
      reads this
      ensures fileName !in documents || documents[fileName] == "" ==> r == Ok("")
      ensures r.Ok? && r.value != "" ==>
        fileName in documents && r.value in Chunks(documents[fileName])
      ensures r.Err? ==> r.error.kind == IndexError
    {
      if fileName !in documents || documents[fileName] == "" then Ok("")
      else
        var chunks := Chunks(documents[fileName]);
        var i := nearest(index, embed(query));
        if i < |chunks| then Slicing.PyIndex(chunks, i) else Ok("")
    }

    /** `query_document`: no relevant text gives the not-found error without
        calling the model; otherwise the model's answer with the file name as
        source, or the "AI processing failed" error. */
    function QueryDocument(fileName: string, question: string, embed: string -> V,
                           nearest: (seq<V>, V) -> int, generate: string -> GenOutcome)
      : (r: Result<Reply, Exception>)
      reads this
      ensures SearchRelevantText(fileName, question, embed, nearest) == Ok("") ==>
        r == Ok(Failed(NotFound))
      ensures r.Ok? && r.value.Answered? ==>
        r.value.question == question && r.value.source == fileName
      ensures r.Ok? && r.value.Failed? ==>
        r.value.error == NotFound || AiFailedPrefix <= r.value.error
    {
      match SearchRelevantText(fileName, question, embed, nearest)
      case Err(e) => Err(e)
      case Ok(relevant) =>
        if relevant == "" then Ok(Failed(NotFound))
        else
          match generate(Prompt(relevant, question))
          case Generated(answer) => Ok(Answered(question, answer, fileName))
          case GenFailed(detail) => Ok(Failed(AiFailedPrefix + detail))
    }
  }

  /** Where the search lands. The position comes from an index that holds the
      vectors of every document ever processed, but it is resolved against the
      chunks of the requested document only: a position in `0 .. n - 1` (n the
      number of its chunks) gives the 512-character window of its text at
      that position, a negative one down to `-n` counts from the last chunk,
      anything from `n` on (including positions of other documents' vectors)
      gives "", and anything below `-n` raises IndexError. */
  lemma SearchResolves<V>(b: Backend<V>, fileName: string, query: string,
                          embed: string -> V, nearest: (seq<V>, V) -> int)
    requires fileName in b.documents && b.documents[fileName] != ""
    ensures var text := b.documents[fileName];
      var n := |Chunks(text)|;
      var i := nearest(b.index, embed(query));
      var p := if i >= 0 then i else n + i;
      var r := b.SearchRelevantText(fileName, query, embed, nearest);
      && n > 0
      && (i >= n ==> r == Ok(""))
      && (i < -n ==> r.Err? && r.error.kind == IndexError)
      && (-n <= i < n ==> p * ChunkSize < |text| &&
                          r == Ok(text[p * ChunkSize..Slicing.Min(p * ChunkSize + ChunkSize, |text|)]))
  {
    var text := b.documents[fileName];
    var n := |Chunks(text)|;
    var i := nearest(b.index, embed(query));
    ChunksShape(text);
    if -n <= i < n {
      ChunkAt(text, if i >= 0 then i else n + i);
    }
  }

  /** FAISS's `search` with k=1 gives -1 (no neighbour) or a position in the
      index, never less, so the IndexError of the lookup is never raised in
      practice; a -1 picks the document's last chunk, as `chunks[-1]` does. */
  lemma FaissSearchNeverRaises<V>(b: Backend<V>, fileName: string, query: string,
                                  embed: string -> V, nearest: (seq<V>, V) -> int)
    requires -1 <= nearest(b.index, embed(query))
    ensures b.SearchRelevantText(fileName, query, embed, nearest).Ok?
    ensures fileName in b.documents && b.documents[fileName] != "" && nearest(b.index, embed(query)) == -1 ==>
      var chunks := Chunks(b.documents[fileName]);
      |chunks| > 0 && b.SearchRelevantText(fileName, query, embed, nearest) == Ok(chunks[|chunks| - 1])
  {
  }

  /** The search answers "" exactly when the file is unknown, its text is
      empty, or the position is at or past its chunk count: a found chunk is
      never empty. */
  lemma SearchEmptyIff<V>(b: Backend<V>, fileName: string, query: string,
                          embed: string -> V, nearest: (seq<V>, V) -> int)
    ensures b.SearchRelevantText(fileName, query, embed, nearest) == Ok("") <==>
      (fileName !in b.documents || b.documents[fileName] == "" ||
       nearest(b.index, embed(query)) >= |Chunks(b.documents[fileName])|)
  {
    if fileName in b.documents && b.documents[fileName] != "" {
      ChunksShape(b.documents[fileName]);
    }
  }

  /** With no relevant text the model is never consulted: the reply is the
      same not-found error whatever the model would have said. */
  lemma QueryIgnoresModelWithoutContext<V>(b: Backend<V>, fileName: string, question: string,
                                           embed: string -> V, nearest: (seq<V>, V) -> int,
                                           g1: string -> GenOutcome, g2: string -> GenOutcome)
    requires fileName !in b.documents || b.documents[fileName] == "" ||
             nearest(b.index, embed(question)) >= |Chunks(b.documents[fileName])|
    ensures b.QueryDocument(fileName, question, embed, nearest, g1) == Ok(Failed(NotFound))
    ensures b.QueryDocument(fileName, question, embed, nearest, g2) == Ok(Failed(NotFound))
  {
    SearchEmptyIff(b, fileName, question, embed, nearest);
  }

  /** With relevant text, the reply is decided by the model call on a prompt
      carrying that text and the question: its answer, or its failure. */
  lemma QueryWithContext<V>(b: Backend<V>, fileName: string, question: string,
                            embed: string -> V, nearest: (seq<V>, V) -> int,
                            generate: string -> GenOutcome)
    requires var s := b.SearchRelevantText(fileName, question, embed, nearest); s.Ok? && s.value != ""
    ensures var ctx := b.SearchRelevantText(fileName, question, embed, nearest).value;
      var prompt := Prompt(ctx, question);
      var r := b.QueryDocument(fileName, question, embed, nearest, generate);
      && Contains(prompt, ctx) && Contains(prompt, question)
      && (generate(prompt).Generated? ==> r == Ok(Answered(question, generate(prompt).text, fileName)))
      && (generate(prompt).GenFailed? ==> r == Ok(Failed(AiFailedPrefix + generate(prompt).detail)))
  {
    var ctx := b.SearchRelevantText(fileName, question, embed, nearest).value;
    PromptCarries(ctx, question);
  }
}
