# Legal document Q&A and chatbot — a verified Dafny model

This project models the core of a legal-assistant system with two parts.

The first part is a document Q&A service. A FastAPI back end:
- extracts text from uploaded PDF/DOCX files;
- stores it in a `documents` table keyed by file name;
- cuts it into 512-character chunks and appends one vector per chunk to a process-wide FAISS index;
- answers questions by looking up the nearest chunk and prompting a language model.

The same back end also fact-checks legal claims against three legal web sites and serves a cached digest of Indian legal news. A React front end drives it: the upload form, the question form and the page that gates them.

The second part is a legal chatbot. It has a batch ingestion script, which embeds PDF chunks in batches of 100 and merges the per-batch vector stores. It also has a chat view with its input box.

## How the model is built

Code that computes a value is modelled by functions and lemmas. Code that changes state step by step is modelled by classes and methods:
- the Q&A back end's table and index (`Qna.Backend`);
- the in-place metadata loop and the store merge of the ingestion script;
- the news service's cache file;
- each React component's state.

List-building loops (`fetch_google_news`, `scrape_source`, `scrape_all_sources`, `summarize_news`, the link filter of `search_legal_sources`) are methods with loop invariants. Each is proved equal to a pure function that defines its result, and the lemmas state the properties of those functions.

Everything foreign is a function-typed parameter:
- embedding models, nearest-neighbour search, Gemini;
- PDF/DOCX/OCR readers, the MIME guesser;
- HTTP fetches, and feed and HTML parsing;
- the clock.

An `async` handler is split at its `await` into a method that runs up to the request and one that runs from the reply on.

The model keeps the behaviour of the code as written, including the points below, each of which is stated and proved.
- **The global index.** The index holds the vectors of every document ever processed. `search_relevant_text` resolves the nearest position against the chunks of the requested document only:
  - a position at or past its chunk count gives "";
  - a negative position counts from the end, as Python indexing does;
  - a position below minus the chunk count raises IndexError (`Qna.SearchResolves`).
- **Upload always fails.** `upload_document` ends in a 500 on every path. Its blanket handler wraps the inner 400s. When `process_document` succeeds, it returns a string, and calling `.get` on that string raises (`Api.UploadDocument`).
- **`ask_qna` argument order.** `ask_qna` passes the question where `query_document` expects the file name, and the document text where it expects the question. The document looked up is therefore the one named by the question (`Api.AskQnaKeyedByQuestion`).
- **Fact-check scores.** The fact-check error branch cannot be taken: every legal source gets an entry. The confidence score lies between 3 and 9 (`FactCheck.FactCheckOutcome`).
- **Upload callback.** The upload form only calls its parent with a result whose `document_id` is truthy. The page's "File upload failed" message therefore never comes from it (`HomePage.CallbackAccepted`).
- **Absent API key.** In the ingestion script, an absent API key raises TypeError on the `os.environ` assignment at line 16, before the explicit check at line 18 is reached (`Ingestion.RunIngestion`).

Files:

| file | module | models |
|---|---|---|
| wrappers.dfy | Wrappers | Option, Result, Python exceptions |
| text.dfy | Text | `strip`/`trim`, `split(sep)[-1]`/`basename`, ASCII `lower`, `x in s` |
| slicing.dfy | Slicing | Python indexing and the fixed-width slicing comprehension |
| qna.dfy | Qna | backend/qna.py |
| ingestion.dfy | Ingestion | AI_Powered_Legal_Chatbot/backend/ingestion.py |
| factcheck.dfy | FactCheck | backend/fact_check.py |
| news.dfy | News | backend/news.py |
| api.dfy | Api | backend/main.py |
| fileupload.dfy | FileUploadComponent | frontend/src/components/FileUpload.jsx |
| qnaform.dfy | QnAComponent | frontend/src/components/QnA.jsx |
| home.dfy | HomePage | frontend/src/pages/home.jsx |
| chat.dfy | ChatInterfaceComponent | AI_Powered_Legal_Chatbot/frontend/src/components/ChatInterface.jsx |
| inputbox.dfy | InputBoxComponent | AI_Powered_Legal_Chatbot/frontend/src/components/InputBox.jsx |

## Model

| member | source | states |
|---|---|---|
| Text.TrimEmptyIffBlank | backend/qna.py:50 | `strip()` (or JavaScript's `trim()`) gives "" exactly when the string is all whitespace of that runtime, so a truthiness test on the stripped text is a non-blankness test |
| Text.TrimSpec | backend/news.py:93 | the stripped string is the middle of the input, with only whitespace cut on either side, and it neither starts nor ends with whitespace |
| Text.SeparatorsStripOnlyInPython | backend/news.py:93 | the separators U+001C–U+001F are stripped by Python's `strip()` and kept by JavaScript's `trim()`; among the ASCII whitespace the model covers, every JavaScript whitespace character is Python whitespace |
| Text.AfterLastIsSuffix | backend/qna.py:43 | the part after the last separator is a final segment of the string |
| Text.AfterLastOfJoin | backend/qna.py:43 | for a tail without the separator, the last part of `prefix + sep + tail` is exactly `tail` |
| Text.AfterLastNoSep | AI_Powered_Legal_Chatbot/backend/ingestion.py:44 | a string without the separator is its own last part (`basename` of a bare name is the name) |
| Text.Lower | backend/qna.py:43 | `lower()` keeps the length and lower-cases each ASCII letter in place |
| Text.ContainsIffOccurs | backend/fact_check.py:46 | the substring test `source in href` holds exactly when the needle occurs at some position |
| Slicing.PyIndex | backend/qna.py:116 | Python list indexing: in-range and negative (from the end) positions pick an element, below minus the length raises IndexError |
| Slicing.FlattenSlices | backend/qna.py:88 | concatenating the fixed-width slices gives the sequence back |
| Slicing.SlicesShape | backend/qna.py:88 | slices are non-empty and at most n long, all but the last exactly n, and their count is the ceiling of len/n |
| Slicing.SlicesAt | backend/qna.py:110 | slice k is the window starting at k·n |
| Qna.Chunks | backend/qna.py:88 | there are no chunks exactly when the text is empty, and each chunk holds 1 to 512 characters |
| Qna.ChunksRoundTrip | backend/qna.py:88 | joining the 512-character chunks reproduces the text |
| Qna.ChunksShape | backend/qna.py:88 | chunks are 1..512 long, all but the last exactly 512, ceil(len/512) of them; an empty text has none; a short text is its own only chunk |
| Qna.ChunkAt | backend/qna.py:110 | chunk k is `text[512k : 512k+512]` |
| Qna.Embeddings | backend/qna.py:89 | one embedding per chunk |
| Qna.FormatOf | backend/qna.py:43-52 | the PDF reader is chosen exactly when the lower-cased last dot-part is "pdf", the DOCX reader exactly when it is "docx"; anything else is the "Unsupported file format" ValueError |
| Qna.FormatOfDotted | backend/qna.py:43-52 | a path is dispatched on its last dot-extension, case-insensitively: pdf, docx, otherwise the "Unsupported file format" ValueError |
| Qna.DotlessUploadRefused | backend/qna.py:43-52 | an uploaded name without a dot is always refused, since the extension is then the whole upload path |
| Qna.NonEmpty | backend/qna.py:47 | only truthy page texts are kept; none kept iff every page text is empty |
| Qna.NonBlank | backend/qna.py:50 | only non-blank paragraphs are kept; none kept iff every paragraph is blank |
| Qna.JoinLinesEmpty | backend/qna.py:47 | joining non-empty parts with newlines gives "" exactly when there are no parts |
| Qna.ExtractText | backend/qna.py:41-52 | extraction fails exactly when the format is unsupported or the library reader raises; the error is then the "Unsupported file format" ValueError or the library's own exception |
| Qna.ExtractedEmptyIff | backend/qna.py:41-52 | extraction succeeds with "" exactly when every PDF page (or DOCX paragraph) has no text |
| Qna.Prompt | backend/qna.py:125-132 | the prompt is the fixed header, then the context, then the question line, then the closing indentation; the context starts right after the header and the question ends right before the closing indentation |
| Qna.PromptCarries | backend/qna.py:125-132 | the prompt contains both the retrieved context and the question |
| Qna.Backend.constructor | backend/qna.py:26-29 | the index starts as the persisted one when it exists, otherwise empty |
| Qna.Backend.StoreDocument | backend/qna.py:54-62 | upsert keyed by the unique file name; other rows and the index unchanged |
| Qna.Backend.AddVectors | backend/qna.py:91-92 | vectors are appended after the existing ones, whose positions stay put |
| Qna.Backend.ProcessDocument | backend/qna.py:79-95 | an extraction error propagates and changes nothing; otherwise the text is upserted; an empty text then raises the ValueError of `faiss_index.add` on an empty array and leaves the index as it was; a non-empty text appends one vector per chunk to the global index and the success message names the file |
| Qna.Backend.SearchRelevantText | backend/qna.py:97-116 | unknown or empty document gives ""; a non-empty result is one of that document's chunks; the only error is IndexError |
| Qna.Backend.QueryDocument | backend/qna.py:118-142 | no relevant text gives the not-found error; an answer echoes the question and names the file as source; every error is the not-found or an "AI processing failed" message |
| Qna.SearchResolves | backend/qna.py:113-116 | how the nearest position is resolved: at or past n gives "", -n..n-1 gives that 512-character window, below -n raises IndexError |
| Qna.FaissSearchNeverRaises | backend/qna.py:114-116 | when the nearest position is -1 or above, as FAISS's `search` gives, the lookup never raises; -1 picks the document's last chunk |
| Qna.SearchEmptyIff | backend/qna.py:106-116 | the search gives "" iff the file is unknown, its text empty, or the position at or past its chunk count |
| Qna.QueryIgnoresModelWithoutContext | backend/qna.py:120-123 | without relevant text the model is not consulted: any two models give the same not-found reply |
| Qna.QueryWithContext | backend/qna.py:125-142 | with relevant text the reply is the model's answer (question, answer, file name) or the "AI processing failed" error |
| Ingestion.Basename | AI_Powered_Legal_Chatbot/backend/ingestion.py:44 | the base name has no '/', is no longer than the path, and a path without '/' is its own base name |
| Ingestion.WithBasenameSource | AI_Powered_Legal_Chatbot/backend/ingestion.py:43-44 | `source` is set to `Basename` of the old value, or of "unknown" when there was none; other metadata and the text are kept, and the new source has no '/' |
| Ingestion.RewriteIdempotent | AI_Powered_Legal_Chatbot/backend/ingestion.py:43-44 | rewriting twice equals rewriting once |
| Ingestion.RewrittenSource | AI_Powered_Legal_Chatbot/backend/ingestion.py:43-44 | `dir/name` becomes `name`; a missing source becomes "unknown" |
| Ingestion.RewriteSources | AI_Powered_Legal_Chatbot/backend/ingestion.py:41-44 | every chunk in the array is rewritten in place, each from its own old value |
| Ingestion.Batches | AI_Powered_Legal_Chatbot/backend/ingestion.py:47-48 | joining the batches in order gives the chunks back |
| Ingestion.BatchesShape | AI_Powered_Legal_Chatbot/backend/ingestion.py:47-48 | batches partition the chunks in order, 1..100 each, all but the last exactly 100, ceil(n/100) of them |
| Ingestion.Embedded | AI_Powered_Legal_Chatbot/backend/ingestion.py:51 | a store built from a batch holds one entry per chunk |
| Ingestion.MergedBatches | AI_Powered_Legal_Chatbot/backend/ingestion.py:49-58 | merging the per-batch stores in order equals the store of all chunks |
| Ingestion.VectorStore.FromDocuments | AI_Powered_Legal_Chatbot/backend/ingestion.py:51 | the new store holds the batch's entries in order |
| Ingestion.VectorStore.MergeFrom | AI_Powered_Legal_Chatbot/backend/ingestion.py:58 | the other store's entries are appended after this one's |
| Ingestion.BuildStores | AI_Powered_Legal_Chatbot/backend/ingestion.py:49-52 | one new, distinct store per batch, holding that batch's entries, in batch order |
| Ingestion.MergeStores | AI_Powered_Legal_Chatbot/backend/ingestion.py:56-58 | the first store ends up holding the entries of all the batches, in order |
| Ingestion.EmbedAndSaveDocuments | AI_Powered_Legal_Chatbot/backend/ingestion.py:21-65 | a missing or empty directory raises FileNotFoundError and touches nothing; otherwise sources are rewritten, zero chunks raise IndexError at `vector_stores[0]`, and the merged store holds every chunk in order |
| Ingestion.RunIngestion | AI_Powered_Legal_Chatbot/backend/ingestion.py:16-65 | an absent key raises TypeError and an empty key the "not set" ValueError; with a set key a missing or empty directory raises FileNotFoundError, and otherwise sources are rewritten, zero chunks raise IndexError and the result holds every chunk's entry in order; every error before the rewrite leaves the chunks untouched |
| FactCheck.EntryFor | backend/fact_check.py:44-56 | the entry for a domain is never empty; a `requests` exception gives the "Error occurred while fetching results." placeholder, any other exception "Unexpected error occurred.", and a successful search the "No relevant links found." placeholder or only links among the results that contain the domain |
| FactCheck.SourceResults | backend/fact_check.py:28-56 | the result dictionary has exactly the three legal domains as keys, and each domain's non-empty entry comes from that domain's own search alone |
| FactCheck.SearchResult | backend/fact_check.py:58 | the error dictionary is never returned: the result is always the per-domain dictionary |
| FactCheck.ValidLinks | backend/fact_check.py:43-47 | a considered href is kept exactly when it contains the domain |
| FactCheck.ValidLinksAppend | backend/fact_check.py:44-47 | the filter distributes over concatenation, so it keeps order |
| FactCheck.KeepLinks | backend/fact_check.py:43-47 | the loop keeps exactly the filtered links |
| FactCheck.SearchLegalSources | backend/fact_check.py:17-58 | the result is the per-domain map with exactly the three legal domains as keys, never the error dict |
| FactCheck.EntryBounds | backend/fact_check.py:44-56 | every entry is a non-empty list of at most max(max_results, 1) items |
| FactCheck.EntryLinks | backend/fact_check.py:44-49 | on a successful search the entry is the matching links among the first max_results, or the "No relevant links found." placeholder |
| FactCheck.TotalLinksBounds | backend/fact_check.py:77 | a sum of per-domain lengths between lo and hi lies between n·lo and n·hi |
| FactCheck.ScoreBounds | backend/fact_check.py:77 | the score is between 3 and 3·max(max_results, 1) |
| FactCheck.FactCheckLegalClaim | backend/fact_check.py:61-82 | a checked verdict echoes the claim, carries the per-domain dictionary of the search, and its score is the sum of the entry lengths |
| FactCheck.FactCheckOutcome | backend/fact_check.py:61-82 | the verdict is never an error, echoes the claim, has the three domains as keys and a score in 3..9 |
| News.LoadCache | backend/news.py:51-58 | cached news is returned iff the file exists and is strictly younger than the expiry |
| News.CacheWindow | backend/news.py:56 | a cache written at t is served on [t, t+expiry) and stale from t+expiry on |
| News.GoogleArticles | backend/news.py:68-82 | at most 5 articles; a non-empty result is article k built from entry k, summary as content; the result is [] exactly when the feed failed, has no entries, or one of its first five entries lacks a title, summary or link |
| News.FetchGoogleNews | backend/news.py:68-82 | the loop gives the first five entries in order with summary as content, or [] when any of them lacks a field |
| News.ArticleFrom | backend/news.py:93-97 | the article's title neither starts nor ends with whitespace, and an element without a summary gets "No summary available." |
| News.ArticlesFrom | backend/news.py:92-98 | one article for each of the first n elements |
| News.ArticlesFromAt | backend/news.py:92-98 | the k-th article of any prefix is built from the k-th element |
| News.CollectArticles | backend/news.py:92-98 | the loop gives one article per element when every element has a title and a link, and [] as soon as one lacks either |
| News.ScrapedArticles | backend/news.py:85-102 | at most 5 articles per site; a failed request gives []; a fetched page gives [] exactly when it has no elements or one of its first five lacks a title or a link, and otherwise min(5, elements) articles |
| News.ScrapedFields | backend/news.py:92-97 | each article's link is base URL + href (or the bare href without a base URL), the title is stripped, a found summary element gives its stripped text (even when that is empty), and a missing one gives "No summary available." |
| News.ScrapeSource | backend/news.py:85-102 | the loop equals `ScrapedArticles`: the first five articles in order, or [] when the request fails or an element lacks title or link |
| News.AllScraped | backend/news.py:105-112 | at most five articles for each configured site |
| News.AllScrapedShape | backend/news.py:105-112 | the scraped list is LiveLaw's, then Bar & Bench's, then The Hindu's, at most 15 articles |
| News.ScrapeAllSources | backend/news.py:105-112 | the loop concatenates the per-site results in configuration order |
| News.SummaryOf | backend/news.py:118-126 | title and link are copied; the summary is the model's text, "No summary available." without text, or "Error in AI summarization." when the call raises |
| News.Summaries | backend/news.py:115-127 | one summary per article, in order: item k is the summary of article k, with its title and link |
| News.SummariesAppend | backend/news.py:136-137 | summaries of Google articles precede those of scraped ones |
| News.SummarizeNews | backend/news.py:115-127 | the loop gives the summaries, with "No summary available." / "Error in AI summarization." fallbacks |
| News.NewsService.constructor | backend/news.py:14 | the service starts from the cache file as found |
| News.NewsService.GetIndianLegalNews | backend/news.py:130-140 | a fresh non-empty cache is returned unchanged and not rewritten; otherwise Google then scraped articles are summarised, saved with the new timestamp and returned |
| Api.KindOf | backend/main.py:41-59 | the PDF, DOCX and plain-text MIME types select their reader, one each |
| Api.KindOfAccepts | backend/main.py:41-57 | exactly the six listed MIME types have a reader, the last three being images |
| Api.ExtractTextFromFile | backend/main.py:31-62 | fails iff the type is unsupported or its reader fails, always with the 400 "Failed to extract text" error; otherwise the reader's text |
| Api.UploadDocument | backend/main.py:69-100 | every upload ends in a 500 "Error processing file: ..." whose detail names the step that failed; nothing in the back end changes before `process_document` stores the text; an extracted empty text is stored, adds no vector and fails with the empty-array ValueError; a non-empty one is stored, its vectors appended, and the `.get` call fails |
| Api.AskQna | backend/main.py:107-120 | an answer gives `{"response": answer, "source": ...}`, a failure `{"response": error}`, an exception a 500 "Error during Q&A" with its message; a question naming no stored file gets the not-found response; a source is always the question |
| Api.AskQnaKeyedByQuestion | backend/main.py:113 | the document text never selects the document: the lookup is keyed by the question |
| Api.FactCheckRoute | backend/main.py:137-154 | an error verdict is answered with its error alone; a checked response echoes the claim and carries the verdict's sources (the per-domain search results) and its score (the sum of the entry lengths) |
| Api.FactCheckRouteOutcome | backend/main.py:142-152 | the route always answers with the claim, the three domains and a score in 3..9 |
| FileUploadComponent.SubmitNotice | frontend/src/components/FileUpload.jsx:60-71 | success iff ok with a truthy id, with the text "Success! Document ID: " + id; warning iff ok without one, with the "document ID is missing" text; error iff not ok or thrown |
| FileUploadComponent.SubmitCallback | frontend/src/components/FileUpload.jsx:60-66 | the parent is called, with the reply body, iff the reply is ok and has a truthy id |
| FileUploadComponent.FailureNotice | frontend/src/components/FileUpload.jsx:67-71 | a failure shows the detail or error message, or "Something went wrong" / "Network error", and never calls back |
| FileUploadComponent.FileUpload.constructor | frontend/src/components/FileUpload.jsx:5-8 | no file, not loading, empty message and kind |
| FileUploadComponent.FileUpload.ShowMessage | frontend/src/components/FileUpload.jsx:11-14 | sets message and kind only |
| FileUploadComponent.FileUpload.HandleFileChange | frontend/src/components/FileUpload.jsx:17-37 | no file changes nothing; a type outside the seven allowed clears the file with the "Invalid file type" error; an allowed one is kept and clears the message, leaving its kind |
| FileUploadComponent.FileUpload.StartSubmit | frontend/src/components/FileUpload.jsx:40-50 | without a file: error, nothing sent; with one: loading set and the button disabled |
| FileUploadComponent.FileUpload.FinishSubmit | frontend/src/components/FileUpload.jsx:52-74 | notice and callback as the outcome dictates, loading cleared on every path, button disabled iff no file |
| HomePage.CallbackAccepted | frontend/src/pages/home.jsx:13-20 | every callback from the upload form takes the page's success branch |
| HomePage.Home.constructor | frontend/src/pages/home.jsx:8-10 | no document, empty response, no error |
| HomePage.Home.ShowsQnA | frontend/src/pages/home.jsx:32-34 | the Q&A section shows iff a document id is held |
| HomePage.Home.ShowsResponse | frontend/src/pages/home.jsx:35-36 | the answer and fact-check show iff a document id is held and the response is non-empty |
| HomePage.Home.HandleFileUpload | frontend/src/pages/home.jsx:13-20 | a truthy id is stored and the error cleared; otherwise the "File upload failed" error and the id kept; a held id is never "" |
| HomePage.Home.SetResponse | frontend/src/pages/home.jsx:34 | the response becomes the answer, nothing else changes |
| QnAComponent.QnA.constructor | frontend/src/components/QnA.jsx:6-9 | empty question, no error, not loading |
| QnAComponent.QnA.Type | frontend/src/components/QnA.jsx:47 | typing sets the question |
| QnAComponent.QnA.StartAsk | frontend/src/components/QnA.jsx:11-19 | busy: nothing changes; blank question: the "valid question" error, nothing sent; otherwise error cleared and loading set; the question is never changed |
| QnAComponent.QnA.FinishAsk | frontend/src/components/QnA.jsx:21-37 | an answer is delivered to the parent, an error sets the "Failed to get a response" message; loading ends false, question kept |
| InputBoxComponent.InputBox.constructor | AI_Powered_Legal_Chatbot/frontend/src/components/InputBox.jsx:5 | the input starts empty |
| InputBoxComponent.InputBox.OnChange | AI_Powered_Legal_Chatbot/frontend/src/components/InputBox.jsx:19-20 | typing sets the input |
| InputBoxComponent.InputBox.HandleSend | AI_Powered_Legal_Chatbot/frontend/src/components/InputBox.jsx:7-12 | blank input is neither sent nor cleared; otherwise it is sent once, untrimmed, and cleared |
| ChatInterfaceComponent.ReplyText | AI_Powered_Legal_Chatbot/frontend/src/components/ChatInterface.jsx:19-29 | the reply text is the answer, or "Error: Unable to fetch response." |
| ChatInterfaceComponent.AfterSend | AI_Powered_Legal_Chatbot/frontend/src/components/ChatInterface.jsx:10-31 | a completed send adds exactly two messages, keeps every earlier one, and puts the user's message as typed before the reply |
| ChatInterfaceComponent.ReplaceLastKeepsPrefix | AI_Powered_Legal_Chatbot/frontend/src/components/ChatInterface.jsx:21 | overwriting the last slot keeps the length and every earlier message |
| ChatInterfaceComponent.ChatInterface.constructor | AI_Powered_Legal_Chatbot/frontend/src/components/ChatInterface.jsx:8 | the conversation starts empty |
| ChatInterfaceComponent.ChatInterface.BeginSend | AI_Powered_Legal_Chatbot/frontend/src/components/ChatInterface.jsx:11-15 | appends the user message and then the "Thinking..." placeholder |
| ChatInterfaceComponent.ChatInterface.CompleteSend | AI_Powered_Legal_Chatbot/frontend/src/components/ChatInterface.jsx:19-29 | replaces the last message by the reply; an empty list stays empty |
| ChatInterfaceComponent.ChatInterface.HandleSend | AI_Powered_Legal_Chatbot/frontend/src/components/ChatInterface.jsx:10-31 | a whole send leaves the conversation as `AfterSend` describes |

## Left out

- File and format I/O: pypdf, python-docx, pytesseract/PIL, saving uploads and `os.remove` are readers passed in as parameters. In backend/qna.py a reader that raises gives the text of its exception, which propagates; in backend/main.py it gives `None`, since the handler there replaces every exception by the same 400.
- The upload stream is read to its end at backend/main.py:78 before `process_document` copies it again at backend/qna.py:38. What the readers then see is left to the reader parameter.
- `os.path.join(UPLOAD_DIR, filename)` is plain concatenation; an absolute or `..` file name is not modelled.
- `mimetypes.guess_type` is a parameter.
- MySQL is a `map` keyed by file name (the column is UNIQUE, backend/db.py:20); connection failures are not modelled.
- Embedding models, L2 distance and `faiss_index.search` are parameters: vectors are opaque values and search returns an integer position. Writing the index file (backend/qna.py:93) is not modelled; reading it at start-up is the constructor's parameter.
- `chunk_embeddings` in `search_relevant_text` (backend/qna.py:111) is computed and never used, so it is not modelled. `split_document` (backend/qna.py:74-77) is unused.
- Gemini and `genai.generate_text` are parameters returning text or failure; the text of a library exception is a string parameter.
- Feed, HTTP and HTML parsing in backend/news.py and backend/fact_check.py are pre-parsed records. A summary element that is found is `Some` of its text, even an empty one.
- News.LoadCache: a cache file that is not valid JSON, or lacks `timestamp` or `news`, raises in the source; the model assumes a well-formed file.
- Timestamps are integers, not floats. The thread pool of `scrape_all_sources` is a sequential ordered map.
- The outer handler of `fact_check_legal_claim` (backend/fact_check.py:83-86) is not modelled: nothing in its body can raise once each search is caught per source.
- The `/` and `/news/` routes of backend/main.py, CORS and configuration are not modelled.
- The PDF directory loader, `RecursiveCharacterTextSplitter`, logging, tqdm and `save_local` in the ingestion script are not modelled: the split chunks are the method's input and the merged store its result.
- Text.Lower covers ASCII letters only: Python's `lower` also maps other Unicode letters.
- Text.Trim covers ASCII whitespace only (with the separators U+001C–U+001F for Python): Python's `strip` and JavaScript's `trim` also remove non-ASCII spaces such as U+0085 (Python only), U+FEFF (JavaScript only), U+00A0 and U+2028, so outside ASCII the two runtimes' sets are not nested.
- Qna.NoVectorsError: the exact message for zero chunks follows what numpy and faiss do with `encode([])`; those libraries are not part of this model, only that `process_document` then raises a ValueError after storing the text.
- Front end: rendering, CSS, the fetch/axios transport and React's deferred state updates are not modelled. Replies are parameters and setters take effect at once. Overlapping sends in the chat view are not modelled.
- The Q&A form posts `documentId` and `question`, which the back end's request model does not accept; the transport is not modelled, so the reply is a parameter.
- Other front-end files (Navbar, App, MessageList, ResponseDisplay, NewsFeed, FactCheck, the API client wrappers) and the chatbot's service, routes, settings and schemas are not part of this model.
