# RAG document API: a Dafny model of its core rules

This project models the core of a Django REST service. Users upload documents
(PDF, DOCX, plain text, Markdown) to it and then chat about them. A chat message
is answered by a chat model, which is prompted with the document chunks that a
retriever finds relevant.

The project models three source files:

- `rag_app_apis/models.py` (module `Models`):
  - the two upload validators, on the file extension and the file size;
  - the four tables (conversations, documents, messages, chunks);
  - the rule by which `APIConversation.save` fills in a missing title. This is a method on the class `Conversation`.
- `rag_app_apis/utils.py`:
  - `extract_text` (module `Extraction`): pick a reader by the lower-cased extension, accumulate the PDF page by page, join the DOCX paragraphs, strip; every exception becomes None;
  - `process_document` and `process_chunk` (module `Ingestion`):
    - the early returns;
    - the batch loop over contiguous slices of 10 chunks;
    - the per-chunk pass, which swallows its errors;
    - the final update of `processed`.

    The imperative code is modelled as methods over a `ChunkTable` and a `Document`. They are proved equal to the functions `Ingest`/`RunChunks`, and the lemmas state the properties of those functions;
  - `query_llm` (module `Llm`): the stripped reply, or a fixed apology when the model raises.
- `rag_app_apis/views.py` (module `Views`):
  - the exact prompt built from the retrieved chunks;
  - the title taken from the uploaded name;
  - the order of the request checks;
  - the rows that `UploadDocumentView.post` and `SendMessageView.post` append, in the class `Backend`.

Two helper modules support these. `Common` holds `Option`, and `Result`, whose `Raised` case stands for a Python exception and its message. `PyStr` holds the Python string operations the code relies on:

- `str.isspace`/`strip`;
- ASCII `lower`;
- `str.join`;
- `os.path.splitext` (posix rules: the extension starts at the last dot of the last path component, and leading dots of the base name do not count);
- `split('.')[0]`;
- `str(int)` and `int(str)` on decimal digits.

The outside world enters only as parameters:

- the text splitter;
- the embedding model (`Embedder`: a list of texts to a list of vectors, or an exception);
- the chat model (`ChatModel`);
- the retriever;
- file existence;
- what the PDF/DOCX/text libraries hand back for a file (`FileSource`).

Two places where the code as written defeats its evident intent are listed under Findings. Each has an as-written member and a corrected one, and the rest of the model uses the corrected behaviour.

Some things the code does differ from what its design suggests. The model follows the code:

- Every chunk is stored twice on a successful run: once by the batch pass and once more by the per-chunk pass (`EveryChunkStoredTwice`).
- Nothing is rolled back when a batch raises. The rows of the earlier batches stay, and `processed` stays false (`AbortedRunKeepsEarlierBatches`).
- `.md` passes the upload validator, but `extract_text` has no reader for it, so a Markdown upload is never indexed (`MarkdownAcceptedButNotExtracted`).
- The upload handler answers 201 with "subido y procesado" whatever processing did.
- It also stores the notice message "procesado y listo para consultas" even when nothing was indexed.

## Model

| member | source | states |
|---|---|---|
| Models.ValidateFileExtension | rag_app_apis/models.py:7-12 | a rejection carries the message "Invalid format. Allowed: .pdf, .txt, .docx, .md" |
| Models.AcceptsByLastExtension | rag_app_apis/models.py:9-11 | for a name with a real base name and a last extension x, the name is accepted iff lower(".x") is one of .pdf, .txt, .docx, .md |
| Models.RejectsWithoutExtension | rag_app_apis/models.py:9-11 | a name with no dot after its last '/' is rejected |
| Models.ExtensionCheckIgnoresCase | rag_app_apis/models.py:9 | lower-casing the name never changes the verdict |
| Models.ExtOfPlainName | rag_app_apis/models.py:9 | splitext of "stem.x" is ".x" when the stem is a plain non-hidden name |
| Models.UpperCaseExtensionAccepted | rag_app_apis/models.py:9-11 | "A.PDF" is accepted |
| Models.LastExtensionAccepted | rag_app_apis/models.py:9-11 | "x.exe.txt" is accepted: only the last extension counts |
| Models.LastExtensionRejected | rag_app_apis/models.py:9-11 | "x.pdf.exe" is rejected |
| Models.NamesWithoutExtensionRejected | rag_app_apis/models.py:9-11 | "report" and ".pdf" (a hidden name with no extension) are rejected |
| Models.ValidateFileSize | rag_app_apis/models.py:14-18 | a rejection carries the message "File too large. Maximum allowed size is 10MB." |
| Models.SizeLimit | rag_app_apis/models.py:16-17 | the limit is 10485760, and a size is accepted iff it is at most that (inclusive bound) |
| Models.FirstMessageIndex | rag_app_apis/models.py:40 | the index of the first message of the conversation in timestamp order, or the length when it has none |
| Models.SavedTitle | rag_app_apis/models.py:38-44 | a truthy title is kept; otherwise the first message's first min(30, length) characters, as a prefix of its text; otherwise "New Conversation" |
| Models.SaveSettlesTitle | rag_app_apis/models.py:38-44 | the saved title is empty only when it came from an empty first message, and saving again keeps any non-empty saved title |
| Models.Conversation.Save | rag_app_apis/models.py:38-45 | the title field becomes the saved title of its old value and the first message |
| Models.Document.constructor | rag_app_apis/models.py:20-28 | a new document has its given fields and `processed` false |
| Models.ChunkTable.BulkCreate | rag_app_apis/utils.py:140-143 | `bulk_create` appends the rows, in order |
| Models.ChunkTable.Create | rag_app_apis/utils.py:43 | `objects.create` appends one row |
| Models.SavedTitleAsWritten | rag_app_apis/models.py:38-42 | as written: a truthy title is kept, and every falsy title raises AttributeError on `self.messages` |
| Models.AsWrittenSaveRaisesOnEmptyTitle | rag_app_apis/models.py:39-40 | an empty title makes the code as written raise, where the intended rule gives "New Conversation" |
| Extraction.ReaderFor | rag_app_apis/utils.py:68-93 | there is no reader exactly when the lower-cased extension is not .pdf, .docx or .txt |
| Extraction.PagesTextRaisedPrefix | rag_app_apis/utils.py:78-79 | an exception on an earlier page aborts the whole PDF read |
| Extraction.PagesTextIsJoin | rag_app_apis/utils.py:75-79 | the accumulated text exists iff every page reads, and then it is each page followed by "\n" |
| Extraction.ExtractPdf | rag_app_apis/utils.py:75-80 | the page loop returns the accumulated text stripped, or None when a page raises |
| Extraction.PdfTextIsStrippedJoin | rag_app_apis/utils.py:75-80 | for at least one readable page, the result is the pages joined by "\n" plus a final "\n", and its strip equals the strip of the join |
| Extraction.ExtractedText | rag_app_apis/utils.py:66-98 | Any text it returns is stripped and was read by the PDF, DOCX or text reader, and the result is None whenever the chosen reader raises or the extension has no reader. |
| Extraction.ExtractedTextByFormat | rag_app_apis/utils.py:73-89 | PDF gives the pages joined by "\n" and stripped, "" for a PDF with no pages and None if a page raises; DOCX gives the paragraphs joined by "\n" and stripped; text gives the content stripped |
| Extraction.MarkdownAcceptedButNotExtracted | rag_app_apis/utils.py:91-93 | a ".md" name passes the upload validator but always extracts to None |
| Ingestion.BatchesPartition | rag_app_apis/utils.py:134-136 | there are ceil(n/10) slices, each of 1 to 10 chunks, and their concatenation is the chunk list |
| Ingestion.BatchAt | rag_app_apis/utils.py:135-136 | slice k is `chunks[10k : min(10k+10, n)]` |
| Ingestion.BatchRows | rag_app_apis/utils.py:137-143 | a batch gives rows iff the embedder returns at least one vector per chunk; row j holds chunk j and vector j |
| Ingestion.BatchPassStoresPrefix | rag_app_apis/utils.py:135-143 | the stored rows hold a prefix of the chunks in order, all of them iff nothing raised; after an exception a whole number of batches, short of the end; every row points at the document |
| Ingestion.BatchPassPairsEmbeddings | rag_app_apis/utils.py:136-141 | stored row j holds chunk j and vector j mod 10 of the embeddings of batch j div 10 |
| Ingestion.BatchPassSucceeds | rag_app_apis/utils.py:135-143 | the batch pass raises nothing iff every batch gets enough vectors |
| Ingestion.ChunkOutcome | rag_app_apis/utils.py:39-46 | a row is stored iff embedding the one chunk gives a vector; the message is "Chunk i+1 procesado" or "Error en chunk i+1: " plus the exception text |
| Ingestion.ChunkPass | rag_app_apis/utils.py:147-148 | one message per chunk, and at most one row per chunk |
| Ingestion.ChunkPassStoresEveryChunk | rag_app_apis/utils.py:147-148 | when every single-chunk embedding succeeds, the pass stores every chunk in order |
| Ingestion.ChunkPassMessages | rag_app_apis/utils.py:147-148 | message i of the pass is the message process_chunk returns for index i and chunk i |
| Ingestion.ChunkPassStoresEmbeddedChunks | rag_app_apis/utils.py:41-46 | a partly failing pass stores exactly the chunks whose single embedding gives a vector, in chunk order |
| Ingestion.ChunkPassRowsBelong | rag_app_apis/utils.py:43 | every per-chunk row points at the document |
| Ingestion.Prepare | rag_app_apis/utils.py:105-129 | it stops with no local path iff the path is None or ""; with a missing file iff the path is truthy and no file exists there; with no readable text iff the file exists and the extracted text is None or blank after strip; it splits iff all three checks pass, and then the chunks are the split of the extracted text |
| Ingestion.Ingest | rag_app_apis/utils.py:100-163 | early returns store no rows, and the run stops for a missing path iff the path is None or "" |
| Ingestion.IndexedIff | rag_app_apis/utils.py:105-156 | a document ends up processed iff it passes the early checks and every batch is embedded |
| Ingestion.EveryChunkStoredTwice | rag_app_apis/utils.py:134-156 | when every embedding succeeds, the run is indexed with one result per chunk, and the stored contents are the chunks twice over |
| Ingestion.AbortedRunKeepsEarlierBatches | rag_app_apis/utils.py:135-143 | an aborted run keeps its earlier batches, a whole number of them forming a proper prefix of the chunks (no rollback) |
| Ingestion.ChunkFailuresOnlyReported | rag_app_apis/utils.py:41-46 | once the batch pass succeeds, the run is indexed with the per-chunk messages, whatever failed in that pass |
| Ingestion.IngestRowsBelong | rag_app_apis/utils.py:140-143 | every row a run stores points at the processed document |
| Ingestion.IngestAsWritten | rag_app_apis/utils.py:105 | as written: no run stores a row or ends processed |
| Ingestion.AsWrittenNeverIndexes | rag_app_apis/utils.py:105 | an input that the intended code indexes is not indexed by the code as written |
| Ingestion.ProcessChunk | rag_app_apis/utils.py:39-46 | process_chunk returns the message and appends the row of `ChunkOutcome` |
| Ingestion.StoreBatch | rag_app_apis/utils.py:136-143 | one batch appends its rows, or reports the exception and appends nothing |
| Ingestion.StoreNextBatch | rag_app_apis/utils.py:135-143 | one loop turn keeps the loop invariant, or on an exception returns the whole pass's result |
| Ingestion.StoreBatches | rag_app_apis/utils.py:134-144 | the batch loop returns the batch pass's error and appends its rows |
| Ingestion.StoreEachChunk | rag_app_apis/utils.py:147-152 | the per-chunk loop returns the messages and appends the rows of the per-chunk pass |
| Ingestion.IndexChunks | rag_app_apis/utils.py:133-156 | both passes append the rows of `RunChunks`, and `processed` becomes true iff the run is indexed |
| Ingestion.ProcessDocument | rag_app_apis/utils.py:100-163 | the outcome and appended rows are those of `Ingest`, and `processed` becomes true only on an indexed run |
| Llm.FallbackIsStripped | rag_app_apis/utils.py:195 | the fallback text has no surrounding whitespace |
| Llm.QueryLlm | rag_app_apis/utils.py:172-195 | the reply stripped, or "Error processing request. Please try again later." when the model raises; always stripped |
| Llm.QueryLlmDropsPadding | rag_app_apis/utils.py:187 | a reply padded with whitespace comes back without it |
| Llm.FallbackIsAmbiguous | rag_app_apis/utils.py:187-195 | a model that answers with the fallback text gives the same result as a failing one |
| Views.Entry | rag_app_apis/views.py:117 | an entry is "Document: " + document + "\nChunk " + id + ":\n" + content, stated through its length and each of its five pieces in place |
| Views.ContextIsFallbackIff | rag_app_apis/views.py:116-119 | the context is "No context available." iff nothing was retrieved |
| Views.ContextOfOne | rag_app_apis/views.py:116-118 | a single result gives its entry alone |
| Views.ContextSnoc | rag_app_apis/views.py:116-118 | one more result appends "\n\n" and its entry |
| Views.PromptFraming | rag_app_apis/views.py:121 | the prompt is "Context:\n", the context, "\n\nUser Query: ", then the message, which is its suffix |
| Views.PromptDeterminesParts | rag_app_apis/views.py:121 | when the contexts or the messages have equal lengths, two prompts are equal iff their contexts and messages are |
| Views.TitleFromName | rag_app_apis/views.py:35 | the title is the dot-free prefix of the name that stops at the first dot or at the end |
| Views.TitleOfDottedName | rag_app_apis/views.py:35 | "stem.rest" and "stem" give the title "stem" for a dot-free stem |
| Views.TitleExamples | rag_app_apis/views.py:35 | "my.report.pdf" gives "my" and ".txt" gives "" |
| Views.FindUser | rag_app_apis/views.py:30 | found iff the id is decimal digits naming a user; otherwise 404, or 500 for a non-numeric id |
| Views.FindConversation | rag_app_apis/views.py:98 | found iff the id names a conversation of that user; otherwise 404, or 500 for a non-numeric id |
| Views.UploadCheck | rag_app_apis/views.py:18-32 | the upload passes iff a file is present, the user id is truthy and the user exists; otherwise 400, 404 or 500 |
| Views.UploadChecksFileFirst | rag_app_apis/views.py:18-27 | a missing file gives 400 "No file provided" before any user check; a missing or empty user id gives 400 "User ID is required" |
| Views.SendCheck | rag_app_apis/views.py:88-102 | the request passes iff both ids are truthy, both lookups succeed and the message is truthy; then the message is kept and the conversation belongs to the user |
| Views.EmptyMessageCheckedLast | rag_app_apis/views.py:91-102 | with both ids given and an empty message, the answer is 400 "Message cannot be empty" iff both lookups succeed |
| Views.MissingIdsCheckedFirst | rag_app_apis/views.py:91-92 | a missing id gives 400 "User ID and Conversation ID are required", whatever else the request holds |
| Views.Backend.constructor | rag_app_apis/views.py:13-14 | a backend starts with the given users and empty tables |
| Views.Backend.CreateMessage | rag_app_apis/models.py:58 | appends exactly one message; the role is "user" unless given |
| Views.Backend.Upload | rag_app_apis/views.py:17-60 | a failed check returns its response and changes nothing; otherwise 201, and one conversation, one document (its file column holding the name the storage backend gave the file), the processing rows and one notice message (role "user") are appended |
| Views.Backend.StoreUpload | rag_app_apis/views.py:35-60 | the conversation title is the saved title of the name's prefix; the document row holds the storage backend's name for the file and is `processed` iff `Ingest` indexed it; the notice and the chunk rows are appended |
| Views.Backend.ChunksOfNewDocument | rag_app_apis/views.py:46 | rows added for the newest document keep every chunk pointing at a stored document |
| Views.Backend.CreateConversation | rag_app_apis/views.py:35 | creating a conversation appends a row whose title went through `save` with no first message |
| Views.Backend.CreateDocument | rag_app_apis/views.py:38-43 | creating a document appends its row with `processed` false |
| Views.Backend.SaveDocument | rag_app_apis/utils.py:155-156 | `document.save()` overwrites the stored row with the instance's fields |
| Views.Backend.NewConversationHasNoMessages | rag_app_apis/models.py:40 | a conversation just created has no first message |
| Views.Backend.Send | rag_app_apis/views.py:87-139 | a failed check returns its response and stores nothing; otherwise the user's message (role "user") and the model's answer to the prompt (role "assistant") are appended, and the response echoes both texts with status 200 |
| Views.Backend.OwnedConversationExists | rag_app_apis/views.py:98 | a conversation found by id and owner is a stored row of a known user |

## Left out

- `rag_app_apis/storage.py` (Google Cloud Storage, random UUID names): the stored file name (a UUID plus the extension) and the file URL are inputs of `UploadedFile`.
- `rag_app_apis/serializers.py` and `rag_app_apis/urls.py`: configuration with no logic.
- The retriever module is not part of this model. `retrieve_relevant_chunks` is a function parameter of `Send`; ranking and `top_k` are not modelled.
- `RecursiveCharacterTextSplitter`: the chunk list is the `split` function of `Environment`.
- The OpenAI embedding and chat models are function parameters that return a result or an exception.
- `try_utf8_read`, PyPDF2, python-docx, chardet and all file I/O: what they return is the `FileSource` input. Encoding detection is not modelled.
- Logging, `print`, `traceback` and `tracemalloc` have no effect on results and are left out.
- Ingestion.StoreEachChunk: the source runs the per-chunk pass on a four-thread pool. The model runs it sequentially in chunk order. The messages keep chunk order in both, but the order in which those rows are stored is not fixed in the source.
- ConversationHistoryView: a read-only listing with no rule beyond the user check that `UploadCheck` already covers.
- The Django ORM is reduced to sequences of rows whose primary keys are handed out in order (row k has id k+1). Database failures, `max_length` limits, and the timestamp, summary and explanation columns are left out.
- Field validators are not run by `objects.create`. They are modelled as standalone functions, not as preconditions of an upload.
- Views.FindUser: ids arrive as strings. Only plain decimal digits are parsed. Forms Python's `int()` also accepts (surrounding spaces, a sign, underscores) are treated as non-numeric and answered with 500. Ids sent as JSON numbers are not modelled.
- Ingestion.RunChunks: both passes call one embedding function, so equal inputs always get equal answers. The source makes a separate network call each time. A chunk that forms a one-chunk batch can therefore succeed in the batch pass and fail in `process_chunk`, but not in the model. The lemmas that assume both `EmbedsEachBatch` and `EmbedsEachChunk` are unaffected.
- Views.FindConversation: parses the conversation id in the same way as `FindUser`. Ids such as " 3", "+3" or "-1", which `int()` accepts, are answered with 500 instead of being looked up.
- Views.Backend.Send: the retriever is a total function. If `retrieve_relevant_chunks` or anything after the first `create` raises, the source keeps the user's message and answers 500. The model does not cover that path and always appends both messages once the checks pass.
- Views.Backend.Upload: storage failures are not modelled. `APIDocument.objects.create` uploads the file, and storage.py re-raises upload errors. A failed upload therefore leaves the new conversation without a document and answers 500. The model assumes the upload succeeds.
- Views.Backend.CreateConversation: `save()` runs inside `objects.create` before the row has a primary key. The model takes `messages_api.first()` on that unsaved instance to be empty (`NewConversationHasNoMessages`), which is how Django before 4.1 behaves. Since 4.1 a reverse relation on an unsaved instance raises ValueError, so with the corrected related name that `save` would still fail there.
- Views.FindUser: a missing object answers 404 with no modelled body text. The `User.DoesNotExist` branch of `UploadDocumentView.post` (views.py:31-32) cannot be reached, because `get_object_or_404` raises Http404 itself. The model therefore has no "User not found" response.
- PyStr.Lower covers ASCII letters only. No other character lowers into an allowed extension, so the validators and the dispatch are unaffected.
- Models.ValidateFileExtension: its own contract gives only the rejection message. The accepting condition is stated by the lemmas `AcceptsByLastExtension`, `RejectsWithoutExtension` and `ExtensionCheckIgnoresCase`.
- `APIChunk.__str__`, `APIMessage.__str__` and the other `__str__` methods: display only.

## Findings

| source | as written | input that shows it | evidently intended | confidence | as-written member | corrected member |
|---|---|---|---|---|---|---|
| rag_app_apis/models.py:40 | `save` reads `self.messages`, but the related name of APIMessage.conversation is `messages_api` (models.py:56), so any falsy title raises AttributeError | an upload named ".txt": its title `".txt".split('.')[0]` is "" | a falsy title becomes the first message's first 30 characters, or "New Conversation" | not executed | Models.AsWrittenSaveRaisesOnEmptyTitle | Models.SaveSettlesTitle |
| rag_app_apis/utils.py:105 | `process_document` reads `document.local_path`, but APIDocument (models.py:20-28) has no such field. The AttributeError is caught by the outer `except`, so no upload is ever indexed | any upload, e.g. a readable "a.txt" whose chunks all embed | a run over the stored file's local path that indexes readable documents | not executed | Ingestion.AsWrittenNeverIndexes | Ingestion.IndexedIff |
