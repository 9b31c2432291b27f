# RAG chatbot core in Dafny

A Dafny model of the logic underneath a retrieval-augmented chat assistant.
Users upload documents (JSON, PDF, CSV, web pages) into named vector stores
(Chroma collections, one directory each under `DB_DIR`), and a chat service
answers questions from a bound store while keeping one conversation history
per session. The model covers four pieces of that logic:

- `VectorStore` (`vector_store.dfy`): the store registry of
  `services/vector_store.py`. It holds the name, existence and file-type
  validators and the loader dispatch, and it lists stores as the
  sub-directories of `DB_DIR`. `get`, `create`, `update` and `delete` are
  methods of a class whose field `root` is the directory listing. The listing
  is `None` when `DB_DIR` is missing, otherwise a sequence of entries with an
  is-directory flag; `WellFormed` requires distinct and, as with `os.listdir`,
  non-empty names.
- `Rag` (`rag.dfy`): `RAGService` of `services/rag.py`. It has a
  `map<string, History>` of sessions with get-or-create and reset. It has the
  three optional fields `llm`, `retriever` and `ragChain` that `build` sets.
  `chat` filters the chain's stream, given as a `seq` of string-keyed maps,
  down to its `'answer'` values.
- `Files` (`files.dfy`): `detect_file_type` of `utils/files.py`. The MIME type
  `mimetypes.guess_type` would guess is a parameter.
- `ContextService` (`context_service.dfy`): the content-type rule of
  `add_file` in `services/ContextService.py`.
- `Wrappers` (`wrappers.dfy`): `Option`, `Result` and `Outcome`. Every Python
  `raise ValueError(...)` becomes a `Failure`/`Fail` carrying one constructor of
  `StoreError` per message.

Nothing outside the service is modelled: no file system, Chroma, Ollama,
OpenAI client or LangChain runnable. It becomes one of these:
- a parameter: the MIME guess, the chain's output stream, whether
  `shutil.rmtree` raises, and the environment values;
- a constructor value: `baseDir`, `embeddingModel` and the initial listing;
- one documented assumption: the effect of opening Chroma on a directory.

**Assumption about Chroma.** The source never creates a store's directory
itself. `create` and `update` only construct a Chroma object whose persist
directory is `DB_DIR/<name>`. `VectorStore.OpenPersistDirectory` holds the
assumption that this creates the directory (and `DB_DIR`) when missing, keeps
an existing one, and fails on a plain file. Every claim that a store exists
after `create` or `update` rests on that one function.

**Behaviour of the code worth knowing:**
- `update` neither validates nor looks up the store name. Under the Chroma
  assumption it creates a missing store instead of refusing it.
- `delete` does not validate the name either. A non-string or empty name
  fails with "does not exist".
- `build` is not atomic. It replaces `llm` before opening the store, so a
  failed `build` leaves a new `llm` next to the old `retriever` and
  `rag_chain`.
- `chat` before any `build` has no dedicated error. LangChain cannot wrap the
  missing chain and raises, shown here as `ChainNotBuilt`.
- `_validate_store_exists` says "non-empty list" in its message but accepts
  an empty list. It is never called by the service.

## Model

| member | source | states |
|---|---|---|
| `VectorStore.ValidateStoreName` | services/vector_store.py:19-22 | passes exactly for a non-empty string; a non-string fails with the "must be a string" error, the empty string with the "cannot be empty" error |
| `VectorStore.ValidateStoreExists` | services/vector_store.py:32-35 | passes exactly when the first argument is a list of strings holding the name; a non-list or a list holding a non-string fails with the "non-empty list of strings" error, a missing name with "does not exist" |
| `VectorStore.ValidateFileType` | services/vector_store.py:44-48 | accepts exactly `json`, `pdf`, `csv` and `web`; a non-string and every other string fail with their own errors |
| `VectorStore.Dispatch` | services/vector_store.py:63-70 | a loader is chosen exactly for the four supported types, of the matching kind and on the given path; `json` gets the JSON loader with schema `.` and `text_content=False` |
| `VectorStore.LoadFile` | services/vector_store.py:61-70 | validation comes first: a loader is returned iff the type validates, and a rejected type yields the validator's error |
| `VectorStore.JoinPath` | services/vector_store.py:104 | `os.path.join` on POSIX: the result ends with the second part; an absolute second part is the whole result; otherwise the result starts with the first part, one `/` is added between them when the first part is non-empty and does not end with `/`, and no separator is added when it is empty or already ends with `/` |
| `VectorStore.DirectoryNames` | services/vector_store.py:83 | a name is listed exactly when a directory entry of that name exists; never more names than entries |
| `VectorStore.StoreNames` | services/vector_store.py:79-83 | no stores when `DB_DIR` is missing; otherwise exactly the names that are directories under it |
| `VectorStore.ValidateStoreExistsAgreesWithListing` | services/vector_store.py:32-35 | the existence validator, given the result of `get_all`, passes exactly for the names `exists` accepts |
| `VectorStore.OpenPersistDirectory` | services/vector_store.py:136-140 | the Chroma assumption: fails only on a plain file of that name; otherwise the name is afterwards a directory, no other name's directory or plain-file status changes, an existing directory is kept as it is, distinct names stay distinct |
| `VectorStore.Without` | services/vector_store.py:181 | after `rmtree` exactly the entries of other names remain, and distinct names stay distinct |
| `VectorStore.VectorStoreService.constructor` | services/vector_store.py:9-10 | the service starts on the given `DB_DIR`, embedding model and listing |
| `VectorStore.VectorStoreService.GetAll` | services/vector_store.py:79-83 | no names when `DB_DIR` is missing; otherwise a name is listed exactly when it is a directory under `DB_DIR` |
| `VectorStore.VectorStoreService.Exists` | services/vector_store.py:117-118 | true exactly for a string naming a directory under `DB_DIR` |
| `VectorStore.VectorStoreService.Get` | services/vector_store.py:95-105 | non-string and empty names fail first, then a name that is not a directory; otherwise the Chroma store (`Handle`, lines 101-105) named `<name>` on `DB_DIR/<name>` with the configured embedding model |
| `VectorStore.VectorStoreService.Create` | services/vector_store.py:130-140 | invalid names fail, an existing name fails with "already exists", and a failure leaves the listing unchanged; on success the result is the Chroma store `Handle` builds (lines 136-140), the name is a directory, and no other name's directory or plain-file status changed |
| `VectorStore.VectorStoreService.Update` | services/vector_store.py:151-162 | an invalid file type fails with the validator's error and changes nothing; on success the store exists afterwards, even if it did not before, and no other name's directory or plain-file status changed |
| `VectorStore.VectorStoreService.Delete` | services/vector_store.py:173-187 | a name that is not an existing store, the empty name included, fails with "does not exist"; a failing `rmtree` fails and keeps the directory; on success exactly that store's entry is gone |
| `VectorStore.CreateThenGet` | services/vector_store.py:95-140 | after a successful `create`, `get` of the same name opens the same store |
| `VectorStore.DeleteTwice` | services/vector_store.py:173-174 | the second of two deletes of one name always fails with "does not exist" |
| `Rag.Answers` | services/rag.py:91-93 | at most one value per streamed item, and nothing from a stream in which no item has an `'answer'` |
| `Rag.AnswersAppend` | services/rag.py:91-93 | the filter distributes over concatenation of streams, so answers keep stream order |
| `Rag.AnswersOfAnsweredStream` | services/rag.py:92-93 | when every item carries an answer, the output is exactly those values, position by position |
| `Rag.AnswersComeFromStream` | services/rag.py:92-93 | every output value is the `'answer'` of some streamed item |
| `Rag.StreamAnswers` | services/rag.py:91-93 | the loop yields exactly the filtered answers of the whole stream |
| `Rag.ChatModel.constructor` | services/rag.py:21-26 | the client carries `API_URL`, `API_KEY` and the streaming flag it was given |
| `Rag.RAGService.constructor` | services/rag.py:13-18 | a fresh service has no sessions and no `llm`, `retriever` or `rag_chain` |
| `Rag.RAGService.GetSessionHistory` | services/rag.py:52-55 | an unknown id gets a new empty history, stored and returned; a known id returns its stored history with the map unchanged; no other entry changes |
| `Rag.RAGService.Reset` | services/rag.py:57-58 | removes only that id, and nothing at all when absent, so a second reset is a no-op |
| `Rag.RAGService.CreateLlm` | services/rag.py:20-26 | `llm` becomes a new streaming client for `API_URL` and `API_KEY` |
| `Rag.RAGService.CreateRetriever` | services/rag.py:28-30 | fails with the store lookup's error and keeps `retriever`; otherwise `retriever` is the retriever of that store |
| `Rag.RAGService.Build` | services/rag.py:32-67 | `llm` is always replaced by a new client; a store lookup failure is returned with `retriever` and `rag_chain` unchanged; on success both are rebound to the store, and the chain joins the history-aware retriever of `QuestionContextualizer` (lines 32-40, prompt `HISTORY_PROMPT`) with the documents chain of `QaChain` (lines 42-50, prompt `SYSTEM_PROMPT`), both on the new `llm` and with the history between the system text and `{input}`; sessions are never touched |
| `Rag.RAGService.Chat` | services/rag.py:82-93 | without a built chain it fails and changes no session; otherwise it returns exactly the filtered answers and its session exists afterwards, no other session changing |
| `Rag.RAGService.ChatAsync` | services/rag.py:69-80 | the same result and session effect as `chat` |
| `Files.ContainsIffOccurs` | utils/files.py:19-23 | the substring test holds exactly when the needle occurs at some position |
| `Files.Lower` | utils/files.py:26 | same length, each character lower-cased |
| `Files.LastSegment` | utils/files.py:26 | the longest dot-free suffix: a suffix without `.` that is either the whole string or preceded by `.` |
| `Files.LastSegmentOfLower` | utils/files.py:26 | lower-casing commutes with taking the last segment |
| `Files.MimeFileType` | utils/files.py:19-24 | `json` is tested before `pdf` and `pdf` before `csv`; no result exactly when the MIME type contains none of them |
| `Files.ExtensionFileType` | utils/files.py:26-30 | a result exactly when the lower-cased last segment is `json`, `pdf` or `csv`, and then that segment |
| `Files.DetectFileType` | utils/files.py:13-30 | no file gives no type; any result is one of `KnownExtensions` (`json`, `pdf`, `csv`); a MIME match decides; a missing, empty or non-matching guess falls through to the extension |
| `Files.DetectFileTypeIsNeverWeb` | utils/files.py:19-30 | the detected type is never `web` |
| `Files.ExtensionIsCaseInsensitive` | utils/files.py:26-28 | two names that lower-case alike get the same type under the same guess |
| `Files.MimeTakesPrecedence` | utils/files.py:18-28 | under a matching MIME guess the name does not matter |
| `ContextService.NormalizeContentType` | services/ContextService.py:18-21 | the result is always one of the four supported types; a supported type is kept, any other becomes `text/plain` |
| `ContextService.NormalizeIsIdempotent` | services/ContextService.py:18-21 | normalising twice equals normalising once |
| `ContextService.UploadPart` | services/ContextService.py:18-25 | the posted name and bytes are the upload's; the type is supported, and equals the upload's exactly when that one was supported |

## Left out

- Chroma, Ollama embeddings and similarity search are library internals and are not modelled. So are the text splitter (chunk size 1000, overlap 100), what the document loaders read, and the contents of a store's directory. The only Chroma effect modelled is the directory assumption in `OpenPersistDirectory`.
- Chroma's own rules for collection names are library internals. Names containing `/`, names `.`/`..` and absolute names are treated as one entry directly under `DB_DIR`. `os.path.join` (`JoinPath`) would resolve them elsewhere in the file system, which is not modelled.
- An unset `DB_DIR` is not modelled (`os.path.exists(None)` raises `TypeError`). The model always has a base path, whose listing is present or missing.
- A `DB_DIR` that exists but is a plain file or cannot be read is not modelled: `os.listdir` (services/vector_store.py:83) then raises in `get_all` and in everything built on it (`exists`, `get`, `create`, `delete`). `Listing` has only "missing" and "a directory's entries".
- `VectorStore.VectorStoreService.Update`: does not model a loader failing on a missing or unreadable file, nor a non-string store name. Both happen inside library calls.
- `VectorStore.VectorStoreService.Delete`: after a failing `rmtree` only the top directory's survival is stated. Partly removed contents are not visible in the listing. The success message `print` is console output.
- The `'answer'` filter is modelled; the history-aware retriever, the prompts and the model's output are not. The chain's output stream is a parameter, and the question only reaches that stream.
- `Rag.RAGService.Chat`: says nothing about the session's history after the call. `RunnableWithMessageHistory` appends the exchange to it, and that library code is not part of this model.
- `Rag.RAGService.Chat`: `chat` is a generator in Python, so nothing runs, neither the session lookup nor the error for a missing chain, until the first item is requested, and a consumer may stop early. The model runs the call to completion and returns the whole filtered sequence; a consumer that stops early sees a prefix of it, which `AnswersAppend` describes. A stream that raises partway (a network error, say) is not modelled either: that error passes through `chat` after the answers before it were yielded, and those answers are again a prefix of the filtered whole, as `AnswersAppend` describes.
- `Rag.RAGService.ChatAsync`: the same gap as `Chat`. Asynchronous scheduling and concurrency are not modelled.
- `Rag.RAGService.CreateLlm`: does not model the float parsing of `MODEL_TEMPERATURE` (default 0.7) or its failure.
- `VectorStore.VectorStoreService`: `EMBEDDING_MODEL` is read from the environment each time a store is opened. The model fixes it in the constructor, so a change of the variable while the service runs is not modelled.
- Histories are stored values. In Python the dictionary holds mutable `ChatMessageHistory` objects that the runnable shares, and that aliasing is not modelled.
- `Files.Lower`: lower-cases ASCII letters only. Python's `str.lower` also maps other letters. No non-ASCII character lower-cases to a letter of `json`, `pdf` or `csv` alone, so the detected type is the same.
- `mimetypes.guess_type` is an input to `DetectFileType`, not a MIME table.
- `create_temp_dir` (utils/files.py) writes a temporary file: file I/O.
- The HTTP calls of `ContextService` are `requests` plumbing: the URL of `add_file`, posting, response handling, and its other methods.
- `app.py` (Streamlit UI) is presentation and is not part of this model. `model.py` is a legacy copy of the store logic. `services/session.py`, `services/chat.py`, `services/ChatService.py` and `services/base.py` are HTTP wrappers.
