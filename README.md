# resume_parser core, modelled in Dafny

A model of the backend logic of the resume parser. It ingests resume files (TXT/PDF), splits them into chunks, and indexes the chunks in a PGVector collection. On top of that it runs a retrieval-augmented chat agent with one conversation history per session. The model covers four pieces:

- **Text utilities** (`text_utils.dfy`, module `TextUtils`).
  - `clean_text` drops code points UTF-8 cannot encode, collapses every whitespace run to one space, and strips the ends.
  - `count_tokens` counts whitespace-separated words.
- **ParsingService** (`parsing_service.dfy`).
  - Loader dispatch on the lower-cased file suffix.
  - `parse_single`, which defaults each chunk's `source` to the file path.
  - `parse_directory`, which skips unsupported files and stores `[]` for a file that raised.
- **ResumeAgent** (`resume_agent_service.dfy`).
  - The context formatter `_format_docs`.
  - The connection-URL rewrite (`db_url.dfy`).
  - The per-session history table with get-or-create and reset.
  - `add_documents`, with its `source` defaulting.
  - The `k` override of `ask`.
- **The upload endpoint** (`uploads.dfy`).
  - `upload_files`: the empty-list and unsupported-suffix errors, the write/parse/tag/store loop, and its two counters, `files_saved` and `chunks_indexed`.
  - The module-level configuration, including the `RAW_URL` rewrite.

Supporting modules:

- `strings.dfy` models a Python `str` as a sequence of code points 0..0x10FFFF. Lone surrogates are included, because they are exactly what `clean_text`'s `encode("utf-8", "ignore")` removes. The module also holds `isspace`, `strip`, `startswith`, `replace(.., 1)`, `lower` and `join`.
- `paths.dfy` models `pathlib`'s `name`, `suffix` and `/`.
- `documents.dfy` models LangChain `Document` records (text plus a string-keyed metadata map), `setdefault`, and the Python exceptions as a `Result`.
- `vector_store.dfy` holds the foreign components: the PGVector store, its retrievers and the chat model.

Foreign calls are uninterpreted function values passed in as parameters. These are the loaders, the text splitter, `vs.add_documents`, retrieval and the LLM, and the constructors of the embeddings, the store and the chat model; each may raise. Every loop of the source is a `method` with a `while` loop, proved equal to a specification function. The properties are proved about those functions. Side effects of the upload handler are returned as an ordered effect log: directory creation, file writes and store calls.

Where the code and its comments disagree, the model follows the code:

- **`k` in `ask`.** `ask(..., k)` reassigns `self.retriever`, but the chain captured the construction-time retriever, so retrieval always uses the original `k` (see Findings).
- **The `question` variable.** The prompt's `{question}` variable is filled by `RunnablePassthrough()`, which passes on the entire input mapping (question plus history), not the question string. `VectorStore.PromptInput.question` models that.
- **No session filter.** Retrieval has no session filter. Chunks are tagged with `session_id`, but no query filters on it.
- **No control-character removal.** `clean_text`'s docstring promises to remove control characters. The code only touches whitespace and unencodable code points.
- **Dead filename fallback.** In `upload_files` the `source` fallback to `f.filename` can never apply, because `parse_single` has already set `source` on every chunk (`Uploads.ParsedSourceKept`).

## Model

| member | source | states |
|---|---|---|
| TextUtils.EncodeIgnore | backend/app/utils/text_utils.py:8 | the result has no unencodable code point and is no longer than the input |
| TextUtils.CollapseSpaces | backend/app/utils/text_utils.py:9 | the result uses only single `' '` as whitespace, with no two in a row; it is empty iff the input is, starts with whitespace iff the input does, and keeps encodability |
| TextUtils.CleanText | backend/app/utils/text_utils.py:6-10 | the output has no leading or trailing whitespace |
| TextUtils.CleanTextSingleSpaced | backend/app/utils/text_utils.py:8-10 | the only whitespace in `clean_text` output is `' '`, never two in a row, and the output is UTF-8 encodable |
| TextUtils.CleanTextKeepsText | backend/app/utils/text_utils.py:8-10 | the non-whitespace code points of the output are those of the input minus the unencodable ones, in order |
| TextUtils.CleanTextEmptyIff | backend/app/utils/text_utils.py:8-10 | the output is `""` exactly when the encodable part of the input is blank |
| TextUtils.CleanTextBlank | backend/app/utils/text_utils.py:8-10 | empty or whitespace-only input gives `""` |
| TextUtils.CleanTextIdempotent | backend/app/utils/text_utils.py:6-10 | `clean_text(clean_text(s)) == clean_text(s)` |
| TextUtils.Split | backend/app/utils/text_utils.py:29 | every element of `str.split()` is a non-empty run of non-whitespace |
| TextUtils.CountTokensCountsRuns | backend/app/utils/text_utils.py:27-29 | `count_tokens` equals the number of maximal non-whitespace runs |
| TextUtils.CountTokens | backend/app/utils/text_utils.py:27-29 | `count_tokens` is `len(text.split())`, and it is 0 exactly for empty or whitespace-only text |
| TextUtils.CountTokensCleanText | backend/app/utils/text_utils.py:8-29 | cleaning does not change the word count of the encodable part |
| TextUtils.CountTokensCleanEncodable | backend/app/utils/text_utils.py:8-29 | `count_tokens(clean_text(s)) == count_tokens(s)` for encodable `s` |
| Strings.IsSpace | backend/app/utils/text_utils.py:9 | the code points `str.isspace()`, `re`'s `\s`, `strip()` and `split()` all treat as whitespace (no contract; used by the members below) |
| Strings.Strip | backend/app/utils/text_utils.py:10 | what `strip()` returns neither starts nor ends with whitespace |
| Strings.ReplaceFirst | backend/app/services/resume_agent_service.py:52 | `replace(p, r, 1)` on a string that starts with `p` gives `r` followed by the rest |
| Strings.Join | backend/app/services/resume_agent_service.py:25 | `sep.join(parts)` of a non-empty list starts with its first part |
| Strings.Lower | backend/app/services/parsing_service.py:41 | `lower()` keeps the length and lower-cases each code point (ASCII letters only) |
| Strings.StripEmptyIffBlank | backend/app/utils/text_utils.py:10 | `strip()` yields `""` exactly for blank strings |
| Strings.NonSpacesStrip | backend/app/utils/text_utils.py:10 | `strip()` keeps every non-whitespace code point, in order |
| Paths.Name | backend/app/services/parsing_service.py:82 | `Path.name`: what follows the last slash once trailing slashes are dropped (no contract; stated by `Paths.NameShape`) |
| Paths.NameShape | backend/app/services/parsing_service.py:82 | a name holds no slash and is the end of the path: all of it or what follows its last slash |
| Paths.Suffix | backend/app/routers/uploads.py:60 | `Path.suffix`: from the name's last dot on, unless that dot is its first or last code point (no contract; stated by `Paths.SuffixShape`) |
| Paths.LowerSuffix | backend/app/services/parsing_service.py:75 | `path.suffix.lower()`, the extension both services dispatch on (no contract; see `Paths.SuffixShape` and `Strings.Lower`) |
| Paths.JoinPath | backend/app/routers/uploads.py:56 | `dir / name` starts with `dir + "/"`, or is `name` itself when `name` is absolute or `dir` is empty (`Path("")` is `.`) |
| Paths.SuffixShape | backend/app/services/parsing_service.py:41 | `Path.suffix` is empty or a final `.`-part with no further dot, and is non-empty whenever the name has a dot after its first character and before its last |
| Paths.JoinPathKeepsName | backend/app/routers/uploads.py:64 | `sess_dir / filename` has the same name and lower-cased suffix as `filename` |
| Documents.SetDefault | backend/app/services/parsing_service.py:65 | `setdefault(key, v)` adds `key` with `v` only when missing; an existing value and every other key are kept, and the text is untouched |
| Documents.SetItem | backend/app/routers/uploads.py:75 | `metadata[key] = v` overwrites `key` and keeps every other key and the text |
| Documents.SetDefaultEach | backend/app/services/parsing_service.py:64-65 | the loop applies `setdefault` to every document, in order |
| Documents.SetDefaultAllKeeps | backend/app/services/parsing_service.py:64-65 | afterwards every document has the key; one that had it is unchanged, one that lacked it gains exactly that key |
| ParsingService.SupportedExt | backend/app/services/parsing_service.py:18 | the set `{".pdf", ".txt"}` (no contract) |
| ParsingService.NewService | backend/app/services/parsing_service.py:20-37 | the defaults `data/resumes`, 400 and 50 and the splitter built from them (no contract) |
| ParsingService.LoadDocument | backend/app/services/parsing_service.py:39-49 | `_load_document`: dispatch on the lower-cased suffix (no contract; stated by `ParsingService.LoadDocumentDispatch`) |
| ParsingService.LoadDocumentDispatch | backend/app/services/parsing_service.py:39-49 | a path is supported iff its lower-cased suffix is `.pdf` or `.txt`; `.pdf` selects the PDF loader, `.txt` the text loader, any other lower-cased suffix raises `ValueError("Unsupported file type: <ext>")` |
| ParsingService.ParseSingle | backend/app/services/parsing_service.py:55-66 | the method returns or raises exactly what `ParseResult` says: load, split, then `setdefault("source", path)` on every chunk |
| ParsingService.ParseRejectsUnsupported | backend/app/services/parsing_service.py:48-61 | an unsupported extension's `ValueError` propagates out of `parse_single` |
| ParsingService.ParseKeepsChunks | backend/app/services/parsing_service.py:60-66 | the chunks come back as many and in the same order, each with `source` (kept if present, else the path), text and other keys untouched |
| ParsingService.ParseResultHasSource | backend/app/services/parsing_service.py:64-65 | every chunk `parse_single` returns has a `source` key |
| ParsingService.DirectoryKeys | backend/app/services/parsing_service.py:73-85 | the result's keys are exactly the names of the supported entries |
| ParsingService.DirectorySources | backend/app/services/parsing_service.py:80-82 | every stored chunk has a `source` key |
| ParsingService.DirectoryEntry | backend/app/services/parsing_service.py:77-84 | a supported entry not shadowed by a later one of the same name maps to its chunks, or to `[]` when loading or splitting raised |
| ParsingService.ParseDirectory | backend/app/services/parsing_service.py:68-85 | the loop's map has exactly the supported names as keys, every chunk has `source`, and each unshadowed supported entry maps to its chunks or `[]` |
| DbUrl.RewriteUrl | backend/app/services/resume_agent_service.py:51-52 | a leading `postgres://` becomes `postgresql+psycopg://` once; any other string is unchanged |
| DbUrl.RewriteLeavesNoPostgresScheme | backend/app/services/resume_agent_service.py:51-52 | the rewritten URL never starts with `postgres://` |
| DbUrl.RewriteIdempotent | backend/app/services/resume_agent_service.py:51-52 | rewriting twice equals rewriting once |
| DbUrl.ConnectionFromEnv | backend/app/services/resume_agent_service.py:50-52 | a missing `VECTOR_DB_URL` raises `KeyError`, and only then; otherwise the result is rewritten and has no `postgres://` prefix |
| ResumeAgentService.SourceLabel | backend/app/services/resume_agent_service.py:21 | `metadata.get("source") or metadata.get("file") or "unknown"` (no contract; stated by `ResumeAgentService.SourceLabelChain`) |
| ResumeAgentService.Block | backend/app/services/resume_agent_service.py:22-24 | `f"[source: {src}]\n{text}"` with the stripped text (no contract; see `ResumeAgentService.BlockStartsWithHeader`) |
| ResumeAgentService.FormattedContext | backend/app/services/resume_agent_service.py:25 | the blocks joined by a blank line, or `"NO_CONTEXT"` when there are none (no contract; stated by `ResumeAgentService.NoContextIff` and `ResumeAgentService.BlocksAreTextDocs`) |
| ResumeAgentService.SourceLabelChain | backend/app/services/resume_agent_service.py:21 | the label is a truthy `source`, else a truthy `file`, else `"unknown"` |
| ResumeAgentService.FormatDocs | backend/app/services/resume_agent_service.py:18-25 | the loop returns exactly `FormattedContext(docs)` |
| ResumeAgentService.NoContextIff | backend/app/services/resume_agent_service.py:19-25 | the result is `"NO_CONTEXT"` iff no document has non-blank text (empty list included); otherwise it starts with `"[source: "` |
| ResumeAgentService.BlocksAppend | backend/app/services/resume_agent_service.py:20-24 | the blocks of a concatenation are the concatenated blocks, so blank documents contribute nothing and order is kept |
| ResumeAgentService.BlocksEmptyIff | backend/app/services/resume_agent_service.py:20-24 | there are no blocks iff every document's text is blank |
| ResumeAgentService.BlocksAreTextDocs | backend/app/services/resume_agent_service.py:20-24 | the blocks are `"[source: " + label + "]\n" + strip(text)`, one per document with text, in input order |
| ResumeAgentService.BlockSource | backend/app/services/resume_agent_service.py:20-24 | every block is the block of some input document with text |
| ResumeAgentService.BlockStartsWithHeader | backend/app/services/resume_agent_service.py:24 | every block starts with `"[source: "` |
| ResumeAgentService.ChatHistory.constructor | backend/app/services/resume_agent_service.py:99 | a new history holds no messages |
| ResumeAgentService.ResumeAgent.constructor | backend/app/services/resume_agent_service.py:56-95 | the store, the retriever with the given `k`, the chain's captured copy of it, and an empty session table |
| ResumeAgentService.AgentSetupError | backend/app/services/resume_agent_service.py:54-66 | what building the embeddings, the store and the chat model raises, the first failure winning (no contract) |
| ResumeAgentService.NewResumeAgent | backend/app/services/resume_agent_service.py:37-66 | `KeyError` without `VECTOR_DB_URL`, before anything is built; otherwise the first error a foreign constructor raises, or, when none raises, a fresh agent on the rewritten URL with the given collection and `k` |
| ResumeAgentService.ResumeAgent.GetSessionHistory | backend/app/services/resume_agent_service.py:97-100 | a known id returns its stored history with the table unchanged; an unseen id gets a fresh empty history stored under it; no other key changes |
| ResumeAgentService.ResumeAgent.ResetSession | backend/app/services/resume_agent_service.py:145-147 | the table loses only the given id; an unknown id is a no-op; every other session keeps its history |
| ResumeAgentService.ResumeAgent.AddDocuments | backend/app/services/resume_agent_service.py:111-123 | documents go to the store after `setdefault("source", "unknown")`, and the store's ids are returned |
| ResumeAgentService.AddDocumentsDefaultsSource | backend/app/services/resume_agent_service.py:121-122 | a document with `source` is untouched; one without gets exactly `source="unknown"` added, so its label is `"unknown"` |
| ResumeAgentService.ResumeAgent.Ask | backend/app/services/resume_agent_service.py:125-143 | `self.retriever` is replaced only when `k` is given; the session history is fetched or created; the answer is the model's reply to the prompt built from the chain's construction-time retriever |
| ResumeAgentService.KOverrideIgnored | backend/app/services/resume_agent_service.py:134-138 | with a store returning at most `k` chunks, retrieval with the default `k = 5` yields context where `k = 0` would yield `"NO_CONTEXT"` |
| ResumeAgentService.ResumeAgent.AskWithK | backend/app/services/resume_agent_service.py:134-141 | as `Ask`, but the answer is built from the retriever with the per-call `k` |
| VectorStore.StoreSetupError | backend/app/routers/uploads.py:25-30 | what building the embeddings and then the store raises, the first failure winning (no contract) |
| Uploads.LoadConfig | backend/app/routers/uploads.py:21-33 | `KeyError` without `VECTOR_DB_URL`; otherwise it fails exactly when building the embeddings or the store raises, with that error; `RAW_URL` is rewritten (no `postgres://` prefix); model, collection and upload root fall back to their defaults |
| Uploads.TagChunks | backend/app/routers/uploads.py:73-75 | the loop returns every chunk tagged, in order |
| Uploads.TagAllFacts | backend/app/routers/uploads.py:73-75 | each chunk gets `session_id` set to the request's id (overwriting), `source` kept if present and else the file name, text and other keys kept |
| Uploads.ParsedSourceKept | backend/app/routers/uploads.py:74 | after `parse_single` the `f.filename` fallback never applies: the stored `source` is the parser's |
| Uploads.AcceptedIsParsable | backend/app/routers/uploads.py:60-69 | an accepted file is saved under a path the parser also accepts |
| Uploads.ProcessFile | backend/app/routers/uploads.py:59-78 | one iteration computes exactly `Step`: check, write, parse, tag, store, count |
| Uploads.ProcessFiles | backend/app/routers/uploads.py:59-78 | the `for f in files` loop computes exactly `Run`: the files in order, leaving at the first one that raises |
| Uploads.UploadFiles | backend/app/routers/uploads.py:39-80 | the handler returns and does exactly what `Upload` says |
| Uploads.UploadNoFiles | backend/app/routers/uploads.py:50-51 | no files raises 400 `"No files provided."` before any directory or file is made |
| Uploads.RunAfterError | backend/app/routers/uploads.py:59-78 | once a file has raised, later files change nothing |
| Uploads.UploadStopsAtUnsupported | backend/app/routers/uploads.py:59-62 | the first unsupported suffix raises 415 `"Unsupported type: <suffix>"`, and the earlier files' writes and store calls stay in the log |
| Uploads.RunCounts | backend/app/routers/uploads.py:53-78 | `files_saved` equals the files written; without an error it is one per file, and `chunks_indexed` equals the chunks sent to the store |
| Uploads.StepNoChunks | backend/app/routers/uploads.py:64-71 | a file with no chunks is counted as saved, adds 0 and makes no store call |
| Uploads.RunTagsSession | backend/app/routers/uploads.py:73-77 | every chunk sent to the store carries the request's `session_id` and a `source` |
| Uploads.RunAllAccepted | backend/app/routers/uploads.py:59-62 | a run without error accepted only `.txt`/`.pdf` files |
| Uploads.UploadSuccess | backend/app/routers/uploads.py:59-80 | with at least one file and nothing raised, the upload succeeds: the response echoes `session_id`, `files_saved == len(files)`, `chunks_indexed` is the number of chunks stored, and all of them are tagged |

## Left out

- Text splitter: the chunking of `RecursiveCharacterTextSplitter` (and `chunk_text`, which only calls it) belongs to an external library. It is an uninterpreted `split` function, and no chunk-size or overlap bound is claimed.
- Loaders, store, embeddings, chat model: `PyPDFLoader`, `TextLoader`, PGVector, the HuggingFace embeddings and Gemini are uninterpreted calls. Their constructors may raise, and a `VectorStore.Setup` value says whether they do; whether `GEMINI_API_KEY` is present is the chat model's business, which receives the environment. The model name, temperature and prompt text are configuration of foreign components.
- Writing and reading uploads: the model does not connect the bytes an upload writes with what the loader later reads from that path.
- Turn appending: `RunnableWithMessageHistory` appends the question and reply to the session history after a call. That happens inside the library, so `Ask` leaves the history's messages as they were.
- The reply's `.content` attribute: `getattr(resp, "content", str(resp))` is folded into `generate`, which returns the text.
- `ResumeAgentService.Block`: `page_content or ""` is not modelled, because a `Document`'s text is always a string here.
- Session-filtered retrieval: the code does not have it, so the model does not claim any isolation between sessions.
- The other files: `backend/app/routers/chat.py`, `backend/app/routers/ingestion.py`, `backend/app/main.py`, the scripts and the frontend are not part of this model.
- Environment and I/O:
  - `load_dotenv` is not modelled; the environment is a map passed in.
  - The `mkdir` of `UPLOAD_ROOT` at import time is not modelled.
  - For `parse_directory`, the directory listing (`glob("*")`) is taken as a given sequence of paths.
- Uploads.UploadFiles: a request with no `files` part is not modelled; the model takes a list of files, and `Uploads.UploadNoFiles` covers only an explicit empty list. On such a request `files` is `None`, and line 49 rebinds it to the marker object `File(...)` returns, not to a list. That object is truthy, so the 400 is not raised, `sess_dir` is still created, and the loop then iterates over the marker.
- Upload validation: the 422 that FastAPI returns for an empty `session_id` is the precondition of `Uploads.UploadFiles`.
- Paths: `pathlib` normalisation of `.` parts, repeated slashes and trailing slashes of a directory is not modelled; names, suffixes and joins follow the code's use of them. An empty directory is `Path(".")`, and joining onto it leaves the name relative.
- Strings.Lower: `lower()` is modelled on ASCII letters only. That cannot change which suffixes are accepted, but a suffix echoed in an error message may differ for non-ASCII text.
- Control characters: `clean_text` does not remove them, so neither does the model.

## Findings

| source | as written | input that shows it | evidently intended | confidence | as-written member | corrected member |
|---|---|---|---|---|---|---|
| backend/app/services/resume_agent_service.py:85-138 | `ask(k=...)` reassigns `self.retriever`, but the chain built in `__init__` holds the original retriever, so the per-call `k` never reaches retrieval | agent built with the default `k = 5`, store holding one matching chunk, `ask("q", k=0)`: the answer still uses that chunk instead of `"NO_CONTEXT"` | retrieval uses the per-call `k` ("adjust retriever on the fly") | high; not executed | ResumeAgentService.KOverrideIgnored | ResumeAgentService.ResumeAgent.AskWithK |
