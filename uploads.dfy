/**
 * The upload endpoint (backend/app/routers/uploads.py): `POST /upload/`
 * saves each uploaded TXT/PDF file under the session's directory, parses
 * and chunks it, tags every chunk with the session id and adds the chunks
 * to the shared collection, counting files saved and chunks indexed.
 *
 * The file system and the store are not modelled as such: what the handler
 * does to them is returned as a log of `Effect`s, in order.
 */
module Uploads {
  import opened Strings
  import opened Documents
  import opened Paths
  import opened DbUrl
  import opened VectorStore
  import opened ParsingService

  type Byte = b: int | 0 <= b < 256

  /** The module-level settings, read from the environment at import time. */
  datatype Config = Config(rawUrl: PyStr, embedModel: PyStr, collection: PyStr, uploadRoot: PyStr)

  /** `os.getenv(key, default)`. */
  function GetEnv(env: map<PyStr, PyStr>, key: PyStr, default: PyStr): PyStr {
    if key in env then env[key] else default
  }

  function DefaultEmbedModel(): PyStr { MiniLmModel() }
  function DefaultCollection(): PyStr { Lit("resumes") }
  function DefaultUploadRoot(): PyStr { Lit("data/uploads") }

  /**
   * `RAW_URL`, `EMBED_MODEL`, `COLLECTION` and `UPLOAD_ROOT`, and the
   * import-time `emb` and `vs`. `VECTOR_DB_URL` is required (`KeyError`
   * otherwise, before anything is built) and gets the same rewrite as in the
   * agent; the others fall back to their defaults. Building the embeddings
   * or the store may raise, and then the import fails with that error.
   */
  function LoadConfig(env: map<PyStr, PyStr>, setup: Setup): (r: Result<Config>)
    ensures VectorDbUrlKey() !in env <==> r == Err(KeyError(VectorDbUrlKey()))
    ensures VectorDbUrlKey() in env ==>
      var failed := StoreSetupError(setup, GetEnv(env, Lit("EMBEDDING_MODEL"), DefaultEmbedModel()),
        RewriteUrl(env[VectorDbUrlKey()]), GetEnv(env, Lit("RESUME_COLLECTION"), DefaultCollection()));
      (r.Ok? <==> failed.None?) && (failed.Some? ==> r == Err(ForeignError(failed.value)))
    ensures r.Ok? ==> r.value.rawUrl == RewriteUrl(env[VectorDbUrlKey()])
    ensures r.Ok? ==> !StartsWith(r.value.rawUrl, PostgresScheme())
    ensures r.Ok? ==> r.value.embedModel == GetEnv(env, Lit("EMBEDDING_MODEL"), DefaultEmbedModel())
    ensures r.Ok? ==> r.value.collection == GetEnv(env, Lit("RESUME_COLLECTION"), DefaultCollection())
    ensures r.Ok? ==> r.value.uploadRoot == GetEnv(env, Lit("UPLOAD_ROOT"), DefaultUploadRoot())
  {
    var url :- ConnectionFromEnv(env);
    var cfg := Config(url,
      GetEnv(env, Lit("EMBEDDING_MODEL"), DefaultEmbedModel()),
      GetEnv(env, Lit("RESUME_COLLECTION"), DefaultCollection()),
      GetEnv(env, Lit("UPLOAD_ROOT"), DefaultUploadRoot()));
    match StoreSetupError(setup, cfg.embedModel, url, cfg.collection)
    case Some(m) => Err(ForeignError(m))
    case None => Ok(cfg)
  }

  /** The router's own objects: its settings, the parser's loaders and splitter, and the store. */
  datatype Router = Router(cfg: Config, io: Io, backend: Backend)

  /** `vs = PGVector(connection=RAW_URL, collection_name=COLLECTION, ...)`. */
  function RouterStore(rt: Router): Store {
    PGVector(rt.cfg.rawUrl, rt.cfg.collection)
  }

  /** `parser = ParsingService()`. */
  function RouterParser(): Service {
    NewService()
  }

  /** An uploaded file: its client-side name and its bytes. */
  datatype UploadFile = UploadFile(filename: PyStr, content: seq<Byte>)

  /** What the handler does outside its own variables. */
  datatype Effect =
    | MakeDirs(path: PyStr)
    | WriteFile(path: PyStr, content: seq<Byte>)
    | AddDocuments(chunks: seq<Document>)

  /** `{"session_id": ..., "files_saved": ..., "chunks_indexed": ...}`. */
  datatype UploadResponse = UploadResponse(sessionId: PyStr, filesSaved: nat, chunksIndexed: nat)

  /** The suffixes the handler accepts, `{".txt", ".pdf"}`. */
  function AllowedSuffixes(): set<PyStr> {
    {Lit(".txt"), Lit(".pdf")}
  }

  function NoFiles(): Error { HttpException(400, Lit("No files provided.")) }

  function UnsupportedType(suffix: PyStr): Error { HttpException(415, Lit("Unsupported type: ") + suffix) }

  /** `UPLOAD_ROOT / session_id`. */
  function SessionDir(rt: Router, sessionId: PyStr): PyStr {
    JoinPath(rt.cfg.uploadRoot, sessionId)
  }

  /** `d.metadata.setdefault("source", filename)` then `d.metadata["session_id"] = session_id`. */
  function TagChunk(d: Document, filename: PyStr, sessionId: PyStr): Document {
    SetItem(SetDefault(d, SourceKey(), Str(filename)), SessionIdKey(), Str(sessionId))
  }

  /** The tagging applied to every chunk, in order. */
  function TagAll(chunks: seq<Document>, filename: PyStr, sessionId: PyStr): (r: seq<Document>)
    ensures |r| == |chunks|
    ensures forall i :: 0 <= i < |chunks| ==> r[i] == TagChunk(chunks[i], filename, sessionId)
  {
    seq(|chunks|, i requires 0 <= i < |chunks| => TagChunk(chunks[i], filename, sessionId))
  }

  /** The inner loop over `chunks`; the tagged list is returned. */
  method TagChunks(chunks: seq<Document>, filename: PyStr, sessionId: PyStr) returns (r: seq<Document>)
    ensures r == TagAll(chunks, filename, sessionId)
  {
    r := [];
    var i := 0;
    while i < |chunks|
      invariant 0 <= i <= |chunks|
      invariant r == TagAll(chunks[..i], filename, sessionId)
    {
      var d := SetDefault(chunks[i], SourceKey(), Str(filename));
      d := SetItem(d, SessionIdKey(), Str(sessionId));
      r := r + [d];
      i := i + 1;
    }
    assert chunks[..i] == chunks;
  }

  /**
   * Tagging gives every chunk the request's session id, overwriting any
   * earlier one; `source` keeps a value already present and is the file
   * name only on chunks that had none; the text and other keys are kept.
   */
  lemma TagAllFacts(chunks: seq<Document>, filename: PyStr, sessionId: PyStr, i: nat)
    requires i < |chunks|
    ensures var d := TagAll(chunks, filename, sessionId)[i];
      && d.pageContent == chunks[i].pageContent
      && d.metadata.Keys == chunks[i].metadata.Keys + {SourceKey(), SessionIdKey()}
      && d.metadata[SessionIdKey()] == Str(sessionId)
      && d.metadata[SourceKey()] ==
           (if SourceKey() in chunks[i].metadata then chunks[i].metadata[SourceKey()] else Str(filename))
      && forall k :: k in chunks[i].metadata && k != SessionIdKey() ==> d.metadata[k] == chunks[i].metadata[k]
  {
    var c := chunks[i];
    var s := SetDefault(c, SourceKey(), Str(filename));
    assert TagAll(chunks, filename, sessionId)[i] == SetItem(s, SessionIdKey(), Str(sessionId));
    assert SourceKey() != SessionIdKey() by {
      assert SourceKey()[1] != SessionIdKey()[1];
    }
  }

  /**
   * After `parse_single` every chunk already has `source`, so the
   * `f.filename` fallback never applies: the stored source is the one the
   * parser left, the loader's own or the saved file's path.
   */
  lemma ParsedSourceKept(path: PyStr, io: Io, filename: PyStr, sessionId: PyStr, i: nat)
    requires ParseResult(RouterParser(), path, io).Ok?
    requires i < |ParseResult(RouterParser(), path, io).value|
    ensures var chunks := ParseResult(RouterParser(), path, io).value;
      TagAll(chunks, filename, sessionId)[i].metadata[SourceKey()] == chunks[i].metadata[SourceKey()]
  {
    var chunks := ParseResult(RouterParser(), path, io).value;
    ParseKeepsChunks(RouterParser(), path, io);
    TagAllFacts(chunks, filename, sessionId, i);
  }

  /**
   * A file the handler accepts is saved under a path with the same name
   * and suffix, so the parser's own extension check accepts it too.
   */
  lemma AcceptedIsParsable(dir: PyStr, filename: PyStr)
    requires LowerSuffix(filename) in AllowedSuffixes()
    ensures Supported(JoinPath(dir, filename))
    ensures LowerSuffix(JoinPath(dir, filename)) == LowerSuffix(filename)
  {
    assert Suffix(Name(filename)) != [];
    JoinPathKeepsName(dir, filename);
  }

  /** The loop's state: a raised error, if any, the two counters, and the effects after `mkdir`. */
  datatype Progress = Progress(error: Option<Error>, saved: nat, indexed: nat, effects: seq<Effect>)

  /** Where `f` is saved: `sess_dir / f.filename`. */
  function UploadPath(rt: Router, sessionId: PyStr, f: UploadFile): PyStr {
    JoinPath(SessionDir(rt, sessionId), f.filename)
  }

  /** One iteration of `for f in files` on a file, from a state without error. */
  function Step(rt: Router, sessionId: PyStr, p: Progress, f: UploadFile): Progress {
    var suffix := LowerSuffix(f.filename);
    if suffix !in AllowedSuffixes() then p.(error := Some(UnsupportedType(suffix)))
    else
      var path := UploadPath(rt, sessionId, f);
      var written := Progress(None, p.saved + 1, p.indexed, p.effects + [WriteFile(path, f.content)]);
      AfterParse(rt, sessionId, written, f, ParseResult(RouterParser(), path, rt.io))
  }

  /** The rest of an iteration once the file is written and `parse_single` has returned or raised. */
  function AfterParse(rt: Router, sessionId: PyStr, p: Progress, f: UploadFile, parsed: Result<seq<Document>>): Progress {
    match parsed
    case Err(e) => p.(error := Some(e))
    case Ok(chunks) =>
      if chunks == [] then p
      else
        var tagged := TagAll(chunks, f.filename, sessionId);
        var stored := p.(effects := p.effects + [AddDocuments(tagged)]);
        match rt.backend.add(RouterStore(rt), tagged)
        case Err(e) => stored.(error := Some(e))
        case Ok(_) => stored.(indexed := p.indexed + |tagged|)
  }

  /** An accepted file is written and counted before it is parsed. */
  lemma StepAccepted(rt: Router, sessionId: PyStr, p: Progress, f: UploadFile)
    requires LowerSuffix(f.filename) in AllowedSuffixes()
    ensures var path := UploadPath(rt, sessionId, f);
      Step(rt, sessionId, p, f) ==
        AfterParse(rt, sessionId, Progress(None, p.saved + 1, p.indexed, p.effects + [WriteFile(path, f.content)]),
          f, ParseResult(RouterParser(), path, rt.io))
  {
  }

  /** The state after the loop has gone through `files`; once an error is raised nothing more happens. */
  function Run(rt: Router, sessionId: PyStr, files: seq<UploadFile>): Progress
    decreases |files|
  {
    if files == [] then Progress(None, 0, 0, [])
    else
      var p := Run(rt, sessionId, files[..|files| - 1]);
      if p.error.Some? then p else Step(rt, sessionId, p, files[|files| - 1])
  }

  /** What `upload_files(session_id, files)` returns or raises, and what it did. */
  function Upload(rt: Router, sessionId: PyStr, files: seq<UploadFile>): (Result<UploadResponse>, seq<Effect>) {
    if files == [] then (Err(NoFiles()), [])
    else
      var p := Run(rt, sessionId, files);
      var effects := [MakeDirs(SessionDir(rt, sessionId))] + p.effects;
      if p.error.Some? then (Err(p.error.value), effects)
      else (Ok(UploadResponse(sessionId, p.saved, p.indexed)), effects)
  }

  /**
   * The body of `for f in files`: check the suffix, write the file, parse
   * it, tag and store its chunks, updating the counters.
   */
  method ProcessFile(rt: Router, sessionId: PyStr, f: UploadFile, saved: nat, indexed: nat, log: seq<Effect>)
    returns (p: Progress)
    ensures p == Step(rt, sessionId, Progress(None, saved, indexed, log), f)
  {
    var suffix := LowerSuffix(f.filename);
    if suffix !in AllowedSuffixes() {
      return Progress(Some(UnsupportedType(suffix)), saved, indexed, log);
    }
    var path := UploadPath(rt, sessionId, f);
    var written := log + [WriteFile(path, f.content)];
    var chunks := ParseSingle(RouterParser(), path, rt.io);
    StepAccepted(rt, sessionId, Progress(None, saved, indexed, log), f);
    if chunks.Err? {
      return Progress(Some(chunks.error), saved + 1, indexed, written);
    }
    if chunks.value == [] {
      return Progress(None, saved + 1, indexed, written);
    }
    var tagged := TagChunks(chunks.value, f.filename, sessionId);
    var stored := written + [AddDocuments(tagged)];
    var ids := rt.backend.add(RouterStore(rt), tagged);
    if ids.Err? {
      return Progress(Some(ids.error), saved + 1, indexed, stored);
    }
    p := Progress(None, saved + 1, indexed + |tagged|, stored);
  }

  /**
   * `for f in files: ...`: the files in order, leaving the loop at the
   * first one that raises.
   */
  method ProcessFiles(rt: Router, sessionId: PyStr, files: seq<UploadFile>) returns (p: Progress)
    ensures p == Run(rt, sessionId, files)
  {
    p := Progress(None, 0, 0, []);
    var i := 0;
    while i < |files|
      invariant 0 <= i <= |files|
      invariant p.error.None? && Run(rt, sessionId, files[..i]) == p
    {
      RunNext(rt, sessionId, files, i);
      p := ProcessFile(rt, sessionId, files[i], p.saved, p.indexed, p.effects);
      if p.error.Some? {
        RunAfterError(rt, sessionId, files, i + 1);
        return;
      }
      i := i + 1;
    }
    assert files[..i] == files;
  }

  /**
   * `upload_files(session_id, files)`. FastAPI rejects a `session_id`
   * shorter than one character before the handler runs.
   */
  method UploadFiles(rt: Router, sessionId: PyStr, files: seq<UploadFile>)
    returns (r: Result<UploadResponse>, effects: seq<Effect>)
    requires |sessionId| >= 1
    ensures (r, effects) == Upload(rt, sessionId, files)
  {
    if files == [] {
      return Err(NoFiles()), [];
    }
    var p := ProcessFiles(rt, sessionId, files);
    UploadOfRun(rt, sessionId, files);
    effects := [MakeDirs(SessionDir(rt, sessionId))] + p.effects;
    if p.error.Some? {
      r := Err(p.error.value);
    } else {
      r := Ok(UploadResponse(sessionId, p.saved, p.indexed));
    }
  }

  /** `Upload` in terms of the loop's final state. */
  lemma UploadOfRun(rt: Router, sessionId: PyStr, files: seq<UploadFile>)
    requires files != []
    ensures var p := Run(rt, sessionId, files);
      var effects := [MakeDirs(SessionDir(rt, sessionId))] + p.effects;
      Upload(rt, sessionId, files) ==
        if p.error.Some? then (Err(p.error.value), effects)
        else (Ok(UploadResponse(sessionId, p.saved, p.indexed)), effects)
  {
  }

  /** The state after one more file. */
  lemma RunNext(rt: Router, sessionId: PyStr, files: seq<UploadFile>, i: nat)
    requires i < |files|
    ensures var p := Run(rt, sessionId, files[..i]);
      Run(rt, sessionId, files[..i + 1]) == if p.error.Some? then p else Step(rt, sessionId, p, files[i])
  {
    assert files[..i + 1][..i] == files[..i];
    assert files[..i + 1][i] == files[i];
  }

  /** Once a file has raised, the later files change nothing: there is no rollback and no further work. */
  lemma {:induction false} RunAfterError(rt: Router, sessionId: PyStr, files: seq<UploadFile>, i: nat)
    requires i <= |files|
    requires Run(rt, sessionId, files[..i]).error.Some?
    ensures Run(rt, sessionId, files) == Run(rt, sessionId, files[..i])
    decreases |files| - i
  {
    if i < |files| {
      var n := |files| - 1;
      var init := files[..n];
      assert init[..i] == files[..i];
      RunAfterError(rt, sessionId, init, i);
      var p := Run(rt, sessionId, init);
      assert p.error.Some?;
      assert Run(rt, sessionId, files) == p;
    } else {
      assert files[..i] == files;
    }
  }

  /** An empty file list raises 400 before the session directory is made or anything is saved. */
  lemma UploadNoFiles(rt: Router, sessionId: PyStr)
    ensures Upload(rt, sessionId, []) == (Err(HttpException(400, Lit("No files provided."))), [])
  {
  }

  /**
   * The first file with a suffix other than `.txt`/`.pdf` raises 415;
   * what the earlier files wrote and stored stays, and no later file is
   * looked at.
   */
  lemma UploadStopsAtUnsupported(rt: Router, sessionId: PyStr, files: seq<UploadFile>, i: nat)
    requires i < |files|
    requires Run(rt, sessionId, files[..i]).error.None?
    requires LowerSuffix(files[i].filename) !in AllowedSuffixes()
    ensures Upload(rt, sessionId, files).0 == Err(UnsupportedType(LowerSuffix(files[i].filename)))
    ensures Upload(rt, sessionId, files).1 ==
      [MakeDirs(SessionDir(rt, sessionId))] + Run(rt, sessionId, files[..i]).effects
  {
    assert files[..i + 1][..i] == files[..i];
    assert files[..i + 1][i] == files[i];
    RunAfterError(rt, sessionId, files, i + 1);
  }

  /** The number of `WriteFile` effects. */
  function Writes(effects: seq<Effect>): nat
    decreases |effects|
  {
    if effects == [] then 0
    else Writes(effects[..|effects| - 1]) + (if effects[|effects| - 1].WriteFile? then 1 else 0)
  }

  /** The number of chunks handed to the store. */
  function Stored(effects: seq<Effect>): nat
    decreases |effects|
  {
    if effects == [] then 0
    else
      var e := effects[|effects| - 1];
      Stored(effects[..|effects| - 1]) + (if e.AddDocuments? then |e.chunks| else 0)
  }

  lemma WritesAppend(a: seq<Effect>, e: Effect)
    ensures Writes(a + [e]) == Writes(a) + (if e.WriteFile? then 1 else 0)
    ensures Stored(a + [e]) == Stored(a) + (if e.AddDocuments? then |e.chunks| else 0)
  {
    assert (a + [e])[..|a|] == a;
  }

  /**
   * `saved` counts the files written, each once, whether or not it yields
   * chunks; without an error every file was written and `indexed` is the
   * number of chunks handed to the store.
   */
  lemma {:induction false} RunCounts(rt: Router, sessionId: PyStr, files: seq<UploadFile>)
    ensures var p := Run(rt, sessionId, files);
      && p.saved == Writes(p.effects)
      && (p.error.None? ==> p.saved == |files| && p.indexed == Stored(p.effects))
    decreases |files|
  {
    if files != [] {
      var init := files[..|files| - 1];
      var f := files[|files| - 1];
      RunCounts(rt, sessionId, init);
      var p := Run(rt, sessionId, init);
      if p.error.None? {
        var path := JoinPath(SessionDir(rt, sessionId), f.filename);
        var written := p.effects + [WriteFile(path, f.content)];
        WritesAppend(p.effects, WriteFile(path, f.content));
        var pr := ParseResult(RouterParser(), path, rt.io);
        if pr.Ok? && pr.value != [] {
          var tagged := TagAll(pr.value, f.filename, sessionId);
          WritesAppend(written, AddDocuments(tagged));
        }
      }
    }
  }

  /** A file whose parse yields no chunks is counted as saved, adds 0 and makes no store call. */
  lemma StepNoChunks(rt: Router, sessionId: PyStr, p: Progress, f: UploadFile)
    requires LowerSuffix(f.filename) in AllowedSuffixes()
    requires ParseResult(RouterParser(), JoinPath(SessionDir(rt, sessionId), f.filename), rt.io) == Ok([])
    ensures Step(rt, sessionId, p, f) ==
      Progress(None, p.saved + 1, p.indexed, p.effects + [WriteFile(JoinPath(SessionDir(rt, sessionId), f.filename), f.content)])
  {
  }

  /** Every chunk handed to the store carries the request's session id and a source. */
  predicate AllTagged(effects: seq<Effect>, sessionId: PyStr) {
    forall j, c :: 0 <= j < |effects| && effects[j].AddDocuments? && c in effects[j].chunks ==>
      && SessionIdKey() in c.metadata && c.metadata[SessionIdKey()] == Str(sessionId)
      && SourceKey() in c.metadata
  }

  /** The chunks of one store call all carry the session id and a source. */
  predicate Tagged(chunks: seq<Document>, sessionId: PyStr) {
    forall c :: c in chunks ==>
      && SessionIdKey() in c.metadata && c.metadata[SessionIdKey()] == Str(sessionId)
      && SourceKey() in c.metadata
  }

  lemma AllTaggedAppend(effects: seq<Effect>, e: Effect, sessionId: PyStr)
    requires AllTagged(effects, sessionId)
    requires e.AddDocuments? ==> Tagged(e.chunks, sessionId)
    ensures AllTagged(effects + [e], sessionId)
  {
    var r := effects + [e];
    forall j, c | 0 <= j < |r| && r[j].AddDocuments? && c in r[j].chunks
      ensures SessionIdKey() in c.metadata && c.metadata[SessionIdKey()] == Str(sessionId)
      ensures SourceKey() in c.metadata
    {
      if j < |effects| {
        assert r[j] == effects[j];
      } else {
        assert r[j] == e;
      }
    }
  }

  lemma TagAllTagged(chunks: seq<Document>, filename: PyStr, sessionId: PyStr)
    ensures Tagged(TagAll(chunks, filename, sessionId), sessionId)
  {
    var tagged := TagAll(chunks, filename, sessionId);
    forall c | c in tagged
      ensures SessionIdKey() in c.metadata && c.metadata[SessionIdKey()] == Str(sessionId)
      ensures SourceKey() in c.metadata
    {
      var k :| 0 <= k < |tagged| && tagged[k] == c;
      TagAllFacts(chunks, filename, sessionId, k);
    }
  }

  lemma {:induction false} RunTagsSession(rt: Router, sessionId: PyStr, files: seq<UploadFile>)
    ensures AllTagged(Run(rt, sessionId, files).effects, sessionId)
    decreases |files|
  {
    if files != [] {
      var init := files[..|files| - 1];
      var f := files[|files| - 1];
      RunTagsSession(rt, sessionId, init);
      var p := Run(rt, sessionId, init);
      if p.error.None? && LowerSuffix(f.filename) in AllowedSuffixes() {
        var path := JoinPath(SessionDir(rt, sessionId), f.filename);
        var w := WriteFile(path, f.content);
        AllTaggedAppend(p.effects, w, sessionId);
        var pr := ParseResult(RouterParser(), path, rt.io);
        if pr.Ok? && pr.value != [] {
          var tagged := TagAll(pr.value, f.filename, sessionId);
          TagAllTagged(pr.value, f.filename, sessionId);
          AllTaggedAppend(p.effects + [w], AddDocuments(tagged), sessionId);
        }
      }
    }
  }

  /** Without an error every file had an accepted suffix. */
  lemma {:induction false} RunAllAccepted(rt: Router, sessionId: PyStr, files: seq<UploadFile>, i: nat)
    requires i < |files|
    requires Run(rt, sessionId, files).error.None?
    ensures LowerSuffix(files[i].filename) in AllowedSuffixes()
    decreases |files|
  {
    var init := files[..|files| - 1];
    if i < |files| - 1 {
      assert init[i] == files[i];
      RunAllAccepted(rt, sessionId, init, i);
    }
  }

  /**
   * An upload of at least one file in which nothing raised succeeds: it
   * echoes the session id, reports every file as saved, reports as indexed
   * the chunks it handed to the store, tagged all of them with the session
   * id, and accepted only `.txt`/`.pdf` files.
   */
  lemma UploadSuccess(rt: Router, sessionId: PyStr, files: seq<UploadFile>)
    requires files != []
    requires Run(rt, sessionId, files).error.None?
    ensures var (r, effects) := Upload(rt, sessionId, files);
      && r.Ok?
      && r.value.sessionId == sessionId
      && r.value.filesSaved == |files| == Writes(effects)
      && r.value.chunksIndexed == Stored(effects)
      && AllTagged(effects, sessionId)
      && forall i :: 0 <= i < |files| ==> LowerSuffix(files[i].filename) in AllowedSuffixes()
  {
    var p := Run(rt, sessionId, files);
    RunCounts(rt, sessionId, files);
    RunTagsSession(rt, sessionId, files);
    PrefixCounts(SessionDir(rt, sessionId), p.effects);
    forall i | 0 <= i < |files| ensures LowerSuffix(files[i].filename) in AllowedSuffixes() {
      RunAllAccepted(rt, sessionId, files, i);
    }
  }

  /** A leading `mkdir` changes neither count nor the tagging. */
  lemma {:induction false} PrefixCounts(dir: PyStr, effects: seq<Effect>)
    ensures var head := [MakeDirs(dir)];
      && Writes(head + effects) == Writes(effects)
      && Stored(head + effects) == Stored(effects)
    decreases |effects|
  {
    var head := [MakeDirs(dir)];
    if effects == [] {
      assert head + effects == head;
      assert head[..0] == [];
    } else {
      var init := effects[..|effects| - 1];
      var e := effects[|effects| - 1];
      assert head + effects == (head + init) + [e];
      WritesAppend(head + init, e);
      WritesAppend(init, e);
      assert init + [e] == effects;
      PrefixCounts(dir, init);
    }
  }
}
