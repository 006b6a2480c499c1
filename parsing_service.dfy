/**
 * ParsingService (backend/app/services/parsing_service.py): load a PDF or
 * TXT file with the loader its extension selects, split it into chunks and
 * make sure every chunk names its source; either for one file or for every
 * supported file of a directory.
 *
 * The loaders and the text splitter are foreign components; they are the
 * function-valued fields of `Io`, and each may raise (an `Err` result).
 */
module ParsingService {
  import opened Strings
  import opened Documents
  import opened Paths

  /** `ParsingService.SUPPORTED_EXT`. */
  function SupportedExt(): set<PyStr> {
    {Lit(".pdf"), Lit(".txt")}
  }

  datatype LoaderKind = PyPdfLoader | TextLoader

  /** `RecursiveCharacterTextSplitter(chunk_size=..., chunk_overlap=...)`. */
  datatype Splitter = RecursiveCharacterTextSplitter(chunkSize: int, chunkOverlap: int)

  /**
   * The foreign calls: `XLoader(str(path)).load()` and
   * `splitter.split_documents(docs)`.
   */
  datatype Io = Io(
    load: (LoaderKind, PyStr) -> Result<seq<Document>>,
    split: (Splitter, seq<Document>) -> Result<seq<Document>>)

  /** A `ParsingService` instance: its directory and its splitter. */
  datatype Service = Service(dataDir: PyStr, splitter: Splitter)

  /** `ParsingService(data_dir="data/resumes", chunk_size=400, chunk_overlap=50)`. */
  function NewService(dataDir: PyStr := Lit("data/resumes"), chunkSize: int := 400, chunkOverlap: int := 50): Service {
    Service(dataDir, RecursiveCharacterTextSplitter(chunkSize, chunkOverlap))
  }

  /** `ParsingService._load_document(path)`: dispatch on the lower-cased extension. */
  function LoadDocument(path: PyStr, io: Io): Result<seq<Document>> {
    var ext := LowerSuffix(path);
    if ext == Lit(".pdf") then io.load(PyPdfLoader, path)
    else if ext == Lit(".txt") then io.load(TextLoader, path)
    else Err(ValueError(Lit("Unsupported file type: ") + ext))
  }

  /**
   * The loader is chosen by the lower-cased suffix, `.pdf` or `.txt`, and
   * any other suffix raises `ValueError`; so `.TXT` is read as text.
   */
  lemma LoadDocumentDispatch(path: PyStr, io: Io)
    ensures Supported(path) <==> LowerSuffix(path) == Lit(".pdf") || LowerSuffix(path) == Lit(".txt")
    ensures LowerSuffix(path) == Lit(".pdf") ==> LoadDocument(path, io) == io.load(PyPdfLoader, path)
    ensures LowerSuffix(path) == Lit(".txt") ==> LoadDocument(path, io) == io.load(TextLoader, path)
    ensures !Supported(path) ==>
      LoadDocument(path, io) == Err(ValueError(Lit("Unsupported file type: ") + LowerSuffix(path)))
  {
  }

  /** What `parse_single(path)` returns or raises. */
  function ParseResult(svc: Service, path: PyStr, io: Io): Result<seq<Document>> {
    var docs :- LoadDocument(path, io);
    var chunks :- io.split(svc.splitter, docs);
    Ok(SetDefaultAll(chunks, SourceKey(), Str(path)))
  }

  /** `ParsingService.parse_single(path)`. */
  method ParseSingle(svc: Service, path: PyStr, io: Io) returns (r: Result<seq<Document>>)
    ensures r == ParseResult(svc, path, io)
  {
    var docs := LoadDocument(path, io);
    if docs.Err? {
      return Err(docs.error);
    }
    var chunks := io.split(svc.splitter, docs.value);
    if chunks.Err? {
      return Err(chunks.error);
    }
    var tagged := SetDefaultEach(chunks.value, SourceKey(), Str(path));
    r := Ok(tagged);
  }

  /** `parse_single` lets the loader's `ValueError` for an unsupported extension through. */
  lemma ParseRejectsUnsupported(svc: Service, path: PyStr, io: Io)
    requires LowerSuffix(path) !in SupportedExt()
    ensures ParseResult(svc, path, io) == Err(ValueError(Lit("Unsupported file type: ") + LowerSuffix(path)))
  {
    var d := LoadDocument(path, io);
    assert d.Err?;
  }

  /**
   * On success `parse_single` returns the splitter's chunks, as many and in
   * the same order, each with a `source` key: the one it had, or else `path`;
   * the text and every other key are left alone.
   */
  lemma ParseKeepsChunks(svc: Service, path: PyStr, io: Io)
    requires ParseResult(svc, path, io).Ok?
    ensures LoadDocument(path, io).Ok?
    ensures io.split(svc.splitter, LoadDocument(path, io).value).Ok?
    ensures
      var chunks := io.split(svc.splitter, LoadDocument(path, io).value).value;
      var r := ParseResult(svc, path, io).value;
      && |r| == |chunks|
      && forall i :: 0 <= i < |r| ==>
        && r[i].pageContent == chunks[i].pageContent
        && r[i].metadata.Keys == chunks[i].metadata.Keys + {SourceKey()}
        && r[i].metadata[SourceKey()] ==
             (if SourceKey() in chunks[i].metadata then chunks[i].metadata[SourceKey()] else Str(path))
        && forall k :: k in chunks[i].metadata ==> r[i].metadata[k] == chunks[i].metadata[k]
  {
    var d := LoadDocument(path, io);
    var c := io.split(svc.splitter, d.value);
    assert ParseResult(svc, path, io) == Ok(SetDefaultAll(c.value, SourceKey(), Str(path)));
  }

  /** What the directory scan stores for one supported file: its chunks, or `[]` if anything raised. */
  function OrEmpty(r: Result<seq<Document>>): seq<Document> {
    if r.Ok? then r.value else []
  }

  /** No later entry of `listing` has the same file name as entry `i`. */
  predicate LastWithName(listing: seq<PyStr>, i: nat)
    requires i < |listing|
  {
    forall j :: i < j < |listing| ==> Name(listing[j]) != Name(listing[i])
  }

  /** `path.suffix.lower() in SUPPORTED_EXT`. */
  predicate Supported(path: PyStr) {
    LowerSuffix(path) in SupportedExt()
  }

  /** The file names of the supported entries of `listing`. */
  function SupportedNames(listing: seq<PyStr>): set<PyStr> {
    set p | p in listing && Supported(p) :: Name(p)
  }

  /** Every chunk of every file in `results` carries a `source` key. */
  predicate AllHaveSource(results: map<PyStr, seq<Document>>) {
    forall n :: n in results ==> forall c :: c in results[n] ==> SourceKey() in c.metadata
  }

  lemma ParseResultHasSource(svc: Service, path: PyStr, io: Io)
    ensures forall c :: c in OrEmpty(ParseResult(svc, path, io)) ==> SourceKey() in c.metadata
  {
  }

  /** The map `parse_directory` has built after going through `listing`. */
  function DirectoryResults(svc: Service, listing: seq<PyStr>, io: Io): map<PyStr, seq<Document>>
    decreases |listing|
  {
    if listing == [] then map[]
    else
      var prev := DirectoryResults(svc, listing[..|listing| - 1], io);
      var path := listing[|listing| - 1];
      if !Supported(path) then prev
      else prev[Name(path) := OrEmpty(ParseResult(svc, path, io))]
  }

  /** One more entry adds its name, if it is supported. */
  lemma SupportedNamesAppend(init: seq<PyStr>, path: PyStr)
    ensures SupportedNames(init + [path]) == SupportedNames(init) + (if Supported(path) then {Name(path)} else {})
  {
    var listing := init + [path];
    var extra: set<PyStr> := if Supported(path) then {Name(path)} else {};
    forall x ensures x in SupportedNames(listing) <==> x in SupportedNames(init) + extra {
      if x in SupportedNames(listing) {
        var p :| p in listing && Supported(p) && Name(p) == x;
        if p != path { assert p in init; }
      }
      if x in SupportedNames(init) {
        var p :| p in init && Supported(p) && Name(p) == x;
        assert p in listing;
      }
    }
  }

  /** The keys are exactly the names of the supported entries. */
  lemma {:induction false} DirectoryKeys(svc: Service, listing: seq<PyStr>, io: Io)
    ensures DirectoryResults(svc, listing, io).Keys == SupportedNames(listing)
    decreases |listing|
  {
    if listing != [] {
      var init := listing[..|listing| - 1];
      var path := listing[|listing| - 1];
      assert listing == init + [path];
      DirectoryKeys(svc, init, io);
      SupportedNamesAppend(init, path);
    }
  }

  /** Every stored chunk has a `source` key. */
  lemma {:induction false} DirectorySources(svc: Service, listing: seq<PyStr>, io: Io)
    ensures AllHaveSource(DirectoryResults(svc, listing, io))
    decreases |listing|
  {
    if listing != [] {
      DirectorySources(svc, listing[..|listing| - 1], io);
      ParseResultHasSource(svc, listing[|listing| - 1], io);
    }
  }

  /**
   * A supported entry that no later entry shadows is stored with its chunks,
   * or with `[]` when loading or splitting it raised.
   */
  lemma {:induction false} DirectoryEntry(svc: Service, listing: seq<PyStr>, io: Io, i: nat)
    requires i < |listing| && Supported(listing[i]) && LastWithName(listing, i)
    ensures Name(listing[i]) in DirectoryResults(svc, listing, io)
    ensures DirectoryResults(svc, listing, io)[Name(listing[i])] == OrEmpty(ParseResult(svc, listing[i], io))
    decreases |listing|
  {
    var init := listing[..|listing| - 1];
    var last := listing[|listing| - 1];
    var n := Name(listing[i]);
    if i < |listing| - 1 {
      assert LastWithName(init, i) by {
        forall j | i < j < |init| ensures Name(init[j]) != Name(init[i]) {
          assert init[j] == listing[j];
        }
      }
      assert init[i] == listing[i];
      assert Name(last) != n;
      DirectoryEntry(svc, init, io, i);
      var prev := DirectoryResults(svc, init, io);
      assert n in prev && prev[n] == OrEmpty(ParseResult(svc, listing[i], io));
      if Supported(last) {
        assert DirectoryResults(svc, listing, io) == prev[Name(last) := OrEmpty(ParseResult(svc, last, io))];
      } else {
        assert DirectoryResults(svc, listing, io) == prev;
      }
    }
  }

  /**
   * `ParsingService.parse_directory()`. `listing` is what
   * `data_dir.glob("*")` yields, in the order it yields it. Entries with an
   * unsupported extension are skipped; a supported entry is stored under its
   * file name with its chunks, or with `[]` if loading or splitting raised,
   * and the scan goes on. Of entries sharing a name the last one wins.
   */
  method ParseDirectory(svc: Service, listing: seq<PyStr>, io: Io) returns (results: map<PyStr, seq<Document>>)
    ensures results.Keys == SupportedNames(listing)
    ensures AllHaveSource(results)
    ensures forall i :: 0 <= i < |listing| && Supported(listing[i]) && LastWithName(listing, i) ==>
      Name(listing[i]) in results && results[Name(listing[i])] == OrEmpty(ParseResult(svc, listing[i], io))
  {
    results := map[];
    var i := 0;
    while i < |listing|
      invariant 0 <= i <= |listing|
      invariant results == DirectoryResults(svc, listing[..i], io)
    {
      var path := listing[i];
      assert listing[..i + 1][..i] == listing[..i];
      if !Supported(path) {
        i := i + 1;
        continue;
      }
      var chunks := ParseSingle(svc, path, io);
      results := results[Name(path) := OrEmpty(chunks)];
      i := i + 1;
    }
    assert listing[..i] == listing;
    DirectoryKeys(svc, listing, io);
    DirectorySources(svc, listing, io);
    forall i | 0 <= i < |listing| && Supported(listing[i]) && LastWithName(listing, i)
      ensures Name(listing[i]) in results && results[Name(listing[i])] == OrEmpty(ParseResult(svc, listing[i], io))
    {
      DirectoryEntry(svc, listing, io, i);
    }
  }
}
