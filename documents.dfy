/**
 * LangChain `Document` records and the Python exception/result plumbing the
 * services share.
 */
module Documents {
  import opened Strings

  /**
   * A metadata value. Strings are kept as they are; any other Python value
   * is represented by what `str()` makes of it and by its truthiness, which
   * are the only two things the service ever asks of it.
   */
  datatype Value = Str(s: PyStr) | Other(text: PyStr, truthy: bool)

  /** Python's `bool(v)`. */
  predicate Truthy(v: Value) {
    match v
    case Str(s) => s != []
    case Other(_, t) => t
  }

  /** Python's `str(v)`. */
  function Text(v: Value): PyStr {
    match v
    case Str(s) => s
    case Other(t, _) => t
  }

  type Metadata = map<PyStr, Value>

  /** `Document(page_content=..., metadata=...)`. */
  datatype Document = Document(pageContent: PyStr, metadata: Metadata)

  /** The metadata keys the service reads or writes. */
  function SourceKey(): PyStr { Lit("source") }
  function FileKey(): PyStr { Lit("file") }
  function SessionIdKey(): PyStr { Lit("session_id") }

  /**
   * `d.metadata.setdefault(key, v)`: add `key` with `v` when it is missing;
   * a key already present keeps its value, whatever it is.
   */
  function SetDefault(d: Document, key: PyStr, v: Value): (r: Document)
    ensures r.pageContent == d.pageContent
    ensures r.metadata.Keys == d.metadata.Keys + {key}
    ensures r.metadata[key] == if key in d.metadata then d.metadata[key] else v
    ensures forall k :: k in d.metadata ==> r.metadata[k] == d.metadata[k]
  {
    if key in d.metadata then d else Document(d.pageContent, d.metadata[key := v])
  }

  /** `d.metadata[key] = v`: overwrite. */
  function SetItem(d: Document, key: PyStr, v: Value): (r: Document)
    ensures r.pageContent == d.pageContent
    ensures r.metadata.Keys == d.metadata.Keys + {key}
    ensures r.metadata[key] == v
    ensures forall k :: k in d.metadata && k != key ==> r.metadata[k] == d.metadata[k]
  {
    Document(d.pageContent, d.metadata[key := v])
  }

  /** The result of `setdefault(key, v)` on every document, in order. */
  function SetDefaultAll(docs: seq<Document>, key: PyStr, v: Value): (r: seq<Document>)
    ensures |r| == |docs|
    ensures forall i :: 0 <= i < |docs| ==> r[i] == SetDefault(docs[i], key, v)
  {
    seq(|docs|, i requires 0 <= i < |docs| => SetDefault(docs[i], key, v))
  }

  /**
   * The loop `for d in docs: d.metadata.setdefault(key, v)`. Python changes
   * the documents in place; here the changed list is returned.
   */
  method SetDefaultEach(docs: seq<Document>, key: PyStr, v: Value) returns (r: seq<Document>)
    ensures r == SetDefaultAll(docs, key, v)
  {
    r := [];
    var i := 0;
    while i < |docs|
      invariant 0 <= i <= |docs|
      invariant r == SetDefaultAll(docs[..i], key, v)
    {
      r := r + [SetDefault(docs[i], key, v)];
      i := i + 1;
    }
    assert docs[..i] == docs;
  }

  /** After the loop every document has `key`; an existing value is never replaced. */
  lemma SetDefaultAllKeeps(docs: seq<Document>, key: PyStr, v: Value, i: nat)
    requires i < |docs|
    ensures key in SetDefaultAll(docs, key, v)[i].metadata
    ensures key in docs[i].metadata ==> SetDefaultAll(docs, key, v)[i] == docs[i]
    ensures key !in docs[i].metadata ==>
      SetDefaultAll(docs, key, v)[i].metadata == docs[i].metadata[key := v]
  {
  }

  /** The exceptions the modelled code raises or lets through. */
  datatype Error =
    | ValueError(message: PyStr)
      /** `os.environ[key]` on a missing variable. */
    | KeyError(key: PyStr)
    | HttpException(statusCode: int, detail: PyStr)
      /** Anything a foreign component (loader, splitter, store, model) raises. */
    | ForeignError(message: PyStr)

  /** A return value or a raised exception. */
  datatype Result<+T> = Ok(value: T) | Err(error: Error) {
    predicate IsFailure() { Err? }
    function PropagateFailure<U>(): Result<U>
      requires Err?
    {
      Err(error)
    }
    function Extract(): T
      requires Ok?
    {
      value
    }
  }

  datatype Option<+T> = None | Some(value: T)
}
