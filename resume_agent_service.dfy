/**
 * ResumeAgent (backend/app/services/resume_agent_service.py): the
 * retrieval-augmented chat agent. What is its own logic is modelled here:
 * the context formatter `_format_docs`, the connection-URL rewrite, the
 * per-session history table with get-or-create and reset, the `source`
 * defaulting of `add_documents`, and the `k` override of `ask`. The store,
 * the retriever and the chat model are the uninterpreted calls of
 * `VectorStore.Backend`.
 */
module ResumeAgentService {
  import opened Strings
  import opened Documents
  import opened DbUrl
  import opened VectorStore

  function NoContext(): PyStr { Lit("NO_CONTEXT") }
  function SourceHeader(): PyStr { Lit("[source: ") }
  function BlockSeparator(): PyStr { Lit("\n\n") }

  /**
   * `d.metadata.get("source") or d.metadata.get("file") or "unknown"`, as
   * the f-string prints it: the first truthy of the two keys, else
   * `"unknown"`.
   */
  function SourceLabel(md: Metadata): PyStr {
    if SourceKey() in md && Truthy(md[SourceKey()]) then Text(md[SourceKey()])
    else if FileKey() in md && Truthy(md[FileKey()]) then Text(md[FileKey()])
    else Lit("unknown")
  }

  /**
   * The label is the text of a truthy `source`, else of a truthy `file`,
   * else `"unknown"`; a falsy `source` (such as `""`) falls through.
   */
  lemma SourceLabelChain(md: Metadata)
    ensures SourceKey() in md && Truthy(md[SourceKey()]) ==> SourceLabel(md) == Text(md[SourceKey()])
    ensures !(SourceKey() in md && Truthy(md[SourceKey()])) && FileKey() in md && Truthy(md[FileKey()]) ==>
      SourceLabel(md) == Text(md[FileKey()])
    ensures !(SourceKey() in md && Truthy(md[SourceKey()])) && !(FileKey() in md && Truthy(md[FileKey()])) ==>
      SourceLabel(md) == Lit("unknown")
  {
  }

  /**
   * A document contributes a block exactly when its text is not all
   * whitespace, which is when `strip()` leaves something (`StripEmptyIffBlank`).
   */
  predicate HasText(d: Document) {
    !IsBlank(d.pageContent)
  }

  /** `f"[source: {src}]\n{text}"`. */
  function Block(d: Document): PyStr {
    SourceHeader() + SourceLabel(d.metadata) + Lit("]\n") + Strip(d.pageContent)
  }

  /** The `blocks` list `_format_docs` builds, in input order. */
  function Blocks(docs: seq<Document>): seq<PyStr>
    decreases |docs|
  {
    if docs == [] then []
    else
      var prev := Blocks(docs[..|docs| - 1]);
      var d := docs[|docs| - 1];
      if HasText(d) then prev + [Block(d)] else prev
  }

  /** What `_format_docs(docs)` returns. */
  function FormattedContext(docs: seq<Document>): PyStr {
    var blocks := Blocks(docs);
    if blocks == [] then NoContext() else Join(BlockSeparator(), blocks)
  }

  /** One more document adds its block, if it has text. */
  lemma BlocksStep(docs: seq<Document>, i: nat)
    requires i < |docs|
    ensures Blocks(docs[..i + 1]) ==
      if HasText(docs[i]) then Blocks(docs[..i]) + [Block(docs[i])] else Blocks(docs[..i])
  {
    assert docs[..i + 1][..i] == docs[..i];
  }

  /** The loop body of `_format_docs` appends a block exactly when the stripped text is not empty. */
  lemma FormatStep(docs: seq<Document>, i: nat)
    requires i < |docs|
    ensures var d := docs[i];
      var text := Strip(d.pageContent);
      Blocks(docs[..i + 1]) ==
        if text != [] then Blocks(docs[..i]) + [SourceHeader() + SourceLabel(d.metadata) + Lit("]\n") + text]
        else Blocks(docs[..i])
  {
    BlocksStep(docs, i);
    StripEmptyIffBlank(docs[i].pageContent);
  }

  /** `_format_docs(docs)`. */
  method FormatDocs(docs: seq<Document>) returns (r: PyStr)
    ensures r == FormattedContext(docs)
  {
    var blocks: seq<PyStr> := [];
    var i := 0;
    while i < |docs|
      invariant 0 <= i <= |docs|
      invariant blocks == Blocks(docs[..i])
    {
      var d := docs[i];
      var text := Strip(d.pageContent);
      FormatStep(docs, i);
      if text != [] {
        blocks := blocks + [SourceHeader() + SourceLabel(d.metadata) + Lit("]\n") + text];
      }
      i := i + 1;
    }
    assert docs[..i] == docs;
    if blocks == [] {
      r := NoContext();
    } else {
      r := Join(BlockSeparator(), blocks);
    }
  }

  /** Formatting a concatenation formats each part: blank documents add nothing anywhere. */
  lemma {:induction false} BlocksAppend(a: seq<Document>, b: seq<Document>)
    ensures Blocks(a + b) == Blocks(a) + Blocks(b)
    decreases |b|
  {
    if b == [] {
      assert a + b == a;
    } else {
      var b' := b[..|b| - 1];
      assert (a + b)[..|a + b| - 1] == a + b';
      assert (a + b)[|a + b| - 1] == b[|b| - 1];
      BlocksAppend(a, b');
    }
  }

  /** There is a block for every document with text, and only for those. */
  lemma {:induction false} BlocksEmptyIff(docs: seq<Document>)
    ensures Blocks(docs) == [] <==> forall i :: 0 <= i < |docs| ==> IsBlank(docs[i].pageContent)
    decreases |docs|
  {
    if docs != [] {
      var init := docs[..|docs| - 1];
      BlocksEmptyIff(init);
      forall i | 0 <= i < |init| ensures init[i] == docs[i] { }
    }
  }

  /** Every block starts with the source header, so no join of blocks is the sentinel. */
  lemma BlockStartsWithHeader(d: Document)
    ensures StartsWith(Block(d), SourceHeader())
  {
    var b := Block(d);
    assert b[..|SourceHeader()|] == SourceHeader();
  }

  /**
   * `_format_docs` returns `"NO_CONTEXT"` exactly when no document has text
   * (the empty list included); otherwise it starts with `"[source: "`.
   */
  lemma NoContextIff(docs: seq<Document>)
    ensures FormattedContext(docs) == NoContext() <==>
      forall i :: 0 <= i < |docs| ==> IsBlank(docs[i].pageContent)
    ensures (exists i :: 0 <= i < |docs| && !IsBlank(docs[i].pageContent)) ==>
      StartsWith(FormattedContext(docs), SourceHeader())
  {
    BlocksEmptyIff(docs);
    if Blocks(docs) != [] {
      ContextStartsWithHeader(docs);
      var r := FormattedContext(docs);
      assert r[0] == SourceHeader()[0] == '[' as int;
      assert NoContext()[0] == 'N' as int;
    }
  }

  /** When there is a block the context is their join, which starts with the first block's header. */
  lemma ContextStartsWithHeader(docs: seq<Document>)
    requires Blocks(docs) != []
    ensures StartsWith(FormattedContext(docs), SourceHeader())
  {
    var k := BlockSource(docs, 0);
    BlockStartsWithHeader(docs[k]);
    JoinStartsWith(BlockSeparator(), Blocks(docs), SourceHeader());
  }

  /** Each block comes from a document with text, in the form `[source: label]\n` + its stripped text. */
  lemma {:induction false} BlockSource(docs: seq<Document>, j: nat) returns (k: nat)
    requires j < |Blocks(docs)|
    ensures k < |docs| && HasText(docs[k]) && Blocks(docs)[j] == Block(docs[k])
    decreases |docs|
  {
    var init := docs[..|docs| - 1];
    var last := docs[|docs| - 1];
    var prev := Blocks(init);
    assert Blocks(docs) == if HasText(last) then prev + [Block(last)] else prev;
    if j < |prev| {
      k := BlockSource(init, j);
      assert Blocks(docs)[j] == prev[j];
      assert init[k] == docs[k];
    } else {
      k := |docs| - 1;
    }
  }

  /** The documents with text, in input order. */
  function TextDocs(docs: seq<Document>): (r: seq<Document>)
    ensures forall d :: d in r ==> d in docs && HasText(d)
    decreases |docs|
  {
    if docs == [] then []
    else
      var d := docs[|docs| - 1];
      TextDocs(docs[..|docs| - 1]) + (if HasText(d) then [d] else [])
  }

  /** One block per document, in order. */
  function BlocksOf(docs: seq<Document>): (r: seq<PyStr>)
    ensures |r| == |docs|
    decreases |docs|
  {
    if docs == [] then [] else BlocksOf(docs[..|docs| - 1]) + [Block(docs[|docs| - 1])]
  }

  /** The blocks are exactly the documents with text, in order, one block each. */
  lemma {:induction false} BlocksAreTextDocs(docs: seq<Document>)
    ensures Blocks(docs) == BlocksOf(TextDocs(docs))
    decreases |docs|
  {
    if docs != [] {
      var init := docs[..|docs| - 1];
      var d := docs[|docs| - 1];
      BlocksAreTextDocs(init);
      var t := TextDocs(init);
      if HasText(d) {
        assert TextDocs(docs) == t + [d];
        assert (t + [d])[..|t|] == t;
        assert BlocksOf(t + [d]) == BlocksOf(t) + [Block(d)];
      } else {
        assert TextDocs(docs) == t + [];
        assert t + [] == t;
      }
    }
  }

  /** A per-session `ChatMessageHistory`. */
  class ChatHistory {
    var messages: seq<Message>

    constructor()
      ensures messages == []
    {
      messages := [];
    }
  }

  /** What `ask` answers when the chain's retriever is `retriever`. */
  function Answer(retriever: Retriever, question: PyStr, history: seq<Message>, backend: Backend): Result<PyStr> {
    var docs :- backend.retrieve(retriever, question);
    backend.generate(PromptInput(ChainInput(question, history), FormattedContext(docs), history))
  }

  class ResumeAgent {
    /** `self.vs`. */
    const vs: Store
    /** The retriever the base chain was built with, bound once in `__init__`. */
    const chainRetriever: Retriever
    /** `self.retriever`. */
    var retriever: Retriever
    /** `self._store`. */
    var store: map<PyStr, ChatHistory>

    /** Both retrievers search this agent's collection. */
    predicate Valid()
      reads this
    {
      chainRetriever.store == vs && retriever.store == vs
    }

    /** `__init__` once the connection string has been read and rewritten. */
    constructor(conn: PyStr, collectionName: PyStr, k: int)
      ensures Valid()
      ensures vs == PGVector(conn, collectionName)
      ensures retriever == Retriever(vs, k) && chainRetriever == retriever
      ensures store == map[]
    {
      vs := PGVector(conn, collectionName);
      retriever := Retriever(PGVector(conn, collectionName), k);
      chainRetriever := Retriever(PGVector(conn, collectionName), k);
      store := map[];
    }

    /** `_get_session_history(session_id)`: get or create. */
    method GetSessionHistory(sessionId: PyStr) returns (h: ChatHistory)
      modifies this
      ensures sessionId in old(store) ==> h == old(store)[sessionId] && store == old(store)
      ensures sessionId !in old(store) ==>
        fresh(h) && h.messages == [] && store == old(store)[sessionId := h]
      ensures sessionId in store && store[sessionId] == h
      ensures forall id :: id in old(store) ==> id in store && store[id] == old(store)[id]
      ensures retriever == old(retriever)
    {
      if sessionId !in store {
        var created := new ChatHistory();
        store := store[sessionId := created];
      }
      h := store[sessionId];
    }

    /**
     * `add_documents(docs)`: `source` is set to `"unknown"` on documents
     * without one, then the documents go to the store and its ids come back.
     * The updated documents are returned alongside.
     */
    method AddDocuments(docs: seq<Document>, backend: Backend) returns (ids: Result<seq<PyStr>>, sent: seq<Document>)
      ensures sent == SetDefaultAll(docs, SourceKey(), Str(Lit("unknown")))
      ensures ids == backend.add(vs, sent)
    {
      sent := SetDefaultEach(docs, SourceKey(), Str(Lit("unknown")));
      ids := backend.add(vs, sent);
    }

    /**
     * `ask(question, session_id, k)`. A given `k` replaces `self.retriever`;
     * the chain, however, still retrieves with `chainRetriever`. The
     * session's history is fetched (or created) and handed to the prompt.
     */
    method Ask(question: PyStr, backend: Backend, sessionId: PyStr := Lit("default"), k: Option<int> := None)
      returns (r: Result<PyStr>)
      requires Valid()
      modifies this
      ensures Valid()
      ensures k.Some? ==> retriever == Retriever(vs, k.value)
      ensures k.None? ==> retriever == old(retriever)
      ensures sessionId in store
      ensures sessionId in old(store) ==> store == old(store)
      ensures sessionId !in old(store) ==>
        fresh(store[sessionId]) && store[sessionId].messages == [] && store == old(store)[sessionId := store[sessionId]]
      ensures r == Answer(chainRetriever, question, store[sessionId].messages, backend)
    {
      if k.Some? {
        retriever := Retriever(vs, k.value);
      }
      var h := GetSessionHistory(sessionId);
      var docs := backend.retrieve(chainRetriever, question);
      if docs.Err? {
        return Err(docs.error);
      }
      var context := FormatDocs(docs.value);
      r := backend.generate(PromptInput(ChainInput(question, h.messages), context, h.messages));
    }

    /** `ask` as its comment intends it: the per-call `k` is the one retrieval uses. */
    method AskWithK(question: PyStr, backend: Backend, sessionId: PyStr := Lit("default"), k: Option<int> := None)
      returns (r: Result<PyStr>)
      requires Valid()
      modifies this
      ensures Valid()
      ensures k.Some? ==> retriever == Retriever(vs, k.value)
      ensures k.None? ==> retriever == old(retriever)
      ensures sessionId in store
      ensures sessionId in old(store) ==> store == old(store)
      ensures sessionId !in old(store) ==>
        fresh(store[sessionId]) && store[sessionId].messages == [] && store == old(store)[sessionId := store[sessionId]]
      ensures r == Answer(retriever, question, store[sessionId].messages, backend)
    {
      if k.Some? {
        retriever := Retriever(vs, k.value);
      }
      var h := GetSessionHistory(sessionId);
      var docs := backend.retrieve(retriever, question);
      if docs.Err? {
        return Err(docs.error);
      }
      var context := FormatDocs(docs.value);
      r := backend.generate(PromptInput(ChainInput(question, h.messages), context, h.messages));
    }

    /** `reset_session(session_id)`: `self._store.pop(session_id, None)`. */
    method ResetSession(sessionId: PyStr := Lit("default"))
      modifies this
      ensures store == old(store) - {sessionId}
      ensures sessionId !in old(store) ==> store == old(store)
      ensures forall id :: id in old(store) && id != sessionId ==> id in store && store[id] == old(store)[id]
      ensures retriever == old(retriever)
    {
      store := store - {sessionId};
    }
  }

  /**
   * What the foreign constructors of `__init__` raise, if anything: the
   * embeddings, then the store on `connection`, then the chat model.
   */
  function AgentSetupError(setup: Setup, env: map<PyStr, PyStr>, connection: PyStr, collectionName: PyStr): Option<PyStr> {
    match StoreSetupError(setup, MiniLmModel(), connection, collectionName)
    case Some(m) => Some(m)
    case None => setup.chatModel(GeminiModel(), env)
  }

  /**
   * `ResumeAgent(collection_name, k)`: reads `VECTOR_DB_URL` from `env`
   * (raising `KeyError` before anything is built when it is missing),
   * rewrites it, and builds the embeddings, the store and the chat model,
   * any of which may raise.
   */
  method NewResumeAgent(env: map<PyStr, PyStr>, setup: Setup, collectionName: PyStr := Lit("resumes"), k: int := 5)
    returns (r: Result<ResumeAgent>)
    ensures VectorDbUrlKey() !in env ==> r == Err(KeyError(VectorDbUrlKey()))
    ensures VectorDbUrlKey() in env ==>
      var failed := AgentSetupError(setup, env, RewriteUrl(env[VectorDbUrlKey()]), collectionName);
      && (failed.Some? ==> r == Err(ForeignError(failed.value)))
      && (failed.None? ==>
        && r.Ok? && fresh(r.value) && r.value.Valid()
        && r.value.vs == PGVector(RewriteUrl(env[VectorDbUrlKey()]), collectionName)
        && r.value.retriever == Retriever(r.value.vs, k) && r.value.chainRetriever == r.value.retriever
        && r.value.store == map[])
  {
    var conn := ConnectionFromEnv(env);
    if conn.Err? {
      return Err(conn.error);
    }
    var failed := setup.embeddings(MiniLmModel());
    if failed.None? {
      failed := setup.vectorStore(conn.value, collectionName);
    }
    if failed.None? {
      failed := setup.chatModel(GeminiModel(), env);
    }
    if failed.Some? {
      return Err(ForeignError(failed.value));
    }
    var agent := new ResumeAgent(conn.value, collectionName, k);
    r := Ok(agent);
  }

  /** `add_documents` gives `source` only to documents without one and changes nothing else. */
  lemma AddDocumentsDefaultsSource(docs: seq<Document>, i: nat)
    requires i < |docs|
    ensures var d := SetDefaultAll(docs, SourceKey(), Str(Lit("unknown")))[i];
      && d.pageContent == docs[i].pageContent
      && (SourceKey() in docs[i].metadata ==> d == docs[i])
      && (SourceKey() !in docs[i].metadata ==>
            d.metadata == docs[i].metadata[SourceKey() := Str(Lit("unknown"))]
            && SourceLabel(d.metadata) == Lit("unknown"))
  {
    SetDefaultAllKeeps(docs, SourceKey(), Str(Lit("unknown")), i);
  }

  /**
   * The `k` given to `ask` does not reach retrieval: with a store that
   * holds one matching chunk and returns at most `k` results, an agent built
   * with the default `k = 5` and asked with `k = 0` still answers from
   * that chunk, whereas a retriever with `k = 0` finds nothing.
   */
  lemma KOverrideIgnored(vs: Store)
    ensures
      var chunk := Document(Lit("x"), map[]);
      var b := Backend(
        (s: Store, d: seq<Document>) => Ok([]),
        (r: Retriever, q: PyStr) => Ok(if r.k >= 1 then [chunk] else []),
        (p: PromptInput) => Ok(p.context));
      && Answer(Retriever(vs, 5), Lit("q"), [], b) == Ok(FormattedContext([chunk]))
      && Answer(Retriever(vs, 0), Lit("q"), [], b) == Ok(NoContext())
      && FormattedContext([chunk]) != NoContext()
  {
    var chunk := Document(Lit("x"), map[]);
    assert !IsBlank(chunk.pageContent) by {
      assert !IsSpace(chunk.pageContent[0]);
    }
    NoContextIff([chunk]);
    NoContextIff([]);
  }
}
