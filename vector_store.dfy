/**
 * The foreign components behind the agent and the upload router: a PGVector
 * collection, its retrievers, and the chat model. None of their behaviour is
 * modelled; each call is an uninterpreted function value of `Backend`, and
 * each may raise.
 */
module VectorStore {
  import opened Strings
  import opened Documents

  /** The embedding model both the agent and the upload router ask for by default. */
  function MiniLmModel(): PyStr { Lit("sentence-transformers/all-MiniLM-L6-v2") }

  /** The chat model the agent asks for. */
  function GeminiModel(): PyStr { Lit("gemini-2.5-flash") }

  /**
   * The foreign constructors that run before the agent or the router can be
   * used. Each yields the message of what it raised, or `None` when it
   * succeeded; the chat model is given the environment, from which it takes
   * its API key.
   */
  datatype Setup = Setup(
    /** `HuggingFaceEmbeddings(model_name=...)`. */
    embeddings: PyStr -> Option<PyStr>,
    /** `PGVector(connection=..., collection_name=..., embeddings=emb)`. */
    vectorStore: (PyStr, PyStr) -> Option<PyStr>,
    /** `ChatGoogleGenerativeAI(model=..., temperature=...)`. */
    chatModel: (PyStr, map<PyStr, PyStr>) -> Option<PyStr>)

  /** What building the embeddings and then the store raises, if anything: the first failure wins. */
  function StoreSetupError(setup: Setup, model: PyStr, connection: PyStr, collectionName: PyStr): Option<PyStr> {
    match setup.embeddings(model)
    case Some(m) => Some(m)
    case None => setup.vectorStore(connection, collectionName)
  }

  /** `PGVector(connection=..., collection_name=..., embeddings=...)`. */
  datatype Store = PGVector(connection: PyStr, collectionName: PyStr)

  /** `vs.as_retriever(search_kwargs={"k": k})`. */
  datatype Retriever = Retriever(store: Store, k: int)

  /** A chat turn as kept by `ChatMessageHistory`. */
  datatype Message = Human(content: PyStr) | Ai(content: PyStr)

  /**
   * The mapping `RunnableWithMessageHistory` feeds to the base chain: the
   * caller's `{"question": ...}` plus the session's messages under `history`.
   */
  datatype ChainInput = ChainInput(question: PyStr, history: seq<Message>)

  /**
   * The variables the prompt template receives. `question` is produced by
   * `RunnablePassthrough()`, which hands on the whole input mapping rather
   * than the question string.
   */
  datatype PromptInput = PromptInput(question: ChainInput, context: PyStr, history: seq<Message>)

  datatype Backend = Backend(
    /** `vs.add_documents(docs)`: the ids of the added documents. */
    add: (Store, seq<Document>) -> Result<seq<PyStr>>,
    /** `retriever.invoke(query)`. */
    retrieve: (Retriever, PyStr) -> Result<seq<Document>>,
    /** `(prompt | llm).invoke(variables)`, reduced to the reply's text. */
    generate: PromptInput -> Result<PyStr>)
}
