/** The values that flow between the view, the controller, the document
    database and the graph: chunks with their metadata, conversation turns,
    the prompt template, and the two outside services (the vector index and
    the language model) as functions that are given, not defined. */
module RagTypes {
  import opened Wrappers

  /** The metadata dictionary of a LangChain `Document`, restricted to the
      three keys the program reads or writes; a missing key is `None`. */
  datatype Metadata = Metadata(source: Option<string>, page: Option<int>, subject: Option<string>)

  /** A retrieved or ingested chunk: its `page_content` and its `metadata`. */
  datatype Chunk = Chunk(pageContent: string, metadata: Metadata)

  /** The two message types a history can hold: `HumanMessage` (the
      `'user'` role of a history dictionary) and `AIMessage` (`'assistant'`). */
  datatype Role = User | Assistant

  /** One conversation turn. */
  datatype Message = Message(role: Role, content: string)

  /** A `PromptTemplate`, kept as its template text; the program never looks
      inside it. */
  datatype PromptTemplate = PromptTemplate(template: string)

  /** The Chroma store, as its similarity search from a query and `k` to the
      chunks it returns, in rank order. */
  datatype VectorStore = VectorStore(search: (string, int) -> seq<Chunk>)

  /** The input the generation chain is invoked with: the template and the
      values of its `question` and `context` slots. */
  datatype ChainRequest = ChainRequest(template: PromptTemplate, question: string, context: string)

  /** The chat model behind the chain, as the text it answers a request with. */
  datatype LanguageModel = LanguageModel(complete: ChainRequest -> string)

  /** The lazy token stream of `rag_chain.stream(...)`, known by the request
      it will be issued with when it is pulled. */
  datatype AnswerStream = AnswerStream(request: ChainRequest)

  /** The dictionary that `run_rag` returns and the view reads. A key may be
      absent (`None`); `ragStream` holds `Some(None)` when the key is present
      with the value `None`. */
  datatype Responses = Responses(
    query: Option<string>,
    ragStream: Option<Option<AnswerStream>>,
    ragText: Option<string>,
    sources: Option<seq<string>>)
  {
    /** Python truthiness of the dictionary: it has at least one key. */
    predicate NonEmpty()
    {
      query.Some? || ragStream.Some? || ragText.Some? || sources.Some?
    }

    /** Reading `responses["sources"]` after finding "rag_stream" or
        "rag_text" does not raise. */
    predicate SourcesWhereRead()
    {
      (ragStream.Some? || ragText.Some?) ==> sources.Some?
    }
  }
}
