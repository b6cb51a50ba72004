/** The retrieval-augmented pipeline of the chat bot: one state record that
    four stages update in turn (retrieve the chunks, format them, prefix the
    conversation and ask the model, collect one citation per chunk). */
module GraphChatbot {
  import opened Wrappers
  import opened Strings
  import opened RagTypes

  // ---------------------------------------------------------------------
  // Formatting the chunks

  /** The `page_content` of each chunk, in order. */
  function Texts(docs: seq<Chunk>): (r: seq<string>)
    ensures |r| == |docs|
    ensures forall i :: 0 <= i < |docs| ==> r[i] == docs[i].pageContent
  {
    seq(|docs|, i requires 0 <= i < |docs| => docs[i].pageContent)
  }

  /** `format_docs`: the chunk texts joined with a blank line. */
  function FormatDocs(docs: seq<Chunk>): string
  {
    Join("\n\n", Texts(docs))
  }

  /** No chunks give the empty text, one chunk gives its text unchanged, and
      each further chunk adds exactly "\n\n" and its text at the end. */
  lemma FormatDocsShape(docs: seq<Chunk>)
    ensures docs == [] ==> FormatDocs(docs) == ""
    ensures |docs| == 1 ==> FormatDocs(docs) == docs[0].pageContent
    ensures |docs| >= 2 ==>
      FormatDocs(docs) == FormatDocs(docs[..|docs| - 1]) + "\n\n" + docs[|docs| - 1].pageContent
  {
    if |docs| >= 2 {
      var init := docs[..|docs| - 1];
      assert Texts(docs) == Texts(init) + [docs[|docs| - 1].pageContent];
      JoinSnoc("\n\n", Texts(init), docs[|docs| - 1].pageContent);
    }
  }

  /** Formatting keeps the retrieval order and drops nothing: the formatted
      text of two runs of chunks is the two texts with one blank line between. */
  lemma FormatDocsAppend(a: seq<Chunk>, b: seq<Chunk>)
    requires a != [] && b != []
    ensures FormatDocs(a + b) == FormatDocs(a) + "\n\n" + FormatDocs(b)
  {
    assert Texts(a + b) == Texts(a) + Texts(b);
    JoinAppend("\n\n", Texts(a), Texts(b));
  }

  // ---------------------------------------------------------------------
  // Rendering the conversation

  function RoleName(role: Role): string
  {
    match role
    case User => "user"
    case Assistant => "assistant"
  }

  /** One history line, `f"{role.capitalize()}: {content}"`. */
  function RenderTurn(m: Message): (r: string)
    ensures r == (if m.role == User then "User: " else "Assistant: ") + m.content
  {
    CapitalizedRoleName(m.role);
    Capitalize(RoleName(m.role)) + ": " + m.content
  }

  lemma CapitalizedRoleName(role: Role)
    ensures Capitalize(RoleName(role)) == if role == User then "User" else "Assistant"
  {
    var name := RoleName(role);
    LowerAllUncased(name[1..]);
    assert ToUpper(name[0]) == if role == User then 'U' else 'A';
  }

  lemma LowerAllUncased(s: string)
    requires forall i :: 0 <= i < |s| ==> !IsUpper(s[i])
    ensures LowerAll(s) == s
  {
  }

  /** The history lines, one per turn, in order. */
  function RenderedTurns(ms: seq<Message>): seq<string>
  {
    seq(|ms|, i requires 0 <= i < |ms| => RenderTurn(ms[i]))
  }

  /** `history_str`: the lines joined by newlines and closed by a blank line,
      or nothing at all for an empty history. */
  function HistoryPrefix(ms: seq<Message>): (r: string)
    ensures r == "" <==> ms == []
    ensures ms != [] ==> EndsWith(r, "\n\n")
  {
    if ms == [] then "" else Join("\n", RenderedTurns(ms)) + "\n\n"
  }

  /** Each further turn adds its line after the earlier ones, separated from
      them by one newline, and the block still ends in one blank line. */
  lemma HistoryPrefixSnoc(ms: seq<Message>, m: Message)
    ensures HistoryPrefix(ms + [m]) ==
      (if ms == [] then "" else Join("\n", RenderedTurns(ms)) + "\n") + RenderTurn(m) + "\n\n"
  {
    assert RenderedTurns(ms + [m]) == RenderedTurns(ms) + [RenderTurn(m)];
    if ms != [] {
      JoinSnoc("\n", RenderedTurns(ms), RenderTurn(m));
    } else {
      assert RenderedTurns([m]) == [RenderTurn(m)];
    }
  }

  /** The context handed to the model: the history block, then the chunks. */
  function CombinedContext(ms: seq<Message>, docs: seq<Chunk>): string
  {
    HistoryPrefix(ms) + FormatDocs(docs)
  }

  /** With no history the context is exactly the formatted chunks; with a
      history it is its lines, one blank line, then the formatted chunks. */
  lemma CombinedContextShape(ms: seq<Message>, docs: seq<Chunk>)
    ensures ms == [] ==> CombinedContext(ms, docs) == FormatDocs(docs)
    ensures ms != [] ==>
      CombinedContext(ms, docs) == Join("\n", RenderedTurns(ms)) + "\n\n" + FormatDocs(docs)
    ensures |RenderedTurns(ms)| == |ms|
    ensures forall i :: 0 <= i < |ms| ==>
      RenderedTurns(ms)[i] == (if ms[i].role == User then "User: " else "Assistant: ") + ms[i].content
  {
  }

  /** The loop of `call_llm_stream` that renders one line per turn. */
  method HistoryLines(ms: seq<Message>) returns (lines: seq<string>)
    ensures |lines| == |ms|
    ensures forall i :: 0 <= i < |ms| ==>
      lines[i] == (if ms[i].role == User then "User: " else "Assistant: ") + ms[i].content
    ensures lines == RenderedTurns(ms)
  {
    lines := [];
    for i := 0 to |ms|
      invariant lines == RenderedTurns(ms[..i])
    {
      assert ms[..i + 1] == ms[..i] + [ms[i]];
      lines := lines + [RenderTurn(ms[i])];
    }
    assert ms[..|ms|] == ms;
  }

  // ---------------------------------------------------------------------
  // Citations

  /** `chunk.metadata.get("source", "")`. */
  function SourceField(m: Metadata): string
  {
    if m.source.Some? then m.source.value else ""
  }

  /** One citation: the source, then a page line exactly when the chunk has
      a page. */
  function Citation(c: Chunk): (r: string)
    ensures IsPrefix(SourceField(c.metadata), r)
    ensures c.metadata.page.None? <==> r == SourceField(c.metadata)
    ensures c.metadata.page.Some? ==>
      r[|SourceField(c.metadata)|..] == "\n\nPage " + Decimal(c.metadata.page.value)
  {
    var src := SourceField(c.metadata);
    match c.metadata.page
    case None => src
    case Some(p) => src + "\n\nPage " + Decimal(p)
  }

  /** The citations of a run of chunks, one each, in order. */
  function Citations(chunks: seq<Chunk>): seq<string>
  {
    seq(|chunks|, i requires 0 <= i < |chunks| => Citation(chunks[i]))
  }

  /** The loop of `collect_sources`. Nothing is merged: two chunks with the
      same metadata give two equal entries. */
  method CollectCitations(chunks: seq<Chunk>) returns (sources: seq<string>)
    ensures |sources| == |chunks|
    ensures forall i :: 0 <= i < |chunks| ==> sources[i] == Citation(chunks[i])
    ensures sources == Citations(chunks)
  {
    sources := [];
    var i := 0;
    while i < |chunks|
      invariant 0 <= i <= |chunks|
      invariant |sources| == i
      invariant forall j :: 0 <= j < i ==> sources[j] == Citation(chunks[j])
    {
      var src := SourceField(chunks[i].metadata);
      if chunks[i].metadata.page.Some? {
        src := src + "\n\nPage " + Decimal(chunks[i].metadata.page.value);
      }
      sources := sources + [src];
      i := i + 1;
    }
  }

  /** Citations are made chunk by chunk, so the citations of two runs are the
      two lists one after the other. */
  lemma CitationsAppend(a: seq<Chunk>, b: seq<Chunk>)
    ensures Citations(a + b) == Citations(a) + Citations(b)
  {
    var l, r := Citations(a + b), Citations(a) + Citations(b);
    assert |l| == |r|;
    forall i | 0 <= i < |l| ensures l[i] == r[i] {
      if i < |a| {
        assert (a + b)[i] == a[i];
      } else {
        assert (a + b)[i] == b[i - |a|];
      }
    }
  }

  // ---------------------------------------------------------------------
  // The state record and the four stages

  /** The request both model calls of one run are made with. */
  function RequestFor(template: PromptTemplate, query: string, ms: seq<Message>, chunks: seq<Chunk>): ChainRequest
  {
    ChainRequest(template, query, CombinedContext(ms, chunks))
  }

  /** `RAGState`: the one record every stage reads and updates in place. */
  class RagState {
    var query: string
    var promptTemplate: Option<PromptTemplate>
    var retrieverK: int
    var filterList: Option<seq<string>>
    var rawChunks: seq<Chunk>
    var formattedContext: string
    var ragStream: Option<AnswerStream>
    var sources: seq<string>
    var answer: string
    var vectorstore: VectorStore
    var messages: seq<Message>

    /** A fresh state: the configuration and the history as given, every
        result field empty. */
    constructor (query: string, promptTemplate: Option<PromptTemplate>, retrieverK: int,
                 filterList: Option<seq<string>>, vectorstore: VectorStore, messages: seq<Message>)
      ensures this.query == query && this.promptTemplate == promptTemplate
      ensures this.retrieverK == retrieverK && this.filterList == filterList
      ensures this.vectorstore == vectorstore && this.messages == messages
      ensures rawChunks == [] && formattedContext == "" && ragStream == None
      ensures sources == [] && answer == ""
    {
      this.query := query;
      this.promptTemplate := promptTemplate;
      this.retrieverK := retrieverK;
      this.filterList := filterList;
      this.vectorstore := vectorstore;
      this.messages := messages;
      rawChunks := [];
      formattedContext := "";
      ragStream := None;
      sources := [];
      answer := "";
    }

    /** `retrieve_chunks`: the store's top-k search for the query. It reads
        the query, k and the store only; the filter list is carried along and
        never consulted. */
    method RetrieveChunks()
      modifies this`rawChunks
      ensures rawChunks == vectorstore.search(query, retrieverK)
    {
      rawChunks := vectorstore.search(query, retrieverK);
    }

    /** `format_context`: the formatted chunks, stored and returned. */
    method FormatContext() returns (ctxt: string)
      modifies this`formattedContext
      ensures ctxt == FormatDocs(rawChunks) && formattedContext == ctxt
    {
      ctxt := FormatDocs(rawChunks);
      formattedContext := ctxt;
    }

    /** `call_llm_stream`: puts the history block in front of the stored
        context, then asks the model once for the whole answer and sets up the
        stream on the same request (`question` is the query, `context` the
        combined text). A missing template makes the chain unbuildable. */
    method CallLlmStream(llm: LanguageModel)
      requires promptTemplate.Some?
      modifies this`formattedContext, this`answer, this`ragStream
      ensures formattedContext == HistoryPrefix(messages) + old(formattedContext)
      ensures answer == llm.complete(ChainRequest(promptTemplate.value, query, formattedContext))
      ensures ragStream == Some(AnswerStream(ChainRequest(promptTemplate.value, query, formattedContext)))
    {
      var historyStr: string;
      if messages != [] {
        var lines := HistoryLines(messages);
        historyStr := Join("\n", lines) + "\n\n";
      } else {
        historyStr := "";
      }
      formattedContext := historyStr + formattedContext;
      var request := ChainRequest(promptTemplate.value, query, formattedContext);
      answer := llm.complete(request);
      ragStream := Some(AnswerStream(request));
    }

    /** `collect_sources`: one citation per retrieved chunk. */
    method CollectSources()
      modifies this`sources
      ensures |sources| == |rawChunks|
      ensures sources == Citations(rawChunks)
    {
      sources := CollectCitations(rawChunks);
    }

    /** `run_pipeline`: retrieve, format, ask, collect, in that order. The
        sources depend on the retrieved chunks alone; the context is the
        history block followed by the formatted chunks. */
    method RunPipeline(llm: LanguageModel)
      requires promptTemplate.Some?
      modifies this`rawChunks, this`formattedContext, this`answer, this`ragStream, this`sources
      ensures rawChunks == vectorstore.search(query, retrieverK)
      ensures formattedContext == CombinedContext(messages, rawChunks)
      ensures answer == llm.complete(RequestFor(promptTemplate.value, query, messages, rawChunks))
      ensures ragStream == Some(AnswerStream(RequestFor(promptTemplate.value, query, messages, rawChunks)))
      ensures |sources| == |rawChunks| && sources == Citations(rawChunks)
    {
      RetrieveChunks();
      var _ := FormatContext();
      CallLlmStream(llm);
      CollectSources();
    }
  }
}
