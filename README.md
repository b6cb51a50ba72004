# IARIS retrieval-augmented chat, modelled in Dafny

This project models the core of a Streamlit chat assistant. The assistant
answers questions from a Chroma collection of text documents. Each turn runs
the same chain:

- the **view** keeps the session lists of questions and answers;
- the **controller** reads the widgets and builds a window of the last three
  exchanges;
- the **document database** runs a fresh pipeline on the question;
- the **pipeline** retrieves the top-k chunks, puts the rendered history in
  front of the formatted chunks, asks the model and collects one citation per
  chunk.

The database also builds the store on first use. It finds the `.txt` files,
tags each document with its subject folder and its path, and keeps a
duplicate-free list of topics.

Outside services are given values, not code:

- The vector search is a function from a query and `k` to the chunks returned
  (`VectorStore.search`).
- The chat model is a function from the request to its answer
  (`LanguageModel.complete`).
- The token stream is known by the request it will be issued with
  (`AnswerStream`).
- The disk is a `Disk` value. It holds the persisted store if any, the walked
  files, the sub-folder names, and the loader, splitter and indexer.

Modules, one file each:

| file | module | source |
|---|---|---|
| `wrappers.dfy` | `Wrappers` | the `Option` type |
| `strings.dfy` | `Strings` | `str.capitalize`, `str.replace`, `str.title`, `str.join`, `endswith`, `in`, `os.path.basename`/`splitext`, `str(int)` |
| `rag_types.dfy` | `RagTypes` | chunks, metadata, turns, the response dictionary, the two services |
| `graph_chatbot.dfy` | `GraphChatbot` | `TCC/model/graph_chatbot.py` |
| `chat_view.dfy` | `ChatView` | `TCC/view/chat_view.py` |
| `document_database.dfy` | `DocumentDatabase` | `TCC/model/document_database.py` |
| `chat_controller.dfy` | `ChatController` | `TCC/controller/chat_controller.py` |

How the source's forms map to Dafny:

- The `RAGState` record that the four pipeline stages update in place is the
  class `GraphChatbot.RagState`.
- `st.session_state` is the class `ChatView.SessionState`. Its value is the
  datatype `Session`, and the pure functions `AfterResponses` and
  `AfterDisplay` say what a call does to it.
- `DocumentDatabase` and `ChatController` are classes whose methods update
  their fields.
- The loops of `call_llm_stream`, `collect_sources`, `generate_context`,
  `_create_chroma_db` and `run` are methods with loop invariants. Each is
  proved against the function that specifies it.

`format_docs` is defined twice in the source, in
`TCC/model/document_database.py:132-136` and in
`TCC/model/graph_chatbot.py:19-23`, with the same body. It is modelled once,
as `GraphChatbot.FormatDocs`.

## Model

| member | source | states |
|---|---|---|
| Strings.Capitalize | TCC/model/graph_chatbot.py:92 | `capitalize` keeps the length, upper-cases the first character and lower-cases every later one |
| Strings.NatDigitsValue | TCC/model/graph_chatbot.py:123 | the digits written for a page number read back as that number, with no leading zero unless the number is 0 |
| Strings.DecimalValue | TCC/model/graph_chatbot.py:123 | `str` of an integer (`Decimal`) in the f-string: a '-' exactly when it is negative, then digits without leading zeros whose value is its magnitude |
| Strings.ReplaceChar | TCC/view/chat_view.py:96 | `replace("_", " ")` keeps the length; each position becomes the replacement when it held the replaced character and is unchanged otherwise |
| Strings.TitleFromAt | TCC/view/chat_view.py:96 | `title` position by position: length kept, each character the same up to case, non-letters untouched, a letter upper-cased exactly when the character before it is not a letter |
| Strings.TitleShape | TCC/view/chat_view.py:96 | `str.title`: same text up to case; word-initial letters upper-case and every other letter lower-case; non-letters unchanged |
| Strings.JoinSnoc | TCC/model/graph_chatbot.py:93 | joining one more part adds exactly one separator and that part at the end |
| Strings.JoinAppend | TCC/model/graph_chatbot.py:23 | joining two non-empty runs of parts is joining each with one separator between: order kept, nothing dropped |
| Strings.BaseName | TCC/view/chat_view.py:173 | `os.path.basename`: a suffix of the path with no '/', preceded by a '/' whenever it is not the whole path |
| Strings.StemSplits | TCC/view/chat_view.py:173 | `splitext`: the name is stem + extension; the extension is empty or one dot followed by dot-free text; a name whose only dots lead it keeps everything in its stem |
| Strings.StemRemovesExtension | TCC/view/chat_view.py:173 | `splitext` removes an extension exactly when the name has a dot with some non-dot character before it, so "a.b.txt" loses ".txt" and ".bashrc" loses nothing |
| GraphChatbot.Texts | TCC/model/graph_chatbot.py:23 | one text per chunk, in order, each the chunk's `page_content` |
| GraphChatbot.FormatDocsShape | TCC/model/graph_chatbot.py:19-23 | no chunks give "", one chunk gives its text unchanged, each further chunk adds exactly "\n\n" and its text at the end |
| GraphChatbot.FormatDocsAppend | TCC/model/graph_chatbot.py:19-23 | formatting two runs of chunks is the two formatted texts with one "\n\n" between: retrieval order kept, no re-sorting, no deduplication |
| GraphChatbot.RenderTurn | TCC/model/graph_chatbot.py:85-92 | a user turn renders as "User: " + content, an assistant turn as "Assistant: " + content |
| GraphChatbot.HistoryPrefix | TCC/model/graph_chatbot.py:82-95 | the history block is empty exactly when there are no turns, and otherwise ends in a blank line |
| GraphChatbot.HistoryPrefixSnoc | TCC/model/graph_chatbot.py:83-93 | each further turn adds its line after the earlier lines, separated by one newline, and the block still ends in "\n\n" |
| GraphChatbot.CombinedContextShape | TCC/model/graph_chatbot.py:82-98 | with no history the context is exactly the formatted chunks; with history it is the rendered turns in order joined by "\n", then "\n\n", then the formatted chunks |
| GraphChatbot.HistoryLines | TCC/model/graph_chatbot.py:83-92 | the rendering loop gives one line per turn, in history order, each line the rendered turn |
| GraphChatbot.Citation | TCC/model/graph_chatbot.py:121-123 | a citation starts with the chunk's source ("" when absent); it is exactly the source when the chunk has no page, and otherwise the source followed by "\n\nPage " and the page number |
| GraphChatbot.CollectCitations | TCC/model/graph_chatbot.py:118-126 | exactly one citation per chunk, in chunk order; repeated sources give repeated entries |
| GraphChatbot.CitationsAppend | TCC/model/graph_chatbot.py:118-126 | citations are made chunk by chunk: the citations of two runs are the two lists one after the other |
| GraphChatbot.RagState.constructor | TCC/model/document_database.py:164-178 | a fresh state: the query, template, k, filters, store and history as given; no chunks, an empty context, no stream, no sources and an empty answer |
| GraphChatbot.RagState.RetrieveChunks | TCC/model/graph_chatbot.py:57-70 | the chunks are the store's search for the query with k; the filter list is not consulted |
| GraphChatbot.RagState.FormatContext | TCC/model/graph_chatbot.py:74-77 | the stored and returned context is the formatted chunks |
| GraphChatbot.RagState.CallLlmStream | TCC/model/graph_chatbot.py:81-114 | the history block is put in front of the stored context; the answer and the stream come from one request whose question is the query and whose context is that combined text |
| GraphChatbot.RagState.CollectSources | TCC/model/graph_chatbot.py:118-126 | the sources are the citations of the retrieved chunks, one each |
| GraphChatbot.RagState.RunPipeline | TCC/model/graph_chatbot.py:129-134 | after retrieve, format, ask and collect: the chunks are the top-k search; the context is history block + formatted chunks; answer and stream share that request; the sources are the chunks' citations |
| ChatView.AfterResponsesEffect | TCC/view/chat_view.py:150-160 | a "rag_text" adds exactly one answer, at the end; a "rag_stream" replaces the stream; either one replaces the sources; the questions are left alone |
| ChatView.AfterDisplayEffect | TCC/view/chat_view.py:129-133 | an empty input changes nothing; otherwise the input becomes the last question and at most one answer is added |
| ChatView.DisplayKeepsPairing | TCC/view/chat_view.py:129-160 | display keeps every stored answer paired with a stored question |
| ChatView.ExchangesAt | TCC/view/chat_view.py:202-208 | the exchanges lo..hi-1 have 2·(hi−lo) entries, alternating the user's question i and the answer i |
| ChatView.ContextWindowShape | TCC/view/chat_view.py:194-209 | for n answers the window has 2·min(n,3) entries; it is empty exactly when n = 0; it covers exchanges max(n−3,0)..n−1 in order as question/answer pairs; it ends with the latest exchange |
| ChatView.DisplayedExchangeEndsWindow | TCC/view/chat_view.py:129-208 | when every question has its answer, displaying a question with its answer keeps that so, and the next window ends with exactly that question and answer |
| ChatView.FormatTopic | TCC/view/chat_view.py:95-96 | the formatted topic has the name's length and no underscore |
| ChatView.FormatTopicShape | TCC/view/chat_view.py:95-96 | underscores become spaces; every other character stays the same up to case; a letter is upper-case exactly when it starts a word |
| ChatView.SourceLinkCaption | TCC/view/chat_view.py:173-178 | the caption is the base name + ".pdf" and the base name holds no '/' |
| ChatView.SourceLinkShape | TCC/view/chat_view.py:173 | the path is its directory part (empty or ending in '/'), the link's base name, and one extension (see StemSplits) |
| ChatView.SourceLinkDropsExtension | TCC/view/chat_view.py:173-178 | the link's name differs from the file's base name exactly when the base name has a dot with some non-dot character before it |
| ChatView.SourceLinks | TCC/view/chat_view.py:162-178 | one link per stored source, in order, each that source's link; none when there are no sources |
| ChatView.SessionState.constructor | TCC/view/chat_view.py:85 | a new browser session has no keys yet |
| ChatView.ChatView.constructor | TCC/view/chat_view.py:70-86 | `retriever_k` starts at 1 whatever the slider shows; `key` is 0; the session keeps its lists when it exists and is initialised otherwise |
| ChatView.ChatView.InitSessionState | TCC/view/chat_view.py:88-92 | empty question and answer lists, no stream, no sources |
| ChatView.ChatView.GetText | TCC/view/chat_view.py:108-111 | `retriever_k` takes the slider's value; the input is returned |
| ChatView.ChatView.GetEditedPrompt | TCC/view/chat_view.py:113-115 | the template is made from the prompt text as it stands now, edited or not |
| ChatView.ChatView.GetSearchFilters | TCC/view/chat_view.py:117-118 | no filter is ever selected |
| ChatView.ChatView.HandleResponses | TCC/view/chat_view.py:150-160 | the session becomes `AfterResponses` of the old session (see AfterResponsesEffect) |
| ChatView.ChatView.Display | TCC/view/chat_view.py:120-148 | the session becomes `AfterDisplay` of the old session and the input; `key` grows by exactly one |
| ChatView.ChatView.GenerateContext | TCC/view/chat_view.py:194-209 | the returned history is the window of the stored exchanges (see ContextWindowShape) |
| DocumentDatabase.PathJoin | TCC/model/document_database.py:70 | a joined path ends with the file name |
| DocumentDatabase.TxtDocumentsSound | TCC/model/document_database.py:69-73 | every ingested path is the joined path of a walked file whose name ends in ".txt"; there are no more paths than walked files |
| DocumentDatabase.TxtDocumentsAreTxt | TCC/model/document_database.py:69-73 | every ingested path ends in ".txt" |
| DocumentDatabase.TxtDocumentsComplete | TCC/model/document_database.py:69-73 | every walked file whose name ends in ".txt" is ingested |
| DocumentDatabase.ExistingSourcesSpec | TCC/model/document_database.py:45-46 | a source is in the existing set exactly when some metadata entry has it; entries without a source add nothing; duplicates collapse, so the set is no larger than the list |
| DocumentDatabase.LastMatchingSubjectSpec | TCC/model/document_database.py:90-93 | the chosen subject occurs in the document path and no later subject in scan order does; there is no subject exactly when none occurs |
| DocumentDatabase.TagDocuments | TCC/model/document_database.py:90-94 | each document keeps its text and page, gets the last matching subject (its own `subject` when none matches), and gets its path as `source` |
| DocumentDatabase.SplitDocuments | TCC/model/document_database.py:81-99 | the splits are, file by file in order, the split of that file's tagged documents |
| DocumentDatabase.TopicName | TCC/model/document_database.py:117 | the topic is a non-empty, '/'-free suffix of the folder path, preceded by a '/' whenever it is not the whole path |
| DocumentDatabase.TopicNames | TCC/model/document_database.py:117 | one topic per folder, in order |
| DocumentDatabase.TopicOfSubfolder | TCC/model/document_database.py:116-117 | the topic of a scanned sub-folder is exactly the sub-folder's name |
| DocumentDatabase.ListOf | TCC/model/document_database.py:126 | `list(set(...))` holds exactly the set's members, each once |
| DocumentDatabase.RagResponseShape | TCC/model/document_database.py:196-204 | the response has all four keys; query is echoed; one source per retrieved chunk; `rag_text` is the model's answer to the stream's request; the question is the query; with no history the context is the formatted chunks |
| DocumentDatabase.DocumentDatabase.constructor | TCC/model/document_database.py:33-50 | configuration copied; a given store reused as it is; otherwise the store `_create_chroma_db` leaves; topics saved only when something was ingested; the graph is attached |
| DocumentDatabase.DocumentDatabase.BuildGraph | TCC/model/document_database.py:138-147 | the graph is attached |
| DocumentDatabase.DocumentDatabase.CreateChromaDb | TCC/model/document_database.py:52-108 | persisted store reused; an empty store when no ".txt" file is found, with nothing split or indexed; otherwise the store indexed from the ingested splits, and the topics saved |
| DocumentDatabase.DocumentDatabase.SaveTopicsJson | TCC/model/document_database.py:111-128 | the saved topics hold every previously stored topic and every sub-folder's topic, each exactly once |
| DocumentDatabase.DocumentDatabase.RunRag | TCC/model/document_database.py:149-204 | a fresh state from this database's configuration, the query and the history; the pipeline run on it; its four results returned |
| ChatController.TurnEffect | TCC/controller/chat_controller.py:37-59 | an empty input, or one equal to the given `last_input`, leaves the session alone (each page run starts a new controller whose `last_input` is "", main.py:49-56, so a rerun with unchanged text counts as new); a new input adds the question, adds the model's answer to the request built from the query, the window and the top-k chunks, sets that stream, and sets the chunks' citations as sources; pairing is kept |
| ChatController.TurnExtendsWindow | TCC/controller/chat_controller.py:42-59 | after a new input, every question still has its answer and the next window ends with this question and its answer |
| ChatController.RequestContextShape | TCC/controller/chat_controller.py:42-54 | end to end: the model's context is the formatted chunks when nothing is answered yet; otherwise it is 2·min(n,3) "User:"/"Assistant:" lines ending with the latest exchange, a blank line, then the chunks |
| ChatController.ChatController.constructor | TCC/controller/chat_controller.py:11-21 | empty last input, history and messages; the view's prompt, `retriever_k` and (empty) filters copied into the controller and the database |
| ChatController.ChatController.UpdateQuery | TCC/controller/chat_controller.py:24-27 | the database's prompt, k and filters become the controller's |
| ChatController.ChatController.Ask | TCC/controller/chat_controller.py:47-59 | for a new input: `last_input` becomes it; the session is `AfterDisplay` of the reply `run_rag` gives with the current window; `key` grows by one; the history gains exactly one assistant entry holding that reply's text |
| ChatController.ChatController.Run | TCC/controller/chat_controller.py:30-63 | asks only for a non-empty input that differs from `last_input` (which is "" at the start of every page run, as main.py:49-56 builds a new controller each time), at most once; the session is `SessionAfterTurn`; one assistant entry per asked input, none otherwise; `last_input` is the asked input; `key` grows by one exactly when it asks; `messages` is the final window; the controller's prompt and filters and the database's configuration are unchanged |
| ChatController.ChatController.RunWithQueryUpdate | TCC/controller/chat_controller.py:30-63 | as Run, but the prompt, k and filters read from the view reach the controller and the database before it is asked: the session, the history entry and `key` are those of a turn with the edited prompt and the slider's k; `messages` is the final window |
| ChatController.PageRunAsWritten | TCC/controller/chat_controller.py:17-41 | a whole page run as written searches with k = 1 whatever the slider shows |
| ChatController.PageRun | TCC/controller/chat_controller.py:32-35 | a page run with the corrected loop searches with the slider's k and the edited prompt |

## Left out

- Streamlit rendering is not modelled: columns, `write_stream`, markdown, link buttons, forms, the logo and `load_dotenv`. For `display` only the session updates and `key` are modelled.
- The chat model, the embeddings and the lazy token stream are not modelled. The model is a function of the request. The stream is known by its request, and pulling tokens from it is not modelled.
- Chroma ranking, persistence and `get()` are not modelled. Search is an abstract function of query and `k`. Whether fewer than `k` chunks come back depends on the store and is not constrained.
- The LangGraph graph compilation and the `MessagesState` conversion of `{'role', 'content'}` dictionaries to message objects are library code. The conversion is taken to keep role and content: a `'user'` entry becomes a user turn, an `'assistant'` entry an assistant turn.
- GraphChatbot.RenderTurn: the `Role` type has two constructors, so the case in `call_llm_stream` where a turn is neither a human nor an AI message is not modelled. In the source that case reuses the previous turn's role or raises.
- `os.walk`, `os.scandir`, `TextLoader`, `RecursiveCharacterTextSplitter`, `Chroma.from_documents` and the JSON read and write of topics.json are not modelled. They are the `Disk` value's fields: its walk, sub-folder names, `load`, `split` and `index`. `topicsFile` stands for the file's content.
- `_load_topics_json` (chat_view.py, defined twice) only reads a file and is not modelled.
- `urllib.parse.quote` in the S3 address (section 2.1 of RFC 3986) is not modelled. Only the base name and the link caption are.
- Strings.TitleShape: case mapping is ASCII only. Non-ASCII letters are treated as uncased, whereas Python's `str.title` and `str.capitalize` follow Unicode.
- ChatView.FormatTopic: the equal-length promise holds for ASCII. Python's Unicode title case can lengthen some characters.
- ChatView.ChatView.GenerateContext: it requires that no more answers than questions are stored. The source would raise `IndexError` otherwise. DisplayKeepsPairing proves that state is never reached.
- DocumentDatabase.TopicName: it requires a non-empty path that does not end in '/'. For other paths `re.search` finds nothing and `.group()` raises. Scanned sub-folder paths always qualify (TopicOfSubfolder).
- GraphChatbot.RagState.CallLlmStream, GraphChatbot.RagState.RunPipeline and DocumentDatabase.DocumentDatabase.RunRag require a prompt template and a store. Without a store the source fails in its own retrieval node, calling `as_retriever` on `None` (graph_chatbot.py:58). Without a template it fails when the chain is composed with `None` (graph_chatbot.py:103). The controller's constructor always sets the template.
- Strings.BaseName, DocumentDatabase.PathJoin, DocumentDatabase.SubjectPaths and DocumentDatabase.TopicOfSubfolder model POSIX paths with '/' as the only separator. On Windows, where main.py:52 points the database, `os.path.join` and `os.scandir` use '\', `os.path.basename` splits on both separators, and the pattern `[^/]+$` at document_database.py:117 matches the whole folder path, so each topic would be a full path there.
- ChatView.ChatView.HandleResponses (and ChatView.ChatView.Display, which calls it) requires that a response with "rag_stream" or "rag_text" also has "sources". Without it the source raises `KeyError` (chat_view.py:154, 160). The only caller passes the four-key dictionary `run_rag` builds (document_database.py:196-204), which always meets this.
- `chroma_db` truthiness is modelled as presence (`Option`).
- `_initialize` prints the count of the existing-source set and does nothing else with it. The set is modelled by `ExistingSources`, not the printing.
- A non-positive `retriever_k` is not rejected with an error before retrieval. The code has no such check, and the model follows the code: any integer `k` is passed to the search.
- The `debug` parameter of `run` is unused and not modelled.
- TCC/main.py, TCC/auxiliary, TCC/model/stream_test.py, TCC/analysis and TCC/controller/chat_web_controller.py are not part of this model. They are bootstrap, download scripts, experiments and dead code.

## Findings

| source | as written | input that shows it | evidently intended | confidence | as-written member | corrected member |
|---|---|---|---|---|---|---|
| TCC/controller/chat_controller.py:17-41 | the database's `retriever_k` is copied from `view.retriever_k` in `__init__`, when it is still 1 (chat_view.py:71); `run` reads the slider into the controller's own field but never calls `_update_query`, so the search always uses k = 1 and the 2–10 slider is ignored | slider at 5, any new question: the database searches with k = 1 | `run`'s documentation says the prompt, `retriever_k` and filters are collected and passed on to `run_rag` | high; not executed | ChatController.PageRunAsWritten | ChatController.PageRun |
