/** The controller: it copies the view's settings into the database once,
    then, on each page run, reads the widgets, builds the history window,
    and, when the question is new and non-empty, asks the database, hands the
    response to the view and keeps the answer. */
module ChatController {
  import opened Wrappers
  import opened Strings
  import opened RagTypes
  import opened GraphChatbot
  import opened ChatView
  import opened DocumentDatabase

  // ---------------------------------------------------------------------
  // One page run, as values

  /** The controller only asks when the input is non-empty and differs from
      the last one it asked about. */
  predicate IsNewInput(input: string, lastInput: string)
  {
    input != "" && input != lastInput
  }

  /** The response `run_rag` gives for `input` when the history is the window
      of the session as it stands before the question is displayed. */
  function Reply(store: VectorStore, template: PromptTemplate, k: int, s: Session,
                 input: string, llm: LanguageModel): Responses
    requires WellPaired(s)
  {
    RagResponse(store, template, k, input, ContextWindow(s.userInputs, s.ragGenerated), llm)
  }

  /** The session after one page run of the controller. */
  function SessionAfterTurn(store: VectorStore, template: PromptTemplate, k: int, s: Session,
                            input: string, lastInput: string, llm: LanguageModel): Session
    requires WellPaired(s)
  {
    if IsNewInput(input, lastInput) then AfterDisplay(s, input, Some(Reply(store, template, k, s, input, llm)))
    else s
  }

  /** A page run with an old or empty input leaves the session alone. A new
      input adds the question, adds the answer the model gives to the request
      built from the query, the history window and the top-k chunks, replaces
      the stream with that request's stream and the sources with the chunks'
      citations; every answer keeps its question. */
  lemma TurnEffect(store: VectorStore, template: PromptTemplate, k: int, s: Session,
                   input: string, lastInput: string, llm: LanguageModel)
    requires WellPaired(s)
    ensures var t := SessionAfterTurn(store, template, k, s, input, lastInput, llm);
      && WellPaired(t)
      && (!IsNewInput(input, lastInput) ==> t == s)
      && (IsNewInput(input, lastInput) ==>
            var chunks := store.search(input, k);
            var request := RequestFor(template, input, ContextWindow(s.userInputs, s.ragGenerated), chunks);
            && t.initialized == s.initialized
            && t.userInputs == s.userInputs + [input]
            && t.ragGenerated == s.ragGenerated + [llm.complete(request)]
            && t.ragStream == Some(AnswerStream(request))
            && t.sources == Some(Citations(chunks)))
  {
    if IsNewInput(input, lastInput) {
      var r := Reply(store, template, k, s, input, llm);
      DisplayKeepsPairing(s, input, Some(r));
      AfterResponsesEffect(s.(userInputs := s.userInputs + [input]), r);
    }
  }

  /** When every question so far has its answer, a page run with a new input
      keeps that so, and the window the next question is asked with ends with
      this question and its answer. */
  lemma TurnExtendsWindow(store: VectorStore, template: PromptTemplate, k: int, s: Session,
                          input: string, lastInput: string, llm: LanguageModel)
    requires |s.ragGenerated| == |s.userInputs|
    requires IsNewInput(input, lastInput)
    ensures var t := SessionAfterTurn(store, template, k, s, input, lastInput, llm);
      var answer := Reply(store, template, k, s, input, llm).ragText.value;
      && |t.ragGenerated| == |t.userInputs|
      && var w := ContextWindow(t.userInputs, t.ragGenerated);
         |w| >= 2 && w[|w| - 2] == Message(User, input) && w[|w| - 1] == Message(Assistant, answer)
  {
    DisplayedExchangeEndsWindow(s, input, Reply(store, template, k, s, input, llm));
  }

  /** The context the model is asked with, end to end: with no answered
      question it is the formatted chunks alone; otherwise it is one line per
      turn of the last min(n, 3) exchanges, 2 * min(n, 3) lines ending with
      the latest question and answer, then a blank line, then the chunks. */
  lemma RequestContextShape(store: VectorStore, template: PromptTemplate, k: int, s: Session,
                            input: string, llm: LanguageModel)
    requires WellPaired(s)
    ensures var r := Reply(store, template, k, s, input, llm);
      var context := r.ragStream.value.value.request.context;
      var chunks := store.search(input, k);
      var n := |s.ragGenerated|;
      var lines := RenderedTurns(ContextWindow(s.userInputs, s.ragGenerated));
      && (n == 0 ==> context == FormatDocs(chunks))
      && (n > 0 ==>
            && context == Join("\n", lines) + "\n\n" + FormatDocs(chunks)
            && |lines| == 2 * (if n < ExchangeLimit then n else ExchangeLimit)
            && lines[|lines| - 2] == "User: " + s.userInputs[n - 1]
            && lines[|lines| - 1] == "Assistant: " + s.ragGenerated[n - 1])
  {
    var w := ContextWindow(s.userInputs, s.ragGenerated);
    ContextWindowShape(s.userInputs, s.ragGenerated);
    CombinedContextShape(w, store.search(input, k));
  }

  // ---------------------------------------------------------------------
  // The controller object

  /** `ChatController`. `filterDict` is the list under the "filters" key. */
  class ChatController {
    const db: DocumentDatabase
    const view: ChatView
    var lastInput: string
    var history: seq<Message>
    var messages: seq<Message>
    var retrieverK: int
    var prompt: PromptTemplate
    var filters: seq<string>
    var userEditedPrompt: PromptTemplate
    var filterDict: seq<string>

    /** `__init__`: the view's current settings are copied here and into
        the database. */
    constructor (db: DocumentDatabase, view: ChatView)
      modifies db`promptTemplate, db`retrieverK, db`filterList
      ensures this.db == db && this.view == view
      ensures lastInput == "" && history == [] && messages == []
      ensures retrieverK == view.retrieverK && prompt == view.GetEditedPrompt() && filters == []
      ensures userEditedPrompt == view.GetEditedPrompt()
      ensures db.promptTemplate == Some(view.GetEditedPrompt())
      ensures db.retrieverK == view.retrieverK && db.filterList == Some([])
    {
      this.db := db;
      this.view := view;
      lastInput := "";
      history := [];
      messages := [];
      retrieverK := view.retrieverK;
      prompt := view.GetEditedPrompt();
      filters := view.GetSearchFilters();
      userEditedPrompt := view.GetEditedPrompt();
      filterDict := [];
      new;
      UpdateQuery();
    }

    /** `_update_query`: the controller's prompt, `k` and filters become the
        database's. */
    method UpdateQuery()
      modifies db`promptTemplate, db`retrieverK, db`filterList
      ensures db.promptTemplate == Some(prompt) && db.retrieverK == retrieverK && db.filterList == Some(filters)
    {
      db.promptTemplate := Some(prompt);
      db.retrieverK := retrieverK;
      db.filterList := Some(filters);
    }

    /** The branch of `run` for a new input: remember it, ask the database
        with the current window, display the response and keep its text in
        the history. */
    method Ask(llm: LanguageModel)
      requires db.vectorstore.Some? && db.promptTemplate.Some? && db.graphBuilt
      requires view.session.initialized && WellPaired(view.session.Value())
      requires messages == ContextWindow(view.session.userInputs, view.session.ragGenerated)
      modifies this`lastInput, this`history, view`key, view.session
      ensures lastInput == view.userInput && view.key == old(view.key) + 1
      ensures view.session.initialized && WellPaired(view.session.Value())
      ensures view.session.Value() ==
        AfterDisplay(old(view.session.Value()), view.userInput,
                     Some(Reply(db.vectorstore.value, db.promptTemplate.value, db.retrieverK, old(view.session.Value()), view.userInput, llm)))
      ensures history == old(history) + [Message(Assistant, Reply(db.vectorstore.value, db.promptTemplate.value, db.retrieverK,
                                                                  old(view.session.Value()), view.userInput, llm).ragText.value)]
    {
      ghost var s0 := view.session.Value();
      lastInput := view.userInput;
      var ragResponse := db.RunRag(view.userInput, messages, llm);
      view.Display(Some(ragResponse));
      history := history + [Message(Assistant, ragResponse.ragText.value)];
      DisplayKeepsPairing(s0, view.userInput, Some(ragResponse));
    }

    /** `run`. The input does not change within one page run, so the loop
        asks at most once: a second pass finds the input equal to
        `last_input` and stops. The database is read, never written: the
        prompt, `k` and filters read from the view here do not reach it. */
    method Run(llm: LanguageModel)
      requires db.vectorstore.Some? && db.promptTemplate.Some? && db.graphBuilt
      requires view.session.initialized && WellPaired(view.session.Value())
      modifies this, view`retrieverK, view`key, view.session
      ensures view.session.initialized && WellPaired(view.session.Value())
      ensures view.session.Value() == SessionAfterTurn(db.vectorstore.value, db.promptTemplate.value, db.retrieverK,
                                                       old(view.session.Value()), view.userInput, old(lastInput), llm)
      ensures IsNewInput(view.userInput, old(lastInput)) ==>
        && lastInput == view.userInput
        && view.key == old(view.key) + 1
        && history == old(history) + [Message(Assistant, Reply(db.vectorstore.value, db.promptTemplate.value, db.retrieverK,
                                                              old(view.session.Value()), view.userInput, llm).ragText.value)]
      ensures !IsNewInput(view.userInput, old(lastInput)) ==>
        lastInput == old(lastInput) && view.key == old(view.key) && history == old(history)
      ensures view.retrieverK == view.sliderValue && retrieverK == view.sliderValue
      ensures userEditedPrompt == view.GetEditedPrompt() && filterDict == []
      ensures messages == ContextWindow(view.session.userInputs, view.session.ragGenerated)
      ensures db.promptTemplate == old(db.promptTemplate) && db.retrieverK == old(db.retrieverK)
      ensures db.filterList == old(db.filterList)
      ensures prompt == old(prompt) && filters == old(filters)
    {
      ghost var s0 := view.session.Value();
      ghost var last0 := lastInput;
      ghost var asked := false;
      while true
        invariant prompt == old(prompt) && filters == old(filters)
        invariant view.session.initialized && WellPaired(view.session.Value())
        invariant !asked ==>
          && view.session.Value() == s0 && lastInput == last0
          && view.key == old(view.key) && history == old(history)
        invariant asked ==>
          && IsNewInput(view.userInput, last0) && lastInput == view.userInput
          && view.session.Value() == SessionAfterTurn(db.vectorstore.value, db.promptTemplate.value, db.retrieverK,
                                                      s0, view.userInput, last0, llm)
          && view.key == old(view.key) + 1
          && history == old(history) + [Message(Assistant, Reply(db.vectorstore.value, db.promptTemplate.value,
                                                                 db.retrieverK, s0, view.userInput, llm).ragText.value)]
        decreases if asked then 0 else 1
      {
        var userInput := view.GetText();
        userEditedPrompt := view.GetEditedPrompt();
        retrieverK := view.retrieverK;
        filterDict := view.GetSearchFilters();
        var chatHistory := view.GenerateContext();
        messages := chatHistory;
        if userInput != "" && userInput != lastInput {
          Ask(llm);
          asked := true;
        } else {
          break;
        }
      }
    }

    /** `run` as its documentation describes it: the prompt, `k` and filters
        read from the view are passed on to the database before it is asked. */
    method RunWithQueryUpdate(llm: LanguageModel)
      requires db.vectorstore.Some? && db.graphBuilt
      requires view.session.initialized && WellPaired(view.session.Value())
      modifies this, view`retrieverK, view`key, view.session, db`promptTemplate, db`retrieverK, db`filterList
      ensures db.retrieverK == view.sliderValue && db.promptTemplate == Some(view.GetEditedPrompt())
      ensures db.filterList == Some([])
      ensures view.session.initialized && WellPaired(view.session.Value())
      ensures view.session.Value() == SessionAfterTurn(db.vectorstore.value, view.GetEditedPrompt(), view.sliderValue,
                                                       old(view.session.Value()), view.userInput, old(lastInput), llm)
      ensures IsNewInput(view.userInput, old(lastInput)) ==>
        && lastInput == view.userInput
        && view.key == old(view.key) + 1
        && history == old(history) + [Message(Assistant, Reply(db.vectorstore.value, view.GetEditedPrompt(), view.sliderValue,
                                                              old(view.session.Value()), view.userInput, llm).ragText.value)]
      ensures !IsNewInput(view.userInput, old(lastInput)) ==>
        lastInput == old(lastInput) && view.key == old(view.key) && history == old(history)
      ensures view.retrieverK == view.sliderValue && retrieverK == view.sliderValue
      ensures prompt == view.GetEditedPrompt() && userEditedPrompt == view.GetEditedPrompt()
      ensures filters == [] && filterDict == []
      ensures messages == ContextWindow(view.session.userInputs, view.session.ragGenerated)
    {
      ghost var s0 := view.session.Value();
      ghost var last0 := lastInput;
      ghost var asked := false;
      var userInput := view.GetText();
      userEditedPrompt := view.GetEditedPrompt();
      retrieverK := view.retrieverK;
      filterDict := view.GetSearchFilters();
      prompt := userEditedPrompt;
      filters := filterDict;
      UpdateQuery();
      while true
        invariant db.retrieverK == view.sliderValue && db.promptTemplate == Some(view.GetEditedPrompt())
        invariant db.filterList == Some([]) && view.retrieverK == view.sliderValue
        invariant view.session.initialized && WellPaired(view.session.Value())
        invariant retrieverK == view.sliderValue && filters == [] && filterDict == []
        invariant prompt == view.GetEditedPrompt() && userEditedPrompt == view.GetEditedPrompt()
        invariant !asked ==>
          && view.session.Value() == s0 && lastInput == last0
          && view.key == old(view.key) && history == old(history)
        invariant asked ==>
          && IsNewInput(view.userInput, last0) && lastInput == view.userInput
          && view.session.Value() == SessionAfterTurn(db.vectorstore.value, view.GetEditedPrompt(), view.sliderValue,
                                                      s0, view.userInput, last0, llm)
          && view.key == old(view.key) + 1
          && history == old(history) + [Message(Assistant, Reply(db.vectorstore.value, view.GetEditedPrompt(),
                                                                 view.sliderValue, s0, view.userInput, llm).ragText.value)]
        decreases if asked then 0 else 1
      {
        userInput := view.GetText();
        var chatHistory := view.GenerateContext();
        messages := chatHistory;
        if userInput != "" && userInput != lastInput {
          Ask(llm);
          asked := true;
        } else {
          break;
        }
      }
    }
  }

  // ---------------------------------------------------------------------
  // A whole page run: view, controller, run

  /** A page run as written: a new view, a new controller, `run`. Whatever
      the slider shows (it offers 2 to 10), the database searches with
      `k` = 1, because the view's `retriever_k` is still 1 when the
      controller copies it, and `run` never passes the slider's value on. */
  method PageRunAsWritten(session: SessionState, sliderValue: int, userPrompt: string, userInput: string,
                          db: DocumentDatabase, llm: LanguageModel)
    requires db.vectorstore.Some? && db.graphBuilt
    requires session.initialized ==> WellPaired(session.Value())
    modifies session, db`promptTemplate, db`retrieverK, db`filterList
    ensures db.retrieverK == 1
    ensures userInput != "" ==>
      session.sources == Some(Citations(db.vectorstore.value.search(userInput, 1)))
  {
    var view := new ChatView(session, sliderValue, userPrompt, userInput);
    ghost var s1 := session.Value();
    var controller := new ChatController(db, view);
    controller.Run(llm);
    TurnEffect(db.vectorstore.value, db.promptTemplate.value, 1, s1, userInput, "", llm);
  }

  /** A page run with the corrected `run`: the database searches with the
      slider's `k`, and the sources are the citations of that many chunks'
      search. */
  method PageRun(session: SessionState, sliderValue: int, userPrompt: string, userInput: string,
                 db: DocumentDatabase, llm: LanguageModel)
    requires db.vectorstore.Some? && db.graphBuilt
    requires session.initialized ==> WellPaired(session.Value())
    modifies session, db`promptTemplate, db`retrieverK, db`filterList
    ensures db.retrieverK == sliderValue && db.promptTemplate == Some(PromptTemplate(userPrompt))
    ensures userInput != "" ==>
      session.sources == Some(Citations(db.vectorstore.value.search(userInput, sliderValue)))
  {
    var view := new ChatView(session, sliderValue, userPrompt, userInput);
    ghost var s1 := session.Value();
    var controller := new ChatController(db, view);
    controller.RunWithQueryUpdate(llm);
    TurnEffect(db.vectorstore.value, PromptTemplate(userPrompt), sliderValue, s1, userInput, "", llm);
  }
}
