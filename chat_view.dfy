/** The chat page: the session state that survives between page runs (the
    questions asked, the answers received, the current stream and sources),
    the window of recent exchanges sent back as history, and the text shown
    for topics and source links. Widgets and rendering are not modelled. */
module ChatView {
  import opened Wrappers
  import opened Strings
  import opened RagTypes

  /** How many past exchanges `generate_context` sends back. */
  const ExchangeLimit: nat := 3

  // ---------------------------------------------------------------------
  // The session state as a value, and what each handler does to it

  /** `st.session_state`: `initialized` says whether its keys exist. */
  datatype Session = Session(
    initialized: bool,
    userInputs: seq<string>,
    ragStream: Option<AnswerStream>,
    ragGenerated: seq<string>,
    sources: Option<seq<string>>)

  /** The session right after `_init_session_state`. */
  function FreshSession(): Session
  {
    Session(true, [], None, [], None)
  }

  /** There are never more stored answers than stored questions. This bounds
      the lengths only; it does not say that answer i answers question i. */
  predicate WellPaired(s: Session)
  {
    |s.ragGenerated| <= |s.userInputs|
  }

  /** What `_handle_responses` does to the session. */
  function AfterResponses(s: Session, r: Responses): Session
    requires r.SourcesWhereRead()
  {
    var s1 := if r.ragStream.Some? then s.(ragStream := r.ragStream.value, sources := r.sources) else s;
    if r.ragText.Some? then s1.(ragGenerated := s1.ragGenerated + [r.ragText.value], sources := r.sources)
    else s1
  }

  /** Python truthiness of the `responses` argument. */
  predicate Truthy(responses: Option<Responses>)
  {
    responses.Some? && responses.value.NonEmpty()
  }

  /** What `display` does to the session: nothing for an empty input;
      otherwise the input is recorded and the responses, if any, handled. */
  function AfterDisplay(s: Session, input: string, responses: Option<Responses>): Session
    requires Truthy(responses) ==> responses.value.SourcesWhereRead()
  {
    if input == "" then s
    else
      var s1 := s.(userInputs := s.userInputs + [input]);
      if Truthy(responses) then AfterResponses(s1, responses.value) else s1
  }

  /** `_handle_responses`: a "rag_text" adds exactly one answer, at the end;
      a "rag_stream" replaces the stream; either one replaces the sources;
      the questions and everything else are left alone. */
  lemma AfterResponsesEffect(s: Session, r: Responses)
    requires r.SourcesWhereRead()
    ensures var t := AfterResponses(s, r);
      && t.initialized == s.initialized
      && t.userInputs == s.userInputs
      && t.ragGenerated == (if r.ragText.Some? then s.ragGenerated + [r.ragText.value] else s.ragGenerated)
      && t.ragStream == (if r.ragStream.Some? then r.ragStream.value else s.ragStream)
      && t.sources == (if r.ragStream.Some? || r.ragText.Some? then r.sources else s.sources)
  {
  }

  /** `display` with an empty input changes nothing; with an input it adds
      that input as the last question and at most one answer. */
  lemma AfterDisplayEffect(s: Session, input: string, responses: Option<Responses>)
    requires Truthy(responses) ==> responses.value.SourcesWhereRead()
    ensures input == "" ==> AfterDisplay(s, input, responses) == s
    ensures input != "" ==> AfterDisplay(s, input, responses).userInputs == s.userInputs + [input]
    ensures var t := AfterDisplay(s, input, responses);
      && t.initialized == s.initialized
      && s.ragGenerated <= t.ragGenerated
      && |t.ragGenerated| <= |s.ragGenerated| + 1
  {
  }

  /** Display keeps every answer paired with a question, because an answer is
      only ever stored right after its question. */
  lemma DisplayKeepsPairing(s: Session, input: string, responses: Option<Responses>)
    requires Truthy(responses) ==> responses.value.SourcesWhereRead()
    requires WellPaired(s)
    ensures WellPaired(AfterDisplay(s, input, responses))
  {
    if input != "" && Truthy(responses) {
      AfterResponsesEffect(s.(userInputs := s.userInputs + [input]), responses.value);
    }
  }

  // ---------------------------------------------------------------------
  // The window of recent exchanges

  /** `max(size - EXCHANGE_LIMIT, 0)`. */
  function WindowStart(n: nat): nat
  {
    if n > ExchangeLimit then n - ExchangeLimit else 0
  }

  /** Exchanges `lo .. hi-1`, each as its question then its answer. */
  function Exchanges(inputs: seq<string>, generated: seq<string>, lo: nat, hi: nat): seq<Message>
    requires lo <= hi <= |generated| && hi <= |inputs|
    decreases hi - lo
  {
    if lo == hi then []
    else
      Exchanges(inputs, generated, lo, hi - 1)
      + [Message(User, inputs[hi - 1]), Message(Assistant, generated[hi - 1])]
  }

  /** The history `generate_context` builds from the stored questions and
      answers. */
  function ContextWindow(inputs: seq<string>, generated: seq<string>): seq<Message>
    requires |generated| <= |inputs|
  {
    Exchanges(inputs, generated, WindowStart(|generated|), |generated|)
  }

  lemma {:induction false} ExchangesAt(inputs: seq<string>, generated: seq<string>, lo: nat, hi: nat)
    requires lo <= hi <= |generated| && hi <= |inputs|
    ensures var w := Exchanges(inputs, generated, lo, hi);
      && |w| == 2 * (hi - lo)
      && forall j :: 0 <= j < |w| ==>
           w[j] == (if j % 2 == 0 then Message(User, inputs[lo + j / 2])
                    else Message(Assistant, generated[lo + j / 2]))
    decreases hi - lo
  {
    if lo < hi {
      ExchangesAt(inputs, generated, lo, hi - 1);
    }
  }

  /** The window holds the last min(n, 3) exchanges of the n answered ones,
      oldest first, each as the user's question followed by the answer to
      it; it is empty when nothing has been answered, and otherwise ends with
      the latest exchange. */
  lemma ContextWindowShape(inputs: seq<string>, generated: seq<string>)
    requires |generated| <= |inputs|
    ensures var w := ContextWindow(inputs, generated);
      var n := |generated|;
      var start := if n >= ExchangeLimit then n - ExchangeLimit else 0;
      && |w| == 2 * (if n < ExchangeLimit then n else ExchangeLimit)
      && (n == 0 <==> w == [])
      && (forall j :: 0 <= j < |w| ==>
            w[j] == (if j % 2 == 0 then Message(User, inputs[start + j / 2])
                     else Message(Assistant, generated[start + j / 2])))
      && (n > 0 ==>
            w[|w| - 2] == Message(User, inputs[n - 1]) && w[|w| - 1] == Message(Assistant, generated[n - 1]))
  {
    var n := |generated|;
    ExchangesAt(inputs, generated, WindowStart(n), n);
  }

  /** After a question and its answer are displayed on a session where every
      question so far has its answer, that still holds and the next window
      ends with exactly this question and this answer. */
  lemma DisplayedExchangeEndsWindow(s: Session, input: string, r: Responses)
    requires |s.ragGenerated| == |s.userInputs|
    requires input != "" && r.ragText.Some? && r.SourcesWhereRead()
    ensures var t := AfterDisplay(s, input, Some(r));
      && |t.ragGenerated| == |t.userInputs|
      && var w := ContextWindow(t.userInputs, t.ragGenerated);
         |w| >= 2 && w[|w| - 2] == Message(User, input) && w[|w| - 1] == Message(Assistant, r.ragText.value)
  {
    var t := AfterDisplay(s, input, Some(r));
    AfterResponsesEffect(s.(userInputs := s.userInputs + [input]), r);
    ContextWindowShape(t.userInputs, t.ragGenerated);
  }

  // ---------------------------------------------------------------------
  // Topic names and source links

  /** `_format_topic`: underscores become spaces, then title case. */
  function FormatTopic(topic: string): (r: string)
    ensures |r| == |topic|
    ensures forall i :: 0 <= i < |r| ==> r[i] != '_'
  {
    TitleShape(ReplaceChar(topic, '_', ' '));
    Title(ReplaceChar(topic, '_', ' '))
  }

  /** A formatted topic has a space wherever the name had an underscore and
      the name's own character, up to case, everywhere else; a letter is
      upper-case exactly when it starts a word. */
  lemma FormatTopicShape(topic: string)
    ensures var r := FormatTopic(topic);
      && (forall i :: 0 <= i < |topic| && topic[i] == '_' ==> r[i] == ' ')
      && (forall i :: 0 <= i < |topic| && topic[i] != '_' ==> ToLower(r[i]) == ToLower(topic[i]))
      && (forall i :: 0 <= i < |topic| && IsLetter(topic[i]) ==>
            (IsUpper(r[i]) <==> (i == 0 || !IsLetter(topic[i - 1]))))
  {
    var spaced := ReplaceChar(topic, '_', ' ');
    TitleShape(spaced);
    var r := FormatTopic(topic);
    forall i | 0 <= i < |topic| && topic[i] != '_'
      ensures ToLower(r[i]) == ToLower(topic[i])
    {
      assert LowerAll(r)[i] == LowerAll(spaced)[i];
    }
    forall i | 0 <= i < |topic| && IsLetter(topic[i])
      ensures IsUpper(r[i]) <==> (i == 0 || !IsLetter(topic[i - 1]))
    {
      assert IsLetter(spaced[i]);
      if i > 0 {
        assert IsLetter(spaced[i - 1]) <==> IsLetter(topic[i - 1]);
      }
    }
  }

  /** One source link: captioned with the document's base name and ".pdf". */
  datatype LinkButton = LinkButton(caption: string, baseName: string)

  /** The link `_display_sources` makes for one source path. */
  function SourceLink(path: string): LinkButton
  {
    var base := Stem(BaseName(path));
    LinkButton(base + ".pdf", base)
  }

  /** The caption is the link's name with ".pdf", and the name holds no
      directory. */
  lemma SourceLinkCaption(path: string)
    ensures var l := SourceLink(path);
      && l.caption == l.baseName + ".pdf"
      && EndsWith(l.caption, ".pdf")
      && '/' !in l.baseName
  {
    var b := BaseName(path);
    StemSplits(b);
    NoSlashInPrefix(Stem(b), b);
  }

  /** The link's name is the path with its directories and its last
      extension taken off: the path is a directory part (empty or ending in
      '/'), the name, and an extension (empty or a dot and dot-free text). */
  lemma SourceLinkShape(path: string)
    ensures var b := BaseName(path);
      var dir := path[..|path| - |b|];
      && path == dir + SourceLink(path).baseName + Extension(b)
      && (dir == [] || dir[|dir| - 1] == '/')
  {
    var b := BaseName(path);
    var stem := Stem(b);
    assert SourceLink(path).baseName == stem;
    StemSplits(b);
    SuffixSplit(path, b);
    ConcatAssoc(path, path[..|path| - |b|], b, stem, Extension(b));
  }

  /** The link's name differs from the file's base name exactly when the
      base name has a dot preceded by something other than dots, so
      "notes.v2.pdf" is shown as "notes.v2" and ".profile" as itself. */
  lemma SourceLinkDropsExtension(path: string)
    ensures var b := BaseName(path);
      SourceLink(path).baseName != b <==>
        exists i :: 0 < i < |b| && b[i] == '.' && !AllDots(b[..i])
  {
    var b := BaseName(path);
    StemSplits(b);
    StemRemovesExtension(b);
    assert SourceLink(path).baseName == Stem(b);
  }

  /** A path is what comes before a suffix followed by the suffix, and what
      comes before the base name is empty or ends in '/'. */
  lemma SuffixSplit(path: string, b: string)
    requires b == BaseName(path)
    ensures path == path[..|path| - |b|] + b
    ensures var dir := path[..|path| - |b|]; dir == [] || dir[|dir| - 1] == '/'
  {
    var dir := path[..|path| - |b|];
    if dir != [] {
      assert dir[|dir| - 1] == path[|path| - |b| - 1];
    }
  }

  /** Regrouping a three-part path. Kept as its own lemma: here the parts
      are plain variables, whereas inside SourceLinkShape the solver also
      sees the definitions of BaseName and Stem and runs out of resource
      on the same step. */
  lemma ConcatAssoc(path: string, dir: string, b: string, stem: string, ext: string)
    requires path == dir + b && b == stem + ext
    ensures path == dir + stem + ext
  {
  }

  lemma NoSlashInPrefix(p: string, s: string)
    requires IsPrefix(p, s) && '/' !in s
    ensures '/' !in p
  {
    forall j | 0 <= j < |p| ensures p[j] != '/' {
      assert p[j] == s[j];
    }
  }

  /** `_display_sources`: one link (and one column) per stored source, in
      order, and none when there are no sources. */
  function SourceLinks(sources: Option<seq<string>>): (links: seq<LinkButton>)
    ensures sources.None? ==> links == []
    ensures sources.Some? ==> |links| == |sources.value|
    ensures sources.Some? ==> forall i :: 0 <= i < |links| ==> links[i] == SourceLink(sources.value[i])
  {
    if sources.None? || sources.value == [] then []
    else seq(|sources.value|, i requires 0 <= i < |sources.value| => SourceLink(sources.value[i]))
  }

  // ---------------------------------------------------------------------
  // The session store and the view object

  /** `st.session_state`, which outlives each run of the page. */
  class SessionState {
    var initialized: bool
    var userInputs: seq<string>
    var ragStream: Option<AnswerStream>
    var ragGenerated: seq<string>
    var sources: Option<seq<string>>

    /** A new browser session: none of the keys exist yet. */
    constructor ()
      ensures !initialized
    {
      initialized := false;
      userInputs := [];
      ragStream := None;
      ragGenerated := [];
      sources := None;
    }

    function Value(): Session
      reads this
    {
      Session(initialized, userInputs, ragStream, ragGenerated, sources)
    }
  }

  /** `ChatView`: the widget values of one page run, and the shared session. */
  class ChatView {
    const session: SessionState
    var sliderValue: int
    var userPrompt: string
    var userInput: string
    var retrieverK: int
    var key: int

    /** The view as `__init__` leaves it: `retriever_k` is 1 whatever the
        slider shows, `key` is 0, and the session keys are created if they
        did not exist yet. */
    constructor (session: SessionState, sliderValue: int, userPrompt: string, userInput: string)
      modifies session
      ensures this.session == session
      ensures this.sliderValue == sliderValue && this.userPrompt == userPrompt && this.userInput == userInput
      ensures retrieverK == 1 && key == 0
      ensures session.Value() == if old(session.initialized) then old(session.Value()) else FreshSession()
    {
      this.session := session;
      this.sliderValue := sliderValue;
      this.userPrompt := userPrompt;
      this.userInput := userInput;
      retrieverK := 1;
      key := 0;
      new;
      if !session.initialized {
        InitSessionState();
      }
    }

    /** `_init_session_state`: empty question and answer lists, no stream and
        no sources. */
    method InitSessionState()
      modifies session
      ensures session.Value() == FreshSession()
      ensures session.userInputs == [] && session.ragGenerated == []
      ensures session.ragStream == None && session.sources == None
    {
      session.initialized := true;
      session.userInputs := [];
      session.ragStream := None;
      session.ragGenerated := [];
      session.sources := None;
    }

    /** `get_text`: takes `retriever_k` from the slider and returns the input. */
    method GetText() returns (text: string)
      modifies this`retrieverK
      ensures retrieverK == sliderValue && text == userInput
    {
      retrieverK := sliderValue;
      text := userInput;
    }

    /** `get_edited_prompt`: a template from the current prompt text. */
    function GetEditedPrompt(): (p: PromptTemplate)
      reads this
      ensures p.template == userPrompt
    {
      PromptTemplate(userPrompt)
    }

    /** `get_search_filters`: no filter is ever selected. */
    function GetSearchFilters(): (filters: seq<string>)
      ensures |filters| == 0
    {
      []
    }

    /** `_handle_responses`. */
    method HandleResponses(responses: Responses)
      requires responses.SourcesWhereRead()
      modifies session
      ensures session.Value() == AfterResponses(old(session.Value()), responses)
    {
      if responses.ragStream.Some? {
        session.ragStream := responses.ragStream.value;
        session.sources := responses.sources;
      }
      if responses.ragText.Some? {
        session.ragGenerated := session.ragGenerated + [responses.ragText.value];
        session.sources := responses.sources;
      }
    }

    /** `display`, its session updates only: record the input and handle
        the responses when there is an input; count the call in `key`. */
    method Display(responses: Option<Responses>)
      requires session.initialized
      requires Truthy(responses) ==> responses.value.SourcesWhereRead()
      modifies session, this`key
      ensures key == old(key) + 1
      ensures session.Value() == AfterDisplay(old(session.Value()), userInput, responses)
    {
      if userInput != "" {
        session.userInputs := session.userInputs + [userInput];
        if Truthy(responses) {
          HandleResponses(responses.value);
        }
      }
      key := key + 1;
    }

    /** `generate_context`: the last (at most three) exchanges as history. */
    method GenerateContext() returns (context: seq<Message>)
      requires WellPaired(session.Value())
      ensures context == ContextWindow(session.userInputs, session.ragGenerated)
    {
      context := [];
      if session.ragGenerated != [] {
        var size := |session.ragGenerated|;
        var lo := if size - ExchangeLimit > 0 then size - ExchangeLimit else 0;
        for i := lo to size
          invariant context == Exchanges(session.userInputs, session.ragGenerated, lo, i)
        {
          context := context + [Message(User, session.userInputs[i])];
          context := context + [Message(Assistant, session.ragGenerated[i])];
        }
      }
    }
  }
}
