/** The document database: it builds or reuses the vector store (finding the
    `.txt` files, tagging each document with its subject folder and its path,
    saving the topic list), and answers one question by running the pipeline
    on a fresh state and returning a four-key response. */
module DocumentDatabase {
  import opened Wrappers
  import opened Strings
  import opened RagTypes
  import opened GraphChatbot

  // ---------------------------------------------------------------------
  // The file system, as the values the ingestion reads from it

  /** One file that `os.walk` reports: its directory and its name. */
  datatype WalkEntry = WalkEntry(root: string, name: string)

  /** What ingestion sees of the disk and the services it calls:
      `persisted` is the store found in the persistence directory, if that
      directory exists; `walk` the files under the data folder in walk order;
      `subdirectories` the names of the data folder's sub-folders in scan
      order; `load` the text loader, `split` the text splitter, `index` the
      building of a store from chunks, `emptyStore` a new empty store. */
  datatype Disk = Disk(
    persisted: Option<VectorStore>,
    walk: seq<WalkEntry>,
    subdirectories: seq<string>,
    load: string -> seq<Chunk>,
    split: seq<Chunk> -> seq<Chunk>,
    index: seq<Chunk> -> VectorStore,
    emptyStore: VectorStore)
  {
    /** Directory entry names are non-empty and hold no '/'. */
    predicate Valid()
    {
      forall i :: 0 <= i < |subdirectories| ==> subdirectories[i] != [] && '/' !in subdirectories[i]
    }
  }

  /** `os.path.join(root, name)`. */
  function PathJoin(root: string, name: string): (p: string)
    ensures EndsWith(p, name)
  {
    if |name| > 0 && name[0] == '/' then name
    else if root == [] || root[|root| - 1] == '/' then root + name
    else root + "/" + name
  }

  // ---------------------------------------------------------------------
  // Which files are ingested

  /** `new_documents`: the joined paths of the walked files whose names end
      in ".txt", in walk order. */
  function TxtDocuments(walk: seq<WalkEntry>): seq<string>
  {
    if walk == [] then []
    else
      var last := walk[|walk| - 1];
      TxtDocuments(walk[..|walk| - 1]) + (if EndsWith(last.name, ".txt") then [PathJoin(last.root, last.name)] else [])
  }

  /** Every ingested path ends in ".txt" and comes from a walked file whose
      name ends in ".txt"; there are no more paths than walked files. */
  lemma {:induction false} TxtDocumentsSound(walk: seq<WalkEntry>)
    ensures |TxtDocuments(walk)| <= |walk|
    ensures forall p :: p in TxtDocuments(walk) ==>
      exists i :: 0 <= i < |walk| && EndsWith(walk[i].name, ".txt") && p == PathJoin(walk[i].root, walk[i].name)
  {
    if walk != [] {
      var init := walk[..|walk| - 1];
      TxtDocumentsSound(init);
      forall p | p in TxtDocuments(walk)
        ensures exists i :: 0 <= i < |walk| && EndsWith(walk[i].name, ".txt") && p == PathJoin(walk[i].root, walk[i].name)
      {
        if p in TxtDocuments(init) {
          var i :| 0 <= i < |init| && EndsWith(init[i].name, ".txt") && p == PathJoin(init[i].root, init[i].name);
          assert walk[i] == init[i];
        } else {
          assert p == PathJoin(walk[|walk| - 1].root, walk[|walk| - 1].name);
        }
      }
    }
  }

  /** Every ingested path ends in ".txt". */
  lemma TxtDocumentsAreTxt(walk: seq<WalkEntry>)
    ensures forall p :: p in TxtDocuments(walk) ==> EndsWith(p, ".txt")
  {
    TxtDocumentsSound(walk);
    forall p | p in TxtDocuments(walk) ensures EndsWith(p, ".txt") {
      var i :| 0 <= i < |walk| && EndsWith(walk[i].name, ".txt") && p == PathJoin(walk[i].root, walk[i].name);
      EndsWithTrans(p, walk[i].name, ".txt");
    }
  }

  /** Every walked file whose name ends in ".txt" is ingested. */
  lemma {:induction false} TxtDocumentsComplete(walk: seq<WalkEntry>)
    ensures forall i :: 0 <= i < |walk| && EndsWith(walk[i].name, ".txt") ==>
      PathJoin(walk[i].root, walk[i].name) in TxtDocuments(walk)
  {
    if walk != [] {
      var init := walk[..|walk| - 1];
      TxtDocumentsComplete(init);
      forall i | 0 <= i < |walk| && EndsWith(walk[i].name, ".txt")
        ensures PathJoin(walk[i].root, walk[i].name) in TxtDocuments(walk)
      {
        if i < |init| {
          assert walk[i] == init[i];
        }
      }
    }
  }

  lemma EndsWithTrans(s: string, t: string, suffix: string)
    requires EndsWith(s, t) && EndsWith(t, suffix)
    ensures EndsWith(s, suffix)
  {
    assert s[|s| - |suffix|..] == s[|s| - |t|..][|t| - |suffix|..];
  }

  // ---------------------------------------------------------------------
  // The sources already in a store

  /** `{meta["source"] for meta in metadatas if "source" in meta}`. */
  function ExistingSources(metas: seq<Metadata>): set<string>
  {
    if metas == [] then {}
    else
      var last := metas[|metas| - 1];
      ExistingSources(metas[..|metas| - 1]) + (if last.source.Some? then {last.source.value} else {})
  }

  /** A source is in the set exactly when some entry has it; entries without
      a source add nothing, and repeats collapse, so the set is no larger than
      the list. */
  lemma {:induction false} ExistingSourcesSpec(metas: seq<Metadata>)
    ensures forall s :: s in ExistingSources(metas) <==> exists i :: 0 <= i < |metas| && metas[i].source == Some(s)
    ensures |ExistingSources(metas)| <= |metas|
  {
    ExistingSourcesSize(metas);
    if metas != [] {
      var init := metas[..|metas| - 1];
      ExistingSourcesSpec(init);
      forall s | (exists i :: 0 <= i < |metas| && metas[i].source == Some(s))
        ensures s in ExistingSources(metas)
      {
        var i :| 0 <= i < |metas| && metas[i].source == Some(s);
        if i < |init| {
          assert init[i] == metas[i];
        }
      }
      forall s | s in ExistingSources(metas)
        ensures exists i :: 0 <= i < |metas| && metas[i].source == Some(s)
      {
        if s in ExistingSources(init) {
          var i :| 0 <= i < |init| && init[i].source == Some(s);
          assert metas[i] == init[i];
        } else {
          assert metas[|metas| - 1].source == Some(s);
        }
      }
    }
  }

  /** Each entry adds at most one source to the set. */
  lemma {:induction false} ExistingSourcesSize(metas: seq<Metadata>)
    ensures |ExistingSources(metas)| <= |metas|
  {
    if metas != [] {
      ExistingSourcesSize(metas[..|metas| - 1]);
    }
  }

  // ---------------------------------------------------------------------
  // Tagging each document with its subject and its path

  /** The last subject folder, in scan order, whose path occurs in the
      document's path. */
  function LastMatchingSubject(subjects: seq<string>, path: string): Option<string>
  {
    if subjects == [] then None
    else if Contains(path, subjects[|subjects| - 1]) then Some(subjects[|subjects| - 1])
    else LastMatchingSubject(subjects[..|subjects| - 1], path)
  }

  /** The chosen subject occurs in the path and no later subject does; no
      subject is chosen exactly when none occurs. */
  lemma {:induction false} LastMatchingSubjectSpec(subjects: seq<string>, path: string)
    ensures LastMatchingSubject(subjects, path).None? <==>
      forall i :: 0 <= i < |subjects| ==> !Contains(path, subjects[i])
    ensures LastMatchingSubject(subjects, path).Some? ==>
      exists i :: 0 <= i < |subjects| && subjects[i] == LastMatchingSubject(subjects, path).value
        && Contains(path, subjects[i])
        && forall j :: i < j < |subjects| ==> !Contains(path, subjects[j])
  {
    if subjects != [] {
      var init := subjects[..|subjects| - 1];
      LastMatchingSubjectSpec(init, path);
      if !Contains(path, subjects[|subjects| - 1]) {
        if LastMatchingSubject(init, path).Some? {
          var i :| 0 <= i < |init| && init[i] == LastMatchingSubject(init, path).value
            && Contains(path, init[i])
            && forall j :: i < j < |init| ==> !Contains(path, init[j]);
          assert subjects[i] == init[i];
          assert forall j :: i < j < |subjects| ==> !Contains(path, subjects[j]) by {
            forall j | i < j < |subjects| ensures !Contains(path, subjects[j]) {
              if j < |init| {
                assert subjects[j] == init[j];
              }
            }
          }
        } else {
          forall i | 0 <= i < |subjects| ensures !Contains(path, subjects[i]) {
            if i < |init| {
              assert subjects[i] == init[i];
            }
          }
        }
      }
    }
  }

  /** A loaded document after tagging: a `subject` when some subject folder
      matches (otherwise the key stays as it was), and always the `source`. */
  function Tagged(doc: Chunk, path: string, subjects: seq<string>): Chunk
  {
    var subject := match LastMatchingSubject(subjects, path)
      case Some(s) => Some(s)
      case None => doc.metadata.subject;
    Chunk(doc.pageContent, Metadata(Some(path), doc.metadata.page, subject))
  }

  /** The inner loops of `_create_chroma_db` over the documents of one file
      and over the subject folders. */
  method TagDocuments(docs: seq<Chunk>, path: string, subjects: seq<string>) returns (tagged: seq<Chunk>)
    ensures |tagged| == |docs|
    ensures forall i :: 0 <= i < |docs| ==> tagged[i] == Tagged(docs[i], path, subjects)
  {
    tagged := [];
    for d := 0 to |docs|
      invariant |tagged| == d
      invariant forall i :: 0 <= i < d ==> tagged[i] == Tagged(docs[i], path, subjects)
    {
      var meta := docs[d].metadata;
      for k := 0 to |subjects|
        invariant meta.source == docs[d].metadata.source && meta.page == docs[d].metadata.page
        invariant meta.subject == match LastMatchingSubject(subjects[..k], path)
          case Some(s) => Some(s)
          case None => docs[d].metadata.subject
      {
        assert subjects[..k + 1][..k] == subjects[..k];
        if Contains(path, subjects[k]) {
          meta := meta.(subject := Some(subjects[k]));
        }
      }
      assert subjects[..|subjects|] == subjects;
      meta := meta.(source := Some(path));
      tagged := tagged + [Chunk(docs[d].pageContent, meta)];
    }
  }

  /** The tagged documents of one file. */
  function TaggedAll(docs: seq<Chunk>, path: string, subjects: seq<string>): seq<Chunk>
  {
    seq(|docs|, i requires 0 <= i < |docs| => Tagged(docs[i], path, subjects))
  }

  /** `new_splits` after the loop: for each file in order, its documents
      loaded, tagged and split. */
  function IngestedSplits(paths: seq<string>, subjects: seq<string>,
                          load: string -> seq<Chunk>, split: seq<Chunk> -> seq<Chunk>): seq<Chunk>
  {
    if paths == [] then []
    else
      var last := paths[|paths| - 1];
      IngestedSplits(paths[..|paths| - 1], subjects, load, split) + split(TaggedAll(load(last), last, subjects))
  }

  /** The loop of `_create_chroma_db` over the files to ingest. */
  method SplitDocuments(paths: seq<string>, subjects: seq<string>,
                        load: string -> seq<Chunk>, split: seq<Chunk> -> seq<Chunk>)
    returns (newSplits: seq<Chunk>)
    ensures newSplits == IngestedSplits(paths, subjects, load, split)
  {
    newSplits := [];
    for i := 0 to |paths|
      invariant newSplits == IngestedSplits(paths[..i], subjects, load, split)
    {
      var docs := load(paths[i]);
      var tagged := TagDocuments(docs, paths[i], subjects);
      assert tagged == TaggedAll(docs, paths[i], subjects);
      assert paths[..i + 1][..i] == paths[..i];
      newSplits := newSplits + split(tagged);
    }
    assert paths[..|paths|] == paths;
  }

  // ---------------------------------------------------------------------
  // Topic names

  /** `re.search(r"[^/]+$", path).group()`: the last '/'-separated segment.
      A path ending in '/' has no match and makes `.group()` fail. */
  function TopicName(path: string): (name: string)
    requires path != [] && path[|path| - 1] != '/'
    ensures name != [] && '/' !in name
    ensures EndsWith(path, name)
    ensures |name| < |path| ==> path[|path| - |name| - 1] == '/'
  {
    BaseName(path)
  }

  /** The paths `os.scandir` gives for the sub-folders of `folder`. */
  function SubjectPaths(folder: string, names: seq<string>): (paths: seq<string>)
    ensures |paths| == |names|
  {
    seq(|names|, i requires 0 <= i < |names| => PathJoin(folder, names[i]))
  }

  function TopicNames(paths: seq<string>): (names: seq<string>)
    requires forall i :: 0 <= i < |paths| ==> paths[i] != [] && paths[i][|paths[i]| - 1] != '/'
    ensures |names| == |paths|
    ensures forall i :: 0 <= i < |paths| ==> names[i] == TopicName(paths[i])
  {
    seq(|paths|, i requires 0 <= i < |paths| && paths[i] != [] && paths[i][|paths[i]| - 1] != '/' => TopicName(paths[i]))
  }

  /** The topic of a sub-folder is the sub-folder's own name. */
  lemma TopicOfSubfolder(folder: string, name: string)
    requires name != [] && '/' !in name
    ensures PathJoin(folder, name) != [] && PathJoin(folder, name)[|PathJoin(folder, name)| - 1] != '/'
    ensures TopicName(PathJoin(folder, name)) == name
  {
    var p := PathJoin(folder, name);
    if folder == [] {
      assert p == name;
    } else {
      var q := if folder[|folder| - 1] == '/' then folder else folder + "/";
      assert p == q + name;
      LastIndexBeforeSuffix(q, name, '/');
    }
  }

  /** The last `c` of `q + tail` is the last character of `q` when `q` ends
      in `c` and `tail` holds none. */
  lemma {:induction false} LastIndexBeforeSuffix(q: string, tail: string, c: char)
    requires q != [] && q[|q| - 1] == c && c !in tail
    ensures LastIndexOf(q + tail, c) == |q| - 1
    decreases |tail|
  {
    if tail == [] {
      assert q + tail == q;
    } else {
      var s := q + tail;
      assert s[..|s| - 1] == q + tail[..|tail| - 1];
      LastIndexBeforeSuffix(q, tail[..|tail| - 1], c);
    }
  }

  predicate NoDuplicates(xs: seq<string>)
  {
    forall i, j :: 0 <= i < j < |xs| ==> xs[i] != xs[j]
  }

  /** `list(s)` for a set: its members once each, in some order. */
  method ListOf(s: set<string>) returns (xs: seq<string>)
    ensures forall t :: t in xs <==> t in s
    ensures NoDuplicates(xs)
    ensures |xs| == |s|
  {
    xs := [];
    var rest := s;
    while rest != {}
      invariant rest <= s
      invariant forall t :: t in xs <==> t in s && t !in rest
      invariant NoDuplicates(xs)
      invariant |xs| + |rest| == |s|
      decreases |rest|
    {
      var t :| t in rest;
      xs := xs + [t];
      rest := rest - {t};
    }
  }

  /** What `_save_topics_json` leaves in topics.json: every stored topic and
      every new one, each once. */
  ghost predicate TopicsSaved(before: Option<seq<string>>, added: seq<string>, after: Option<seq<string>>)
  {
    && after.Some?
    && NoDuplicates(after.value)
    && forall t :: t in after.value <==> (before.Some? && t in before.value) || t in added
  }

  // ---------------------------------------------------------------------
  // The store the database ends up with

  /** The store `_create_chroma_db` leaves: the persisted one when it exists,
      else an empty one when there is nothing to ingest, else one built from
      the ingested splits. */
  function CreatedStore(disk: Disk, filePath: string): VectorStore
  {
    if disk.persisted.Some? then disk.persisted.value
    else
      var paths := TxtDocuments(disk.walk);
      if paths == [] then disk.emptyStore
      else disk.index(IngestedSplits(paths, SubjectPaths(filePath, disk.subdirectories), disk.load, disk.split))
  }

  /** Whether `_create_chroma_db` gets as far as ingesting (and so saving
      the topics). */
  predicate Ingests(disk: Disk)
  {
    disk.persisted.None? && TxtDocuments(disk.walk) != []
  }

  /** The response of `run_rag`: exactly the four keys, the query echoed,
      the answer as "rag_text", the stream and the sources. */
  function RagResponse(store: VectorStore, template: PromptTemplate, k: int, query: string,
                       messages: seq<Message>, llm: LanguageModel): Responses
  {
    var chunks := store.search(query, k);
    var request := RequestFor(template, query, messages, chunks);
    Responses(Some(query), Some(Some(AnswerStream(request))), Some(llm.complete(request)), Some(Citations(chunks)))
  }

  /** The response has all four keys; its sources are one citation per
      retrieved chunk; its text and its stream come from one request whose
      question is the query and whose context is the history block followed by
      the chunks (the chunks alone when there is no history). */
  lemma RagResponseShape(store: VectorStore, template: PromptTemplate, k: int, query: string,
                         messages: seq<Message>, llm: LanguageModel)
    ensures var r := RagResponse(store, template, k, query, messages, llm);
      var chunks := store.search(query, k);
      && r.query == Some(query) && r.ragStream.Some? && r.ragStream.value.Some?
      && r.ragText.Some? && r.sources.Some?
      && |r.sources.value| == |chunks|
      && (forall i :: 0 <= i < |chunks| ==> r.sources.value[i] == Citation(chunks[i]))
      && r.ragText.value == llm.complete(r.ragStream.value.value.request)
      && r.ragStream.value.value.request.question == query
      && r.ragStream.value.value.request.template == template
      && (messages == [] ==> r.ragStream.value.value.request.context == FormatDocs(chunks))
  {
  }

  // ---------------------------------------------------------------------
  // The database object

  /** `DocumentDatabase`. `vectorstore` is `None` until `_initialize` sets it;
      `topicsFile` is the content of topics.json, if the file exists. */
  class DocumentDatabase {
    var filePath: string
    var promptTemplate: Option<PromptTemplate>
    var retrieverK: int
    var filterList: Option<seq<string>>
    var vectorstore: Option<VectorStore>
    var graphBuilt: bool
    var topicsFile: Option<seq<string>>

    /** `_initialize`: copy the configuration; reuse a given store as it is,
        or else create one; then attach the graph. */
    constructor (chromaDb: Option<VectorStore>, filePath: string, promptTemplate: Option<PromptTemplate>,
                 retrieverK: int, filterList: Option<seq<string>>, topicsFile: Option<seq<string>>, disk: Disk)
      requires disk.Valid()
      ensures this.filePath == filePath && this.promptTemplate == promptTemplate
      ensures this.retrieverK == retrieverK && this.filterList == filterList
      ensures chromaDb.Some? ==> vectorstore == chromaDb && this.topicsFile == topicsFile
      ensures chromaDb.None? ==> vectorstore == Some(CreatedStore(disk, filePath))
      ensures chromaDb.None? && Ingests(disk) ==>
        TopicsSaved(topicsFile, TopicNames(SubjectPaths(filePath, disk.subdirectories)), this.topicsFile)
      ensures chromaDb.None? && !Ingests(disk) ==> this.topicsFile == topicsFile
      ensures graphBuilt
    {
      this.filePath := filePath;
      this.promptTemplate := promptTemplate;
      this.retrieverK := retrieverK;
      this.filterList := filterList;
      this.topicsFile := topicsFile;
      vectorstore := None;
      graphBuilt := false;
      new;
      if chromaDb.Some? {
        vectorstore := chromaDb;
      } else {
        CreateChromaDb(disk);
      }
      BuildGraph();
    }

    /** `_build_graph`. */
    method BuildGraph()
      modifies this`graphBuilt
      ensures graphBuilt
    {
      graphBuilt := true;
    }

    /** `_create_chroma_db`. */
    method CreateChromaDb(disk: Disk)
      requires disk.Valid()
      modifies this`vectorstore, this`topicsFile
      ensures vectorstore == Some(CreatedStore(disk, filePath))
      ensures Ingests(disk) ==>
        TopicsSaved(old(topicsFile), TopicNames(SubjectPaths(filePath, disk.subdirectories)), topicsFile)
      ensures !Ingests(disk) ==> topicsFile == old(topicsFile)
    {
      if disk.persisted.Some? {
        vectorstore := disk.persisted;
        return;
      }
      vectorstore := Some(disk.emptyStore);
      var newDocuments := TxtDocuments(disk.walk);
      if newDocuments == [] {
        return;
      }
      var subjects := SubjectPaths(filePath, disk.subdirectories);
      var newSplits := SplitDocuments(newDocuments, subjects, disk.load, disk.split);
      vectorstore := Some(disk.index(newSplits));
      SaveTopicsJson(disk);
    }

    /** `_save_topics_json`. */
    method SaveTopicsJson(disk: Disk)
      requires disk.Valid()
      modifies this`topicsFile
      ensures TopicsSaved(old(topicsFile), TopicNames(SubjectPaths(filePath, disk.subdirectories)), topicsFile)
    {
      var topics := SubjectPaths(filePath, disk.subdirectories);
      forall i | 0 <= i < |topics|
        ensures topics[i] != [] && topics[i][|topics[i]| - 1] != '/'
      {
        TopicOfSubfolder(filePath, disk.subdirectories[i]);
      }
      var topicsClean := TopicNames(topics);
      var existing := if topicsFile.Some? then topicsFile.value else [];
      var updated := ListOf((set t | t in existing) + (set t | t in topicsClean));
      topicsFile := Some(updated);
    }

    /** `run_rag`: a fresh state from this database's configuration, the
        query and the history; the pipeline run on it; four keys of the
        result returned. */
    method RunRag(query: string, messages: seq<Message>, llm: LanguageModel) returns (response: Responses)
      requires vectorstore.Some? && promptTemplate.Some? && graphBuilt
      ensures response == RagResponse(vectorstore.value, promptTemplate.value, retrieverK, query, messages, llm)
    {
      var state := new RagState(query, promptTemplate, retrieverK, filterList, vectorstore.value, messages);
      state.RunPipeline(llm);
      response := Responses(Some(state.query), Some(state.ragStream), Some(state.answer), Some(state.sources));
    }
  }
}
