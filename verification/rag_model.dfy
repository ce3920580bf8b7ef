/** The retrieve-then-generate pipeline: the state record threaded through the
    two stages, the metadata projection, context assembly, the two stages as
    step sequences on the tracker, and the orchestrator with its error contract.
    The similarity search and the chat model (with its prompt template) are
    parameters: what each yields on this call. */
module RagModel {
  import opened Wrappers
  import opened Text
  import opened Tracking
  import Memo

  const ChatModelName: string := "mistral-large-latest"
  const ChatModelProvider: string := "mistralai"
  const PromptRef: string := "rlm/rag-prompt"
  const EmbeddingModelName: string := "sentence-transformers/all-MiniLM-L6-v2"

  // ---------------------------------------------------------------------------
  // Cached resources
  // ---------------------------------------------------------------------------

  /** The identity of an object a library constructor returned. */
  datatype Handle = Handle(id: nat)

  /** The three `lru_cache`d getters: the chat model, the prompt template and
      the embedding model, each with its own cache. */
  class Resources {
    const llm: Memo.Cache<Handle>
    const prompt: Memo.Cache<Handle>
    const embeddings: Memo.Cache<Handle>

    ghost predicate Valid()
      reads this, llm, prompt, embeddings
    {
      && llm != prompt && llm != embeddings && prompt != embeddings
      && llm.Valid() && prompt.Valid() && embeddings.Valid()
    }

    constructor ()
      ensures Valid()
      ensures llm.State() == prompt.State() == embeddings.State() == Memo.Slot(None, 0, 0)
      ensures fresh(llm) && fresh(prompt) && fresh(embeddings)
    {
      llm := new Memo.Cache();
      prompt := new Memo.Cache();
      embeddings := new Memo.Cache();
    }

    /** `get_llm()`: `initChatModel(name, provider)` runs only while nothing is cached. */
    method GetLlm(initChatModel: (string, string) -> Outcome<Handle>) returns (r: Outcome<Handle>)
      requires Valid()
      modifies llm
      ensures Valid()
      ensures old(llm.cached).Some? ==> r == Ok(old(llm.cached).value) && llm.State() == old(llm.State())
      ensures Memo.Lookup(r, llm.State()) == Memo.Call(old(llm.State()), initChatModel(ChatModelName, ChatModelProvider))
    {
      r := llm.Get(() => initChatModel(ChatModelName, ChatModelProvider));
    }

    /** `get_prompt()`: `pull(ref)` from the prompt hub runs only while nothing is cached. */
    method GetPrompt(pull: string -> Outcome<Handle>) returns (r: Outcome<Handle>)
      requires Valid()
      modifies prompt
      ensures Valid()
      ensures old(prompt.cached).Some? ==> r == Ok(old(prompt.cached).value) && prompt.State() == old(prompt.State())
      ensures Memo.Lookup(r, prompt.State()) == Memo.Call(old(prompt.State()), pull(PromptRef))
    {
      r := prompt.Get(() => pull(PromptRef));
    }

    /** `load_embeddings()`: `load(modelName)` runs only while nothing is cached. */
    method LoadEmbeddings(load: string -> Outcome<Handle>) returns (r: Outcome<Handle>)
      requires Valid()
      modifies embeddings
      ensures Valid()
      ensures old(embeddings.cached).Some? ==> r == Ok(old(embeddings.cached).value) && embeddings.State() == old(embeddings.State())
      ensures Memo.Lookup(r, embeddings.State()) == Memo.Call(old(embeddings.State()), load(EmbeddingModelName))
    {
      r := embeddings.Get(() => load(EmbeddingModelName));
    }
  }

  // ---------------------------------------------------------------------------
  // Documents and the pipeline state
  // ---------------------------------------------------------------------------

  /** One similarity-search hit. */
  datatype Doc = Doc(pageContent: string, metadata: map<string, Value>)

  /** The record the two stages read and update. A key the graph has not
      written yet is `None`. */
  datatype State = State(question: string, context: Option<seq<Doc>>, answer: Option<string>)

  /** The partial record a stage returns. */
  datatype Update = ContextUpdate(docs: seq<Doc>) | AnswerUpdate(text: string)

  /** The state the graph is invoked with: only the question is set. */
  function Initial(query: string): State
  {
    State(query, None, None)
  }

  /** The graph writes a stage's partial record into the state. */
  function Merge(s: State, u: Update): (r: State)
    ensures r.question == s.question
    ensures u.ContextUpdate? ==> r.context == Some(u.docs) && r.answer == s.answer
    ensures u.AnswerUpdate? ==> r.answer == Some(u.text) && r.context == s.context
  {
    match u
    case ContextUpdate(docs) => s.(context := Some(docs))
    case AnswerUpdate(text) => s.(answer := Some(text))
  }

  // ---------------------------------------------------------------------------
  // Metadata projection
  // ---------------------------------------------------------------------------

  /** `m.get(key, default)`. */
  function GetOr(m: map<string, Value>, key: string, default: Value): Value
  {
    if key in m then m[key] else default
  }

  function MetadataEntry(d: Doc, position: int): map<string, Value>
  {
    map["doc_id" := GetOr(d.metadata, "id", IntVal(position)),
        "source" := GetOr(d.metadata, "source", StrVal("unknown"))]
  }

  /** The projection of `docs` whose first document has position `start`. */
  function ProjectFrom(docs: seq<Doc>, start: nat): (r: seq<map<string, Value>>)
    ensures |r| == |docs|
    ensures forall k :: 0 <= k < |docs| ==>
              && r[k].Keys == {"doc_id", "source"}
              && r[k]["doc_id"] == (if "id" in docs[k].metadata then docs[k].metadata["id"] else IntVal(start + k))
              && r[k]["source"] == (if "source" in docs[k].metadata then docs[k].metadata["source"] else StrVal("unknown"))
    decreases |docs|
  {
    if docs == [] then []
    else [MetadataEntry(docs[0], start)] + ProjectFrom(docs[1..], start + 1)
  }

  /** What is logged about the retrieved documents: one record per document, in
      order, holding only `doc_id` (the metadata's `id`, else the position) and
      `source` (the metadata's `source`, else "unknown"). */
  function Projection(docs: seq<Doc>): (r: seq<map<string, Value>>)
    ensures |r| == |docs|
    ensures forall k :: 0 <= k < |docs| ==>
              && r[k].Keys == {"doc_id", "source"}
              && r[k]["doc_id"] == (if "id" in docs[k].metadata then docs[k].metadata["id"] else IntVal(k))
              && r[k]["source"] == (if "source" in docs[k].metadata then docs[k].metadata["source"] else StrVal("unknown"))
  {
    ProjectFrom(docs, 0)
  }

  /** No passage text reaches the log: documents that differ only in their
      content project to the same records. */
  lemma ProjectionIgnoresContent(a: seq<Doc>, b: seq<Doc>)
    requires |a| == |b|
    requires forall k :: 0 <= k < |a| ==> a[k].metadata == b[k].metadata
    ensures Projection(a) == Projection(b)
  {
    var pa, pb := Projection(a), Projection(b);
    forall k | 0 <= k < |a|
      ensures pa[k] == pb[k]
    {
      assert pa[k].Keys == pb[k].Keys;
    }
  }

  // ---------------------------------------------------------------------------
  // Context assembly
  // ---------------------------------------------------------------------------

  /** The passages' texts, in retrieval order. */
  function PageContents(docs: seq<Doc>): (r: seq<string>)
    ensures |r| == |docs|
    ensures forall k :: 0 <= k < |docs| ==> r[k] == docs[k].pageContent
  {
    seq(|docs|, k requires 0 <= k < |docs| => docs[k].pageContent)
  }

  /** `"\n\n".join(doc.page_content for doc in context)`. */
  function AssembleContext(docs: seq<Doc>): (r: string)
    ensures docs == [] ==> r == ""
    ensures docs != [] ==> |docs[0].pageContent| <= |r| && r[..|docs[0].pageContent|] == docs[0].pageContent
  {
    Join(PageContents(docs), ParagraphBreak)
  }

  /** Passage `k` sits in the context at its offset. */
  lemma ContextPassageAt(docs: seq<Doc>, k: nat)
    requires k < |docs|
    ensures var o := Offset(PageContents(docs), ParagraphBreak, k);
            && o + |docs[k].pageContent| <= |AssembleContext(docs)|
            && AssembleContext(docs)[o..o + |docs[k].pageContent|] == docs[k].pageContent
  {
    JoinPartAt(PageContents(docs), ParagraphBreak, k);
  }

  /** A paragraph break follows passage `k` unless it is the last. */
  lemma ContextBreakAfter(docs: seq<Doc>, k: nat)
    requires k + 1 < |docs|
    ensures var o := Offset(PageContents(docs), ParagraphBreak, k) + |docs[k].pageContent|;
            && o + 2 <= |AssembleContext(docs)|
            && AssembleContext(docs)[o..o + 2] == ParagraphBreak
  {
    JoinSeparatorAfter(PageContents(docs), ParagraphBreak, k);
  }

  /** The context string holds every passage in retrieval order with one
      paragraph break between neighbours; no passages give the empty string. */
  lemma ContextAssembly(docs: seq<Doc>)
    ensures docs == [] ==> AssembleContext(docs) == ""
    ensures docs != [] ==>
              |AssembleContext(docs)| == SumLengths(PageContents(docs)) + 2 * (|docs| - 1)
    ensures forall k :: 0 <= k < |docs| ==>
              var o := Offset(PageContents(docs), ParagraphBreak, k);
              && o + |docs[k].pageContent| <= |AssembleContext(docs)|
              && AssembleContext(docs)[o..o + |docs[k].pageContent|] == docs[k].pageContent
    ensures forall k :: 0 <= k < |docs| - 1 ==>
              var o := Offset(PageContents(docs), ParagraphBreak, k) + |docs[k].pageContent|;
              && o + 2 <= |AssembleContext(docs)|
              && AssembleContext(docs)[o..o + 2] == ParagraphBreak
  {
    JoinLength(PageContents(docs), ParagraphBreak);
    forall k | 0 <= k < |docs| {
      ContextPassageAt(docs, k);
    }
    forall k | 0 <= k < |docs| - 1 {
      ContextBreakAfter(docs, k);
    }
  }

  /** The context's whitespace word count is the passages' word counts added
      up: the paragraph break never glues two words together nor adds one. */
  lemma ContextWordCount(docs: seq<Doc>)
    ensures WordCount(AssembleContext(docs)) == SumWordCounts(PageContents(docs))
  {
    ParagraphBreakIsSpace();
    WordCountOfJoin(PageContents(docs), ParagraphBreak);
  }

  // ---------------------------------------------------------------------------
  // The two stages, as functions of their inputs
  // ---------------------------------------------------------------------------

  /** What a stage returns to the graph and what it logs. */
  datatype StageRun = StageRun(outcome: Outcome<Update>, trace: seq<Event>)

  /** The variables the prompt template is rendered with. */
  datatype PromptInput = PromptInput(question: string, context: string)

  /** A stage's log: its nested run, the records logged inside it, the end of
      the run. */
  function StageTrace(name: string, body: seq<Event>): seq<Event>
  {
    [Started(name, true)] + body + [Ended]
  }

  /** What retrieval logs about the documents found: the search time, their
      number and their metadata projection. */
  function RetrievalRecords(docs: seq<Doc>): seq<Event>
  {
    [Metric("retrieval_time"),
     Param("retrieved_docs_count", IntVal(|docs|)),
     Dict("retrieved_docs.json", Projection(docs))]
  }

  /** What generation logs about the context: its whitespace word count and its
      length in characters. */
  function ContextRecords(contextText: string): seq<Event>
  {
    [Param("retrieved_tokens", IntVal(WordCount(contextText))),
     Param("context_length", IntVal(|contextText|))]
  }

  /** What generation logs about the reply: the generation time, the reply's
      whitespace word count and the fixed model name. */
  function ReplyRecords(content: string): seq<Event>
  {
    [Metric("generation_time"),
     Param("response_length", IntVal(WordCount(content))),
     Param("model_name", StrVal(ChatModelName))]
  }

  /** `retrieve(state)`: `search` is the vector store's similarity search. */
  function RetrieveRun(s: State, search: string -> Outcome<seq<Doc>>): (r: StageRun)
    ensures r.outcome.Ok? <==> search(s.question).Ok?
    ensures r.outcome.Ok? ==> r.outcome.value == ContextUpdate(search(s.question).value)
    ensures r.outcome.Fail? ==> r.outcome.msg == search(s.question).msg
    ensures |r.trace| >= 2 && r.trace[0] == Started("retrieval", true) && r.trace[|r.trace| - 1] == Ended
  {
    match search(s.question)
    case Fail(e) => StageRun(Fail(e), StageTrace("retrieval", []))
    case Ok(docs) => StageRun(Ok(ContextUpdate(docs)), StageTrace("retrieval", RetrievalRecords(docs)))
  }

  /** `generate(state)`: `answerFor` renders the prompt template with the given
      variables and sends it to the chat model, yielding the reply's content. */
  function GenerateRun(s: State, answerFor: PromptInput -> Outcome<string>): (r: StageRun)
    ensures s.context.None? ==> r.outcome == Fail("'context'")
    ensures s.context.Some? ==>
              var reply := answerFor(PromptInput(s.question, AssembleContext(s.context.value)));
              && (r.outcome.Ok? <==> reply.Ok?)
              && (reply.Ok? ==> r.outcome.value == AnswerUpdate(reply.value))
              && (reply.Fail? ==> r.outcome.msg == reply.msg)
    ensures |r.trace| >= 2 && r.trace[0] == Started("generation", true) && r.trace[|r.trace| - 1] == Ended
  {
    match s.context
    case None =>
      // reading the missing key raises KeyError('context') inside the run
      StageRun(Fail("'context'"), StageTrace("generation", []))
    case Some(docs) =>
      var contextText := AssembleContext(docs);
      match answerFor(PromptInput(s.question, contextText))
      case Fail(e) =>
        StageRun(Fail(e), StageTrace("generation", ContextRecords(contextText)))
      case Ok(content) =>
        StageRun(Ok(AnswerUpdate(content)),
                 StageTrace("generation", ContextRecords(contextText) + ReplyRecords(content)))
  }

  /** Every run a stage opens it also closes, whatever the backends do. */
  lemma StageRunsClosed(open: seq<string>, s: State, search: string -> Outcome<seq<Doc>>,
                        answerFor: PromptInput -> Outcome<string>)
    ensures Replay(open, RetrieveRun(s, search).trace) == open
    ensures Replay(open, GenerateRun(s, answerFor).trace) == open
  {
    var inner := open + ["retrieval"];
    match search(s.question) {
      case Fail(_) =>
        ReplayRecords(inner, []);
        ReplayScoped(open, "retrieval", true, []);
      case Ok(docs) =>
        ReplayRecords(inner, RetrievalRecords(docs));
        ReplayScoped(open, "retrieval", true, RetrievalRecords(docs));
    }
    inner := open + ["generation"];
    match s.context {
      case None =>
        ReplayRecords(inner, []);
        ReplayScoped(open, "generation", true, []);
      case Some(docs) =>
        var contextText := AssembleContext(docs);
        var body := ContextRecords(contextText);
        if answerFor(PromptInput(s.question, contextText)).Ok? {
          body := body + ReplyRecords(answerFor(PromptInput(s.question, contextText)).value);
        }
        assert GenerateRun(s, answerFor).trace == StageTrace("generation", body);
        ReplayRecords(inner, body);
        ReplayScoped(open, "generation", true, body);
    }
  }

  /** Retrieval sets `context` to exactly what the search returned, in its
      order, leaves the question alone, and logs the number of documents and
      their projection; a failed search sets nothing and logs nothing else. */
  lemma RetrieveContract(s: State, search: string -> Outcome<seq<Doc>>)
    ensures var r := RetrieveRun(s, search);
      match search(s.question)
      case Ok(docs) =>
        && r.outcome.Ok?
        && Merge(s, r.outcome.value) == s.(context := Some(docs))
        && Param("retrieved_docs_count", IntVal(|docs|)) in r.trace
        && Dict("retrieved_docs.json", Projection(docs)) in r.trace
      case Fail(e) =>
        r.outcome == Fail(e) && r.trace == [Started("retrieval", true), Ended]
  {
  }

  /** Generation renders the template with the unchanged question and the
      assembled context, sets `answer` to the reply's content unmodified, and
      logs the context's word count (the passages' counts added up), its
      length, the reply's word count and the fixed model name. A failed call
      sets nothing. */
  lemma GenerateContract(s: State, docs: seq<Doc>, answerFor: PromptInput -> Outcome<string>)
    requires s.context == Some(docs)
    ensures var r := GenerateRun(s, answerFor);
      var input := PromptInput(s.question, AssembleContext(docs));
      && Param("retrieved_tokens", IntVal(SumWordCounts(PageContents(docs)))) in r.trace
      && Param("context_length", IntVal(|AssembleContext(docs)|)) in r.trace
      && match answerFor(input)
         case Ok(content) =>
           && r.outcome.Ok?
           && Merge(s, r.outcome.value) == s.(answer := Some(content))
           && Param("response_length", IntVal(WordCount(content))) in r.trace
           && Param("model_name", StrVal("mistral-large-latest")) in r.trace
         case Fail(e) =>
           && r.outcome == Fail(e)
           && (forall k :: 0 <= k < |r.trace| ==> r.trace[k] != Metric("generation_time"))
  {
    ContextWordCount(docs);
    var r := GenerateRun(s, answerFor);
    assert r.trace[1] == Param("retrieved_tokens", IntVal(WordCount(AssembleContext(docs))));
    assert r.trace[2] == Param("context_length", IntVal(|AssembleContext(docs)|));
  }

  /** Reading `context` before retrieval has written it fails with KeyError. */
  lemma GenerateNeedsContext(s: State, answerFor: PromptInput -> Outcome<string>)
    requires s.context.None?
    ensures GenerateRun(s, answerFor).outcome == Fail("'context'")
    ensures GenerateRun(s, answerFor).trace == [Started("generation", true), Ended]
  {
  }

  // ---------------------------------------------------------------------------
  // The two stages, as steps on the tracker
  // ---------------------------------------------------------------------------

  /** A stage's log assembled from the start of its run, the records logged
      inside it and the end of the run. */
  lemma StageTraceOfParts(name: string, body: seq<Event>, e0: seq<Event>, e1: seq<Event>,
                          e2: seq<Event>, e3: seq<Event>)
    requires e1 == e0 + [Started(name, true)]
    requires e2 == e1 + body
    requires e3 == e2 + [Ended]
    ensures e3 == e0 + StageTrace(name, body)
  {
  }

  /** The records retrieval logs after a successful search. */
  method LogRetrieval(t: Tracker, docs: seq<Doc>)
    requires t.Valid()
    modifies t
    ensures t.Valid() && t.open == old(t.open)
    ensures t.events == old(t.events) + RetrievalRecords(docs)
  {
    var docMetadata := Projection(docs);
    t.LogMetric("retrieval_time");
    t.LogParam("retrieved_docs_count", IntVal(|docs|));
    t.LogDict(docMetadata, "retrieved_docs.json");
  }

  /** `retrieve(state)` against the tracker. */
  method Retrieve(t: Tracker, s: State, search: string -> Outcome<seq<Doc>>) returns (out: Outcome<Update>)
    requires t.Valid()
    modifies t
    ensures t.Valid() && t.open == old(t.open)
    ensures t.events == old(t.events) + RetrieveRun(s, search).trace
    ensures out == RetrieveRun(s, search).outcome
  {
    ghost var before := t.events;
    t.StartRun("retrieval", true);
    ghost var entered := t.events;
    var retrievedDocs := search(s.question);
    ghost var body: seq<Event> := [];
    match retrievedDocs {
      case Fail(e) =>
        out := Fail(e);
      case Ok(docs) =>
        LogRetrieval(t, docs);
        body := RetrievalRecords(docs);
        out := Ok(ContextUpdate(docs));
    }
    ghost var logged := t.events;
    t.EndRun();
    StageTraceOfParts("retrieval", body, before, entered, logged, t.events);
  }

  /** The records generation logs once the context is assembled. */
  method LogContext(t: Tracker, contextText: string)
    requires t.Valid()
    modifies t
    ensures t.Valid() && t.open == old(t.open)
    ensures t.events == old(t.events) + ContextRecords(contextText)
  {
    var tokenCount := WordCount(contextText);
    t.LogParam("retrieved_tokens", IntVal(tokenCount));
    t.LogParam("context_length", IntVal(|contextText|));
  }

  /** The records generation logs once the chat model has replied. */
  method LogReply(t: Tracker, content: string)
    requires t.Valid()
    modifies t
    ensures t.Valid() && t.open == old(t.open)
    ensures t.events == old(t.events) + ReplyRecords(content)
  {
    t.LogMetric("generation_time");
    t.LogParam("response_length", IntVal(WordCount(content)));
    t.LogParam("model_name", StrVal(ChatModelName));
  }

  /** `generate(state)` against the tracker. */
  method Generate(t: Tracker, s: State, answerFor: PromptInput -> Outcome<string>) returns (out: Outcome<Update>)
    requires t.Valid()
    modifies t
    ensures t.Valid() && t.open == old(t.open)
    ensures t.events == old(t.events) + GenerateRun(s, answerFor).trace
    ensures out == GenerateRun(s, answerFor).outcome
  {
    ghost var before := t.events;
    t.StartRun("generation", true);
    ghost var entered := t.events;
    ghost var body: seq<Event> := [];
    match s.context {
      case None =>
        out := Fail("'context'");
      case Some(docs) =>
        var docsContent := AssembleContext(docs);
        LogContext(t, docsContent);
        body := ContextRecords(docsContent);
        var response := answerFor(PromptInput(s.question, docsContent));
        match response {
          case Fail(e) =>
            out := Fail(e);
          case Ok(content) =>
            LogReply(t, content);
            body := body + ReplyRecords(content);
            out := Ok(AnswerUpdate(content));
        }
    }
    ghost var logged := t.events;
    t.EndRun();
    StageTraceOfParts("generation", body, before, entered, logged, t.events);
  }

  // ---------------------------------------------------------------------------
  // The orchestrator
  // ---------------------------------------------------------------------------

  /** The exception raised to the caller, wrapping the failed stage's cause. */
  datatype PipelineError = PipelineError(cause: string)

  datatype PipelineResult = Returned(answer: string) | Raised(error: PipelineError)

  datatype PipelineRun = PipelineRun(result: PipelineResult, trace: seq<Event>)

  /** What is logged before the graph runs. */
  function Prologue(query: string): seq<Event>
  {
    [Started("RAG_Pipeline", false), Param("query", StrVal(query))]
  }

  /** What `graph.invoke` yields (the answer read from the final state, or the
      cause of the stage failure) and what the two stages log. */
  datatype GraphRun = GraphRun(outcome: Outcome<string>, trace: seq<Event>)

  /** The compiled two-node graph: retrieval, then generation on the merged
      state, then `response["answer"]`. */
  function InvokeGraph(query: string, search: string -> Outcome<seq<Doc>>,
                       answerFor: PromptInput -> Outcome<string>): (g: GraphRun)
    ensures search(query).Fail? ==> g.outcome == Fail(search(query).msg)
    ensures search(query).Ok? ==>
              var reply := answerFor(PromptInput(query, AssembleContext(search(query).value)));
              g.outcome == reply
  {
    var s0 := Initial(query);
    var retrieved := RetrieveRun(s0, search);
    match retrieved.outcome
    case Fail(e) => GraphRun(Fail(e), retrieved.trace)
    case Ok(u1) =>
      var s1 := Merge(s0, u1);
      var generated := GenerateRun(s1, answerFor);
      match generated.outcome
      case Fail(e) => GraphRun(Fail(e), retrieved.trace + generated.trace)
      case Ok(u2) => GraphRun(Ok(Merge(s1, u2).answer.value), retrieved.trace + generated.trace)
  }

  /** What is logged after the graph has run: the final answer if there is
      one, then the end of the run, on either path. */
  function Epilogue(outcome: Outcome<string>): seq<Event>
  {
    match outcome
    case Ok(answer) => [Param("final_answer", StrVal(answer)), Ended]
    case Fail(_) => [Ended]
  }

  /** What the `with mlflow.start_run(run_name="RAG_Pipeline")` block logs:
      the query, the graph's stages, then the epilogue. */
  function PipelineRunBlock(query: string, graph: GraphRun): seq<Event>
  {
    Prologue(query) + graph.trace + Epilogue(graph.outcome)
  }

  /** What `generateResponse` makes of the graph's outcome. On success the
      answer is returned; on failure the `with` block has already closed the
      pipeline run when the handler logs the error, and the cause is raised
      wrapped. */
  function Finish(query: string, graph: GraphRun): (r: PipelineRun)
    ensures r.result.Returned? <==> graph.outcome.Ok?
    ensures |r.trace| >= 3 && r.trace[..2] == Prologue(query)
    ensures graph.outcome.Ok? ==>
              && r.result.answer == graph.outcome.value
              && r.trace[|r.trace| - 2] == Param("final_answer", StrVal(graph.outcome.value))
    ensures graph.outcome.Fail? ==>
              && r.result.error.cause == graph.outcome.msg
              && r.trace[|r.trace| - 1] == Param("error", StrVal(graph.outcome.msg))
  {
    match graph.outcome
    case Ok(answer) => PipelineRun(Returned(answer), PipelineRunBlock(query, graph))
    case Fail(e) => PipelineRun(Raised(PipelineError(e)), PipelineRunBlock(query, graph) + [Param("error", StrVal(e))])
  }

  /** `generateResponse(query)`. */
  function Pipeline(query: string, search: string -> Outcome<seq<Doc>>,
                    answerFor: PromptInput -> Outcome<string>): (r: PipelineRun)
    ensures |r.trace| >= 3 && r.trace[1] == Param("query", StrVal(query))
    ensures r.result.Returned? ==> r.trace[|r.trace| - 2] == Param("final_answer", StrVal(r.result.answer))
    ensures r.result.Raised? ==> r.trace[|r.trace| - 1] == Param("error", StrVal(r.result.error.cause))
  {
    Finish(query, InvokeGraph(query, search, answerFor))
  }

  /** Logs appended one after the other. */
  lemma AppendAssociates(a: seq<Event>, b: seq<Event>, c: seq<Event>)
    ensures a + b + c == a + (b + c)
  {
  }

  /** `graph.invoke({"question": query})["answer"]` against the tracker. */
  method RunGraph(t: Tracker, query: string, search: string -> Outcome<seq<Doc>>,
                  answerFor: PromptInput -> Outcome<string>) returns (out: Outcome<string>)
    requires t.Valid()
    modifies t
    ensures t.Valid() && t.open == old(t.open)
    ensures t.events == old(t.events) + InvokeGraph(query, search, answerFor).trace
    ensures out == InvokeGraph(query, search, answerFor).outcome
  {
    ghost var before := t.events;
    var state := Initial(query);
    ghost var r := RetrieveRun(state, search);
    var retrieved := Retrieve(t, state, search);
    match retrieved {
      case Fail(e) =>
        out := Fail(e);
        assert InvokeGraph(query, search, answerFor) == GraphRun(Fail(e), r.trace);
      case Ok(u1) =>
        state := Merge(state, u1);
        ghost var g := GenerateRun(state, answerFor);
        var generated := Generate(t, state, answerFor);
        AppendAssociates(before, r.trace, g.trace);
        match generated {
          case Fail(e) =>
            out := Fail(e);
            assert InvokeGraph(query, search, answerFor) == GraphRun(Fail(e), r.trace + g.trace);
          case Ok(u2) =>
            state := Merge(state, u2);
            out := Ok(state.answer.value);
            assert InvokeGraph(query, search, answerFor) == GraphRun(out, r.trace + g.trace);
        }
    }
  }

  /** The `with` block's log assembled from what is logged on entry, by the
      graph, and on exit. */
  lemma PipelineRunBlockOfParts(query: string, graph: GraphRun, e0: seq<Event>, e1: seq<Event>,
                                e2: seq<Event>, e3: seq<Event>)
    requires e1 == e0 + Prologue(query)
    requires e2 == e1 + graph.trace
    requires e3 == e2 + Epilogue(graph.outcome)
    ensures e3 == e0 + PipelineRunBlock(query, graph)
  {
  }

  /** Entering the `with` block: the top-level run is started and the query
      logged. */
  method OpenPipeline(t: Tracker, query: string)
    requires t.Valid()
    modifies t
    ensures t.Valid() && t.open == old(t.open) + ["RAG_Pipeline"]
    ensures t.events == old(t.events) + Prologue(query)
  {
    t.StartRun("RAG_Pipeline", false);
    t.LogParam("query", StrVal(query));
  }

  /** Leaving the `with` block: the final answer is logged when the graph
      produced one, and the top-level run is ended on either path. */
  method ClosePipeline(t: Tracker, outcome: Outcome<string>)
    requires t.Valid() && t.open != []
    modifies t
    ensures t.Valid() && t.open == old(t.open)[..|old(t.open)| - 1]
    ensures t.events == old(t.events) + Epilogue(outcome)
  {
    match outcome {
      case Ok(answer) =>
        t.LogParam("final_answer", StrVal(answer));
        t.EndRun();
      case Fail(_) =>
        t.EndRun();
    }
  }

  /** The `with` block of `generateResponse` against the tracker. */
  method TrackPipeline(t: Tracker, query: string, search: string -> Outcome<seq<Doc>>,
                       answerFor: PromptInput -> Outcome<string>) returns (out: Outcome<string>)
    requires t.Valid()
    modifies t
    ensures t.Valid() && t.open == old(t.open)
    ensures t.events == old(t.events) + PipelineRunBlock(query, InvokeGraph(query, search, answerFor))
    ensures out == InvokeGraph(query, search, answerFor).outcome
  {
    ghost var before := t.events;
    OpenPipeline(t, query);
    ghost var entered := t.events;
    out := RunGraph(t, query, search, answerFor);
    ghost var ran := t.events;
    ClosePipeline(t, out);
    PipelineRunBlockOfParts(query, InvokeGraph(query, search, answerFor), before, entered, ran, t.events);
  }

  /** `generateResponse(query)` against the tracker: the `with` block, then the
      handler that logs the error and raises it wrapped. */
  method GenerateResponse(t: Tracker, query: string, search: string -> Outcome<seq<Doc>>,
                          answerFor: PromptInput -> Outcome<string>) returns (result: PipelineResult)
    requires t.Valid()
    modifies t
    ensures t.Valid() && t.open == old(t.open)
    ensures t.events == old(t.events) + Pipeline(query, search, answerFor).trace
    ensures result == Pipeline(query, search, answerFor).result
  {
    var response := TrackPipeline(t, query, search, answerFor);
    match response {
      case Ok(answer) =>
        result := Returned(answer);
      case Fail(e) =>
        t.LogParam("error", StrVal(e));
        result := Raised(PipelineError(e));
    }
  }

  // ---------------------------------------------------------------------------
  // Properties of the orchestrator
  // ---------------------------------------------------------------------------

  predicate OpensRun(events: seq<Event>, name: string)
  {
    exists k :: 0 <= k < |events| && events[k].Started? && events[k].name == name
  }

  predicate LogsParam(events: seq<Event>, key: string)
  {
    exists k :: 0 <= k < |events| && events[k].Param? && events[k].key == key
  }

  /** When both stages succeed: generation sees exactly the documents retrieval
      returned, the answer is the reply's content unmodified, and the log is the
      pipeline run, the query, the retrieval run, the generation run, then the
      returned answer, inside the pipeline run. */
  lemma PipelineSucceeds(query: string, search: string -> Outcome<seq<Doc>>,
                         answerFor: PromptInput -> Outcome<string>, docs: seq<Doc>, content: string)
    requires search(query) == Ok(docs)
    requires answerFor(PromptInput(query, AssembleContext(docs))) == Ok(content)
    ensures Pipeline(query, search, answerFor).result == Returned(content)
    ensures Pipeline(query, search, answerFor).trace
         == [Started("RAG_Pipeline", false), Param("query", StrVal(query))]
            + RetrieveRun(Initial(query), search).trace
            + GenerateRun(State(query, Some(docs), None), answerFor).trace
            + [Param("final_answer", StrVal(content)), Ended]
  {
  }

  /** The pipeline returns only when both stages succeeded, and then returns the
      chat model's reply to the prompt built from the retrieved documents. */
  lemma ReturnsOnlyOnSuccess(query: string, search: string -> Outcome<seq<Doc>>,
                             answerFor: PromptInput -> Outcome<string>)
    ensures var result := Pipeline(query, search, answerFor).result;
      result.Returned? <==>
        && search(query).Ok?
        && answerFor(PromptInput(query, AssembleContext(search(query).value))).Ok?
    ensures var result := Pipeline(query, search, answerFor).result;
      result.Returned? ==>
        answerFor(PromptInput(query, AssembleContext(search(query).value))) == Ok(result.answer)
  {
  }

  /** A failed search: the error is raised wrapped and logged as "error", no
      generation run is opened and no final answer is logged. */
  lemma RetrievalFailureAborts(query: string, search: string -> Outcome<seq<Doc>>,
                               answerFor: PromptInput -> Outcome<string>, cause: string)
    requires search(query) == Fail(cause)
    ensures Pipeline(query, search, answerFor).result == Raised(PipelineError(cause))
    ensures Pipeline(query, search, answerFor).trace
         == [Started("RAG_Pipeline", false), Param("query", StrVal(query)),
             Started("retrieval", true), Ended,
             Ended, Param("error", StrVal(cause))]
    ensures !OpensRun(Pipeline(query, search, answerFor).trace, "generation")
    ensures !LogsParam(Pipeline(query, search, answerFor).trace, "final_answer")
  {
    var tr := Pipeline(query, search, answerFor).trace;
    assert tr == [Started("RAG_Pipeline", false), Param("query", StrVal(query)),
                  Started("retrieval", true), Ended,
                  Ended, Param("error", StrVal(cause))];
  }

  /** A failed chat-model call: the error is raised wrapped and logged as
      "error" after both stage runs, and no final answer is logged. */
  lemma GenerationFailureAborts(query: string, search: string -> Outcome<seq<Doc>>,
                                answerFor: PromptInput -> Outcome<string>, docs: seq<Doc>, cause: string)
    requires search(query) == Ok(docs)
    requires answerFor(PromptInput(query, AssembleContext(docs))) == Fail(cause)
    ensures Pipeline(query, search, answerFor).result == Raised(PipelineError(cause))
    ensures Pipeline(query, search, answerFor).trace
         == [Started("RAG_Pipeline", false), Param("query", StrVal(query))]
            + RetrieveRun(Initial(query), search).trace
            + GenerateRun(State(query, Some(docs), None), answerFor).trace
            + [Ended, Param("error", StrVal(cause))]
    ensures !LogsParam(Pipeline(query, search, answerFor).trace, "final_answer")
  {
    var r := RetrieveRun(Initial(query), search).trace;
    var g := GenerateRun(State(query, Some(docs), None), answerFor).trace;
    var tr := Pipeline(query, search, answerFor).trace;
    assert tr == Prologue(query) + r + g + [Ended, Param("error", StrVal(cause))];
    forall k | 0 <= k < |tr| && tr[k].Param?
      ensures tr[k].key != "final_answer"
    {
      if k >= 2 + |r| + |g| {
      } else if k >= 2 + |r| {
        assert tr[k] == g[k - 2 - |r|];
      } else if k >= 2 {
        assert tr[k] == r[k - 2];
      }
    }
  }

  /** Every run the graph's stages open is closed again. */
  lemma GraphRunsClosed(open: seq<string>, query: string, search: string -> Outcome<seq<Doc>>,
                        answerFor: PromptInput -> Outcome<string>)
    ensures Replay(open, InvokeGraph(query, search, answerFor).trace) == open
  {
    var s0 := Initial(query);
    var r := RetrieveRun(s0, search);
    StageRunsClosed(open, s0, search, answerFor);
    if r.outcome.Ok? {
      var s1 := Merge(s0, r.outcome.value);
      StageRunsClosed(open, s1, search, answerFor);
      ReplayAppend(open, r.trace, GenerateRun(s1, answerFor).trace);
    }
  }

  /** The prologue opens the pipeline run, and its first event alone does. */
  lemma PrologueOpensPipeline(open: seq<string>, query: string)
    ensures Replay(open, Prologue(query)) == open + ["RAG_Pipeline"]
    ensures Replay(open, Prologue(query)[..1]) == open + ["RAG_Pipeline"]
  {
    var prologue := Prologue(query);
    ReplayAppend(open, [prologue[0]], [prologue[1]]);
    assert prologue == [prologue[0]] + [prologue[1]];
    assert prologue[..1] == [prologue[0]];
  }

  /** Whatever the graph did, provided its runs are closed: the pipeline run is
      opened first and closed on both paths, the query and any final answer are
      logged inside it, and the error is logged after it. */
  lemma FinishRunsClosed(open: seq<string>, query: string, graph: GraphRun)
    requires Replay(open + ["RAG_Pipeline"], graph.trace) == open + ["RAG_Pipeline"]
    ensures var tr := Finish(query, graph).trace;
      && |tr| >= 3
      && tr[1] == Param("query", StrVal(query))
      && Replay(open, tr[..1]) == open + ["RAG_Pipeline"]
      && Replay(open, tr) == open
    ensures var run := Finish(query, graph);
      run.result.Returned? ==>
        && run.trace[|run.trace| - 2] == Param("final_answer", StrVal(run.result.answer))
        && Replay(open, run.trace[..|run.trace| - 2]) == open + ["RAG_Pipeline"]
    ensures var run := Finish(query, graph);
      run.result.Raised? ==>
        && run.trace[|run.trace| - 1] == Param("error", StrVal(run.result.error.cause))
        && Replay(open, run.trace[..|run.trace| - 1]) == open
  {
    var inner := open + ["RAG_Pipeline"];
    var prologue := Prologue(query);
    PrologueOpensPipeline(open, query);
    ReplayAppend(open, prologue, graph.trace);
    var tr := Finish(query, graph).trace;
    assert tr[..1] == prologue[..1];
    assert inner[..|open|] == open;
    var body := prologue + graph.trace;
    match graph.outcome {
      case Ok(answer) =>
        assert tr == body + [Param("final_answer", StrVal(answer)), Ended];
        assert tr[..|tr| - 2] == body;
        ReplayAppend(open, body, [Param("final_answer", StrVal(answer)), Ended]);
        assert Replay(inner, [Param("final_answer", StrVal(answer)), Ended]) == open by {
          ReplayAppend(inner, [Param("final_answer", StrVal(answer))], [Ended]);
          assert [Param("final_answer", StrVal(answer)), Ended] == [Param("final_answer", StrVal(answer))] + [Ended];
        }
      case Fail(e) =>
        assert tr == body + [Ended] + [Param("error", StrVal(e))];
        assert tr[..|tr| - 1] == body + [Ended];
        ReplayAppend(open, body, [Ended]);
        ReplayAppend(open, body + [Ended], [Param("error", StrVal(e))]);
    }
  }

  /** Every run the pipeline opens is closed on every path. The query is logged
      inside the pipeline run; on success so is the final answer, while on
      failure the "error" parameter is logged after the pipeline run has been
      closed. */
  lemma PipelineRunsClosed(open: seq<string>, query: string, search: string -> Outcome<seq<Doc>>,
                           answerFor: PromptInput -> Outcome<string>)
    ensures var tr := Pipeline(query, search, answerFor).trace;
      && |tr| >= 3
      && tr[1] == Param("query", StrVal(query))
      && Replay(open, tr[..1]) == open + ["RAG_Pipeline"]
      && Replay(open, tr) == open
    ensures var run := Pipeline(query, search, answerFor);
      run.result.Returned? ==>
        && run.trace[|run.trace| - 2] == Param("final_answer", StrVal(run.result.answer))
        && Replay(open, run.trace[..|run.trace| - 2]) == open + ["RAG_Pipeline"]
    ensures var run := Pipeline(query, search, answerFor);
      run.result.Raised? ==>
        && run.trace[|run.trace| - 1] == Param("error", StrVal(run.result.error.cause))
        && Replay(open, run.trace[..|run.trace| - 1]) == open
  {
    GraphRunsClosed(open + ["RAG_Pipeline"], query, search, answerFor);
    FinishRunsClosed(open, query, InvokeGraph(query, search, answerFor));
  }

  /** No retrieved documents is not an error: the prompt is rendered with an
      empty context, zero words and zero characters are logged, and the outcome
      is the chat model's. */
  lemma EmptyRetrievalIsAnswered(query: string, search: string -> Outcome<seq<Doc>>,
                                 answerFor: PromptInput -> Outcome<string>)
    requires search(query) == Ok([])
    ensures Pipeline(query, search, answerFor).result ==
              match answerFor(PromptInput(query, ""))
              case Ok(content) => Returned(content)
              case Fail(e) => Raised(PipelineError(e))
    ensures Param("retrieved_tokens", IntVal(0)) in Pipeline(query, search, answerFor).trace
    ensures Param("context_length", IntVal(0)) in Pipeline(query, search, answerFor).trace
  {
    var docs: seq<Doc> := [];
    ContextAssembly(docs);
    assert AssembleContext(docs) == "";
    assert Words("") == [];
    var g := GenerateRun(State(query, Some(docs), None), answerFor).trace;
    var tr := Pipeline(query, search, answerFor).trace;
    var r := RetrieveRun(Initial(query), search).trace;
    assert tr[2 + |r|..2 + |r| + 3] == g[..3];
  }
}
