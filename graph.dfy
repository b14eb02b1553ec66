/**
 * The retrieval graph of langgraph_implementation.py: a router that picks the
 * vector store or Wikipedia, the two fetch nodes, the answer generator, the
 * fixed edge table between them, the process-wide vector-store handle that
 * `initialize_cassandra` sets up, and `run_app`, which folds the graph's
 * stream of node outputs into the tool response and the final answer.
 *
 * The hosted services (the OpenAI classifier and completion, the Astra DB
 * similarity search, the Wikipedia lookup) are oracle functions in `Services`.
 */
module Graph {
  import opened Wrappers
  import opened PyStr
  import opened Documents

  // ---------------------------------------------------------------------------
  // Nodes and edges
  // ---------------------------------------------------------------------------

  /** The graph's nodes, including LangGraph's START and END markers. */
  datatype Node = Start | Retrieve | WikiSearch | GenerateFinalAnswer | End

  /** The name under which each node is registered (and keyed in the stream). */
  function NodeName(n: Node): string
  {
    match n
    case Start => "__start__"
    case Retrieve => "retrieve"
    case WikiSearch => "wiki_search"
    case GenerateFinalAnswer => "generate_final_answer"
    case End => "__end__"
  }

  /** Distinct nodes have distinct names, so keying the stream by name loses nothing. */
  lemma NodeNamesDistinct(m: Node, n: Node)
    ensures NodeName(m) == NodeName(n) <==> m == n
  {
    if m != n {
      match m
      case Start => assert NodeName(m)[0] == '_';
      case Retrieve => assert NodeName(m)[0] == 'r';
      case WikiSearch => assert NodeName(m)[0] == 'w';
      case GenerateFinalAnswer => assert NodeName(m)[0] == 'g';
      case End => assert NodeName(m)[2] == 'e';
    }
  }

  /** The two values the router's structured output (`RouteQuery.datasource`) admits. */
  datatype Datasource = Vectorstore | Wikipedia

  function Label(d: Datasource): string
  {
    match d
    case Vectorstore => "vectorstore"
    case Wikipedia => "wiki_search"
  }

  /**
   * `route_question` after the classifier has answered: the branch name for a
   * datasource label, and `None` (Python's implicit return) for any other string.
   */
  function RouteQuestion(datasource: string): (r: Option<string>)
    ensures r == Some("wiki_search") <==> datasource == "wiki_search"
    ensures r == Some("retrieve") <==> datasource == "vectorstore"
    ensures r.None? <==> datasource != "wiki_search" && datasource != "vectorstore"
  {
    if datasource == "wiki_search" then Some("wiki_search")
    else if datasource == "vectorstore" then Some("retrieve")
    else None
  }

  /** The path map of the conditional edges out of START. */
  const PathMap: map<string, Node> := map["wiki_search" := WikiSearch, "retrieve" := Retrieve]

  /** Position of a node along the graph; every edge goes one step up. */
  function Rank(n: Node): nat
  {
    match n
    case Start => 0
    case Retrieve => 1
    case WikiSearch => 1
    case GenerateFinalAnswer => 2
    case End => 3
  }

  /** The unconditional edges (`add_edge`): both fetch nodes lead to generation, generation to END. */
  function Edge(n: Node): (r: Option<Node>)
    ensures r.Some? <==> n in {Retrieve, WikiSearch, GenerateFinalAnswer}
    ensures r.Some? ==> Rank(r.value) == Rank(n) + 1
  {
    match n
    case Retrieve => Some(GenerateFinalAnswer)
    case WikiSearch => Some(GenerateFinalAnswer)
    case GenerateFinalAnswer => Some(End)
    case _ => None
  }

  /** Every node a node may hand over to: the path map's targets from START, the edge table elsewhere. */
  function Successors(n: Node): (r: set<Node>)
    ensures forall m :: m in r ==> Rank(m) == Rank(n) + 1
  {
    if n == Start then PathMap.Values
    else if Edge(n).Some? then {Edge(n).value}
    else {}
  }

  /** Routing is total and exclusive: each label reaches exactly its own fetch node through the path map. */
  lemma RouteIsTotalAndExclusive(d: Datasource)
    ensures RouteQuestion(Label(d)).Some?
    ensures RouteQuestion(Label(d)).value in PathMap
    ensures PathMap[RouteQuestion(Label(d)).value] == (if d == Vectorstore then Retrieve else WikiSearch)
    ensures PathMap[RouteQuestion(Label(d)).value] in Successors(Start)
  {
  }

  /** A walk along the declared edges. */
  ghost predicate IsPath(p: seq<Node>)
  {
    forall i :: 0 <= i < |p| - 1 ==> p[i + 1] in Successors(p[i])
  }

  /** Along a path the rank grows by one per step. */
  lemma {:induction false} PathRanks(p: seq<Node>)
    requires IsPath(p)
    ensures forall j :: 0 <= j < |p| ==> Rank(p[j]) == Rank(p[0]) + j
    decreases |p|
  {
    if |p| > 1 {
      var front := p[..|p| - 1];
      assert IsPath(front) by {
        forall i | 0 <= i < |front| - 1 ensures front[i + 1] in Successors(front[i]) {
          assert front[i] == p[i] && front[i + 1] == p[i + 1];
        }
      }
      PathRanks(front);
      forall j | 0 <= j < |p| ensures Rank(p[j]) == Rank(p[0]) + j {
        if j < |p| - 1 {
          assert p[j] == front[j];
        } else {
          assert p[j] in Successors(p[j - 1]);
          assert p[j - 1] == front[j - 1];
        }
      }
    }
  }

  /** The graph has no cycles: no walk along its edges visits a node twice. */
  lemma NoNodeVisitedTwice(p: seq<Node>)
    requires IsPath(p)
    ensures forall i, j :: 0 <= i < j < |p| ==> p[i] != p[j]
  {
    PathRanks(p);
  }

  /**
   * Every complete walk from START to END is START, exactly one of the two
   * fetch nodes, the generator, END.
   */
  lemma CompletePaths(p: seq<Node>)
    requires IsPath(p) && |p| > 0 && p[0] == Start && p[|p| - 1] == End
    ensures p == [Start, p[1], GenerateFinalAnswer, End]
    ensures p[1] == Retrieve || p[1] == WikiSearch
  {
    PathRanks(p);
    assert |p| == 4;
    assert p[1] in Successors(Start);
    assert p[2] in Successors(p[1]);
  }

  // ---------------------------------------------------------------------------
  // State, services and the process-wide vector store
  // ---------------------------------------------------------------------------

  /** `GraphState`; `documents` and `generation` are keys that may still be absent. */
  datatype GraphState = GraphState(
    question: string,
    generation: Option<string>,
    documents: Option<seq<Document>>,
    openaiApiKey: string)

  /** The inputs `run_app` streams into the graph: question and API key only. */
  function Inputs(question: string, openaiApiKey: string): (r: GraphState)
    ensures r.question == question && r.openaiApiKey == openaiApiKey
    ensures r.generation.None? && r.documents.None?
  {
    GraphState(question, None, None, openaiApiKey)
  }

  /** The dictionary a node returns: each key may be present or absent. */
  datatype Update = Update(
    question: Option<string>,
    documents: Option<seq<Document>>,
    generation: Option<string>)

  /** LangGraph's merge of a node's update into the state: present keys overwrite, absent ones keep. */
  function Merge(s: GraphState, u: Update): (r: GraphState)
    ensures u.question.Some? ==> r.question == u.question.value
    ensures u.generation.Some? ==> r.generation == u.generation
    ensures u.documents.Some? ==> r.documents == u.documents
    ensures u.question.None? ==> r.question == s.question
    ensures u.generation.None? ==> r.generation == s.generation
    ensures u.documents.None? ==> r.documents == s.documents
    ensures u == Update(None, None, None) ==> r == s
    ensures r.openaiApiKey == s.openaiApiKey
  {
    GraphState(
      if u.question.Some? then u.question.value else s.question,
      if u.generation.Some? then u.generation else s.generation,
      if u.documents.Some? then u.documents else s.documents,
      s.openaiApiKey)
  }

  /** The Cassandra-backed store `initialize_cassandra` builds after `cassio.init(token, database_id)`. */
  datatype VectorStore = VectorStore(
    token: string,
    databaseId: string,
    tableName: string,
    embeddingModel: string)

  /** `VectorStoreIndexWrapper(vectorstore=...)`. */
  datatype VectorIndex = VectorIndex(vectorstore: VectorStore)

  /** `vectorstore.as_retriever()`. */
  datatype Retriever = Retriever(vectorstore: VectorStore)

  const TableName := "smiths_lyrics_new"
  const EmbeddingModel := "all-MiniLM-L6-v2"

  /** The exceptions the core raises. */
  datatype Error =
    | ValueError(message: string)   // `retrieve` before the store is initialised
    | KeyError(key: string)         // a state or update key read while absent
    | InvalidBranch                 // the router returned no branch of the path map

  const NotInitializedMessage := "Vector store not initialized. Please connect to the database first."

  /** The hosted services, as the functions they compute. */
  datatype Services = Services(
    classify: (string, string) -> Datasource,             // (API key, question) -> RouteQuery.datasource
    similaritySearch: (VectorStore, string) -> seq<Document>,
    wikiLookup: string -> string,                          // wiki.invoke({"query": q})
    complete: (string, string) -> string)                  // (API key, prompt) -> response.content

  /**
   * The module globals `astra_vector_store`, `astra_vector_index` and
   * `retriever`: all `None` when the module is loaded, all set by
   * `initialize_cassandra`.
   */
  class Globals {
    var astraVectorStore: Option<VectorStore>
    var astraVectorIndex: Option<VectorIndex>
    var retriever: Option<Retriever>

    /**
     * The invariant of the globals: either nothing is initialised, or all three
     * share the one store. The constructor establishes it and
     * `InitializeCassandra` re-establishes it from any prior state.
     */
    ghost predicate Valid()
      reads this
    {
      && (astraVectorStore.None? <==> astraVectorIndex.None?)
      && (astraVectorStore.None? <==> retriever.None?)
      && (astraVectorStore.Some? ==>
            astraVectorIndex.value.vectorstore == astraVectorStore.value &&
            retriever.value.vectorstore == astraVectorStore.value)
    }

    /** The state at import time. */
    constructor ()
      ensures Valid()
      ensures astraVectorStore == None && astraVectorIndex == None && retriever == None
      ensures forall svc, state :: RetrieveDocs(astraVectorIndex, svc, state) == Failure(ValueError(NotInitializedMessage))
    {
      astraVectorStore := None;
      astraVectorIndex := None;
      retriever := None;
    }

    /** `initialize_cassandra(token, database_id)`: connect, then set all three globals. */
    method InitializeCassandra(token: string, databaseId: string)
      modifies this
      ensures Valid()
      ensures astraVectorStore == Some(VectorStore(token, databaseId, TableName, EmbeddingModel))
      ensures astraVectorIndex == Some(VectorIndex(astraVectorStore.value))
      ensures retriever == Some(Retriever(astraVectorStore.value))
      ensures forall svc, state :: RetrieveDocs(astraVectorIndex, svc, state).Success?
    {
      var store := VectorStore(token, databaseId, TableName, EmbeddingModel);
      astraVectorStore := Some(store);
      astraVectorIndex := Some(VectorIndex(store));
      retriever := Some(Retriever(store));
    }
  }

  // ---------------------------------------------------------------------------
  // The nodes
  // ---------------------------------------------------------------------------

  /**
   * `retrieve`: fails while the index global is unset; otherwise the store's
   * similarity search for the question, returned with the question unchanged.
   */
  function RetrieveDocs(index: Option<VectorIndex>, svc: Services, state: GraphState): (r: Result<Update, Error>)
    ensures r.Failure? <==> index.None?
    ensures r.Failure? ==> r.error == ValueError(NotInitializedMessage)
    ensures r.Success? ==> r.value.question == Some(state.question) && r.value.generation.None?
    ensures r.Success? ==> r.value.documents == Some(svc.similaritySearch(index.value.vectorstore, state.question))
  {
    if index.None? then Failure(ValueError(NotInitializedMessage))
    else
      var documents := svc.similaritySearch(index.value.vectorstore, state.question);
      Success(Update(Some(state.question), Some(documents), None))
  }

  /** The one document `wiki_search` wraps the lookup text in. */
  function WikiDocument(text: string): Document
  {
    Document(text, map["source" := "wikipedia"])
  }

  /**
   * `wiki_search`: exactly one document, holding the lookup text and tagged
   * with source "wikipedia", returned with the question unchanged.
   */
  function SearchWiki(svc: Services, state: GraphState): (r: Update)
    ensures r.question == Some(state.question) && r.generation.None?
    ensures r.documents.Some? && |r.documents.value| == 1
    ensures r.documents.value[0].pageContent == svc.wikiLookup(state.question)
    ensures r.documents.value[0].metadata == map["source" := "wikipedia"]
  {
    Update(Some(state.question), Some([WikiDocument(svc.wikiLookup(state.question))]), None)
  }

  const PromptPrefix := "Using the following context, answer the initial question: "
  const QuestionMarker := "\n\nInitial Question: "

  /** The answer prompt: the fixed template with `{context}` and `{question}` filled in. */
  function Prompt(context: string, question: string): (r: string)
    ensures |r| == |PromptPrefix| + |context| + |QuestionMarker| + |question|
    ensures r[..|PromptPrefix|] == PromptPrefix
    ensures r[|PromptPrefix|..|PromptPrefix| + |context|] == context
    ensures r[|PromptPrefix| + |context|..|r| - |question|] == QuestionMarker
    ensures r[|r| - |question|..] == question
  {
    PromptPrefix + context + QuestionMarker + question
  }

  /** Two prompts with equally long contexts are equal only for equal contexts and questions. */
  lemma PromptInjective(c1: string, q1: string, c2: string, q2: string)
    requires |c1| == |c2|
    requires Prompt(c1, q1) == Prompt(c2, q2)
    ensures c1 == c2 && q1 == q2
  {
    var p := Prompt(c1, q1);
    assert c1 == p[|PromptPrefix|..|PromptPrefix| + |c1|] == c2;
    assert q1 == p[|p| - |q1|..] == q2;
  }

  /**
   * Without the context's length the prompt is ambiguous: a context or a
   * question that holds the question marker can be cut in two ways.
   */
  lemma PromptAmbiguous(x: string, y: string)
    ensures Prompt("", x + QuestionMarker + y) == Prompt(QuestionMarker + x, y)
    ensures "" != QuestionMarker + x
  {
    assert PromptPrefix + "" + QuestionMarker + (x + QuestionMarker + y)
        == PromptPrefix + (QuestionMarker + x) + QuestionMarker + y;
  }

  /**
   * `generate_final_answer`: the completion of the prompt built from the
   * documents; only `generation` is new, question and documents are returned
   * as they were. A state without documents raises `KeyError`.
   */
  function GenerateAnswer(svc: Services, state: GraphState): (r: Result<Update, Error>)
    ensures r.Failure? <==> state.documents.None?
    ensures r.Failure? ==> r.error == KeyError("documents")
    ensures r.Success? ==> r.value.question == Some(state.question) && r.value.documents == state.documents
    ensures r.Success? ==>
      r.value.generation == Some(svc.complete(state.openaiApiKey, Prompt(JoinContents(state.documents.value), state.question)))
  {
    if state.documents.None? then Failure(KeyError("documents"))
    else
      var prompt := Prompt(JoinContents(state.documents.value), state.question);
      Success(Update(Some(state.question), state.documents, Some(svc.complete(state.openaiApiKey, prompt))))
  }

  /** Runs the function registered for a node. */
  function Invoke(index: Option<VectorIndex>, svc: Services, n: Node, state: GraphState): Result<Update, Error>
    requires n != Start && n != End
  {
    match n
    case Retrieve => RetrieveDocs(index, svc, state)
    case WikiSearch => Success(SearchWiki(svc, state))
    case GenerateFinalAnswer => GenerateAnswer(svc, state)
  }

  // ---------------------------------------------------------------------------
  // Running the compiled graph
  // ---------------------------------------------------------------------------

  /** The conditional edge out of START: classify, route, look the branch up in the path map. */
  function Branch(svc: Services, state: GraphState): (r: Result<Node, Error>)
    ensures r == Success(FetchNode(svc.classify(state.openaiApiKey, state.question)))
  {
    RouteIsTotalAndExclusive(svc.classify(state.openaiApiKey, state.question));
    var route := RouteQuestion(Label(svc.classify(state.openaiApiKey, state.question)));
    if route.Some? && route.value in PathMap then Success(PathMap[route.value]) else Failure(InvalidBranch)
  }

  /** One item of a streamed output: the node's name-key and the update it returned. */
  datatype StreamItem = StreamItem(node: Node, update: Update)

  /** A finished run: the nodes visited, the stream outputs in order, the final state. */
  datatype Trace = Trace(visited: seq<Node>, outputs: seq<seq<StreamItem>>, final: GraphState)

  /** The node whose function raised, and what it raised. */
  datatype StepFailure = StepFailure(node: Node, error: Error)

  /** A trace whose outputs are one single-key output per visited node except the last. */
  ghost predicate OutputsFollowVisits(t: Trace)
  {
    && |t.outputs| + 1 == |t.visited|
    && forall k :: 0 <= k < |t.outputs| ==> |t.outputs[k]| == 1 && t.outputs[k][0].node == t.visited[k]
  }

  /**
   * Executes the graph from node `n` in state `state`, one node after the other
   * along the edge table, until END; the first node that raises aborts the run.
   */
  function Execute(index: Option<VectorIndex>, svc: Services, n: Node, state: GraphState): (r: Result<Trace, StepFailure>)
    requires n != Start
    ensures r.Success? ==> |r.value.visited| > 0 && r.value.visited[0] == n
    ensures r.Success? ==> r.value.visited[|r.value.visited| - 1] == End && IsPath(r.value.visited)
    ensures r.Success? ==> OutputsFollowVisits(r.value)
    decreases 3 - Rank(n)
  {
    if n == End then Success(Trace([End], [], state))
    else
      match Invoke(index, svc, n, state)
      case Failure(e) => Failure(StepFailure(n, e))
      case Success(u) =>
        match Execute(index, svc, Edge(n).value, Merge(state, u))
        case Failure(f) => Failure(f)
        case Success(t) => Success(Trace([n] + t.visited, [[StreamItem(n, u)]] + t.outputs, t.final))
  }

  /** `app.stream(inputs)` to completion: route from START, then execute. */
  function Run(index: Option<VectorIndex>, svc: Services, question: string, openaiApiKey: string): (r: Result<Trace, StepFailure>)
    ensures r.Success? ==> IsPath(r.value.visited) && |r.value.visited| > 0
    ensures r.Success? ==> r.value.visited[0] == Start && r.value.visited[|r.value.visited| - 1] == End
  {
    var inputs := Inputs(question, openaiApiKey);
    match Branch(svc, inputs)
    case Failure(e) => Failure(StepFailure(Start, e))
    case Success(first) =>
      match Execute(index, svc, first, inputs)
      case Failure(f) => Failure(f)
      case Success(t) => Success(Trace([Start] + t.visited, t.outputs, t.final))
  }

  /** The fetch node the classifier's answer selects. */
  function FetchNode(d: Datasource): Node
  {
    if d == Vectorstore then Retrieve else WikiSearch
  }

  /** The documents the selected fetch node produces (empty when the store is not initialised). */
  function Fetched(index: Option<VectorIndex>, svc: Services, question: string, d: Datasource): seq<Document>
  {
    if d == Wikipedia then [WikiDocument(svc.wikiLookup(question))]
    else if index.Some? then svc.similaritySearch(index.value.vectorstore, question)
    else []
  }

  /**
   * What one run does: it fails exactly when the vector store is chosen before
   * it was initialised, and then in `retrieve` with the not-initialised error;
   * otherwise it visits START, the chosen fetch node, the generator and END,
   * streams the fetch node's update and then the generator's, and ends with the
   * question, the fetched documents and the completion of their prompt.
   */
  lemma RunOutcome(index: Option<VectorIndex>, svc: Services, question: string, key: string)
    ensures var d := svc.classify(key, question);
            var r := Run(index, svc, question, key);
            && (r.Failure? <==> d == Vectorstore && index.None?)
            && (r.Failure? ==> r.error == StepFailure(Retrieve, ValueError(NotInitializedMessage)))
    ensures var d := svc.classify(key, question);
            var r := Run(index, svc, question, key);
            var docs := Fetched(index, svc, question, d);
            var generation := svc.complete(key, Prompt(JoinContents(docs), question));
            r.Success? ==>
              && r.value.visited == [Start, FetchNode(d), GenerateFinalAnswer, End]
              && r.value.outputs == [
                   [StreamItem(FetchNode(d), Update(Some(question), Some(docs), None))],
                   [StreamItem(GenerateFinalAnswer, Update(Some(question), Some(docs), Some(generation)))]]
              && r.value.final == GraphState(question, Some(generation), Some(docs), key)
  {
    var d := svc.classify(key, question);
    var inputs := Inputs(question, key);
    RouteIsTotalAndExclusive(d);
    ExecuteFromFetch(index, svc, question, key);
  }

  /** From the chosen fetch node, the rest of the run: fetch, generate, END. */
  lemma ExecuteFromFetch(index: Option<VectorIndex>, svc: Services, question: string, key: string)
    ensures var d := svc.classify(key, question);
            var r := Execute(index, svc, FetchNode(d), Inputs(question, key));
            var docs := Fetched(index, svc, question, d);
            var generation := svc.complete(key, Prompt(JoinContents(docs), question));
            && (r.Failure? <==> d == Vectorstore && index.None?)
            && (r.Failure? ==> r.error == StepFailure(Retrieve, ValueError(NotInitializedMessage)))
            && (r.Success? ==>
                  r.value == Trace([FetchNode(d), GenerateFinalAnswer, End],
                    [[StreamItem(FetchNode(d), Update(Some(question), Some(docs), None))],
                     [StreamItem(GenerateFinalAnswer, Update(Some(question), Some(docs), Some(generation)))]],
                    GraphState(question, Some(generation), Some(docs), key)))
  {
    var d := svc.classify(key, question);
    var inputs := Inputs(question, key);
    var n := FetchNode(d);
    var fetch := Invoke(index, svc, n, inputs);
    if fetch.Success? {
      var docs := Fetched(index, svc, question, d);
      var u := Update(Some(question), Some(docs), None);
      assert fetch.value == u;
      assert Edge(n) == Some(GenerateFinalAnswer);
      var s1 := Merge(inputs, u);
      assert s1 == GraphState(question, None, Some(docs), key);
      ExecuteGenerator(index, svc, s1);
      var t := Execute(index, svc, GenerateFinalAnswer, s1).value;
      assert [n] + t.visited == [n, GenerateFinalAnswer, End];
      assert [[StreamItem(n, u)]] + t.outputs == [[StreamItem(n, u)], t.outputs[0]];
    }
  }

  /** From the generator with documents in the state: one generation, then END. */
  lemma ExecuteGenerator(index: Option<VectorIndex>, svc: Services, state: GraphState)
    requires state.documents.Some?
    ensures var generation := svc.complete(state.openaiApiKey, Prompt(JoinContents(state.documents.value), state.question));
            var u := Update(Some(state.question), state.documents, Some(generation));
            Execute(index, svc, GenerateFinalAnswer, state) ==
              Success(Trace([GenerateFinalAnswer, End], [[StreamItem(GenerateFinalAnswer, u)]], Merge(state, u)))
  {
    var generation := svc.complete(state.openaiApiKey, Prompt(JoinContents(state.documents.value), state.question));
    var u := Update(Some(state.question), state.documents, Some(generation));
    assert Invoke(index, svc, GenerateFinalAnswer, state) == Success(u);
    assert Edge(GenerateFinalAnswer) == Some(End);
    assert Execute(index, svc, End, Merge(state, u)) == Success(Trace([End], [], Merge(state, u)));
    assert [GenerateFinalAnswer] + [End] == [GenerateFinalAnswer, End];
    assert [[StreamItem(GenerateFinalAnswer, u)]] + [] == [[StreamItem(GenerateFinalAnswer, u)]];
  }

  /**
   * Every successful run visits exactly one of the two fetch nodes, then the
   * generator, then END, and never visits a node twice.
   */
  lemma RunVisitsOneFetchNode(index: Option<VectorIndex>, svc: Services, question: string, key: string)
    requires Run(index, svc, question, key).Success?
    ensures var p := Run(index, svc, question, key).value.visited;
            && p == [Start, p[1], GenerateFinalAnswer, End]
            && (p[1] == Retrieve <==> p[1] != WikiSearch)
            && p[1] == FetchNode(svc.classify(key, question))
            && forall i, j :: 0 <= i < j < |p| ==> p[i] != p[j]
  {
    var p := Run(index, svc, question, key).value.visited;
    CompletePaths(p);
    NoNodeVisitedTwice(p);
    RunOutcome(index, svc, question, key);
  }

  // ---------------------------------------------------------------------------
  // run_app: folding the stream
  // ---------------------------------------------------------------------------

  /** What `run_app` returns. */
  datatype Response = Response(toolResponse: string, finalAnswer: string)

  /** `key in ["retrieve", "wiki_search"]`, on nodes (names identify nodes, see `NodeNamesDistinct`). */
  predicate IsFetchKey(n: Node)
  {
    n == Retrieve || n == WikiSearch
  }

  /** `key == "generate_final_answer"`, on nodes. */
  predicate IsGenerateKey(n: Node)
  {
    n == GenerateFinalAnswer
  }

  /** The item holds the key `run_app` reads from it: documents for a fetch node, generation for the generator. */
  predicate Readable(item: StreamItem)
  {
    && (IsFetchKey(item.node) ==> item.update.documents.Some?)
    && (IsGenerateKey(item.node) ==> item.update.generation.Some?)
  }

  /** The key whose absence makes `run_app` raise on an unreadable item. */
  function MissingKey(item: StreamItem): string
  {
    if IsFetchKey(item.node) then "documents" else "generation"
  }

  /** The streamed outputs' items, output after output, each in its dictionary's order. */
  function Flatten(outputs: seq<seq<StreamItem>>): (r: seq<StreamItem>)
    decreases |outputs|
  {
    if outputs == [] then [] else Flatten(outputs[..|outputs| - 1]) + outputs[|outputs| - 1]
  }

  /** `tool_response` after folding `items`: the joined documents of the last fetch item, or "". */
  function ToolResponse(items: seq<StreamItem>): string
    decreases |items|
  {
    if items == [] then ""
    else
      var last := items[|items| - 1];
      if IsFetchKey(last.node) && last.update.documents.Some? then JoinContents(last.update.documents.value)
      else ToolResponse(items[..|items| - 1])
  }

  /** `final_answer` after folding `items`: the generation of the last generator item, or "". */
  function FinalAnswer(items: seq<StreamItem>): string
    decreases |items|
  {
    if items == [] then ""
    else
      var last := items[|items| - 1];
      if !IsFetchKey(last.node) && IsGenerateKey(last.node) && last.update.generation.Some? then last.update.generation.value
      else FinalAnswer(items[..|items| - 1])
  }

  /** The tool response is the joined documents of the LAST fetch item. */
  lemma {:induction false} ToolResponseIsLastFetch(items: seq<StreamItem>, k: nat)
    requires k < |items| && IsFetchKey(items[k].node) && items[k].update.documents.Some?
    requires forall j :: k < j < |items| ==> !IsFetchKey(items[j].node)
    ensures ToolResponse(items) == JoinContents(items[k].update.documents.value)
    decreases |items|
  {
    if k < |items| - 1 {
      ToolResponseIsLastFetch(items[..|items| - 1], k);
    }
  }

  /** Without any fetch item the tool response stays empty. */
  lemma {:induction false} ToolResponseWithoutFetch(items: seq<StreamItem>)
    requires forall j :: 0 <= j < |items| ==> !IsFetchKey(items[j].node)
    ensures ToolResponse(items) == ""
    decreases |items|
  {
    if items != [] {
      ToolResponseWithoutFetch(items[..|items| - 1]);
    }
  }

  /** The final answer is the generation of the LAST generator item. */
  lemma {:induction false} FinalAnswerIsLastGeneration(items: seq<StreamItem>, k: nat)
    requires k < |items| && IsGenerateKey(items[k].node) && items[k].update.generation.Some?
    requires forall j :: k < j < |items| ==> !IsGenerateKey(items[j].node)
    ensures FinalAnswer(items) == items[k].update.generation.value
    decreases |items|
  {
    assert !IsFetchKey(items[k].node);
    if k < |items| - 1 {
      FinalAnswerIsLastGeneration(items[..|items| - 1], k);
    }
  }

  /** Without any generator item the final answer stays empty. */
  lemma {:induction false} FinalAnswerWithoutGeneration(items: seq<StreamItem>)
    requires forall j :: 0 <= j < |items| ==> !IsGenerateKey(items[j].node)
    ensures FinalAnswer(items) == ""
    decreases |items|
  {
    if items != [] {
      FinalAnswerWithoutGeneration(items[..|items| - 1]);
    }
  }

  lemma FlattenAppend(outputs: seq<seq<StreamItem>>, i: nat)
    requires i < |outputs|
    ensures Flatten(outputs[..i + 1]) == Flatten(outputs[..i]) + outputs[i]
  {
    assert outputs[..i + 1][..i] == outputs[..i];
  }

  /** The items of the outputs before `i`, then output `i`, then the rest, make up all items. */
  lemma {:induction false} FlattenSplit(outputs: seq<seq<StreamItem>>, i: nat)
    requires i < |outputs|
    ensures Flatten(outputs) == Flatten(outputs[..i]) + outputs[i] + Flatten(outputs[i + 1..])
    decreases |outputs|
  {
    if i < |outputs| - 1 {
      var front := outputs[..|outputs| - 1];
      FlattenSplit(front, i);
      assert front[..i] == outputs[..i];
      assert front[i + 1..] == outputs[i + 1..|outputs| - 1];
      assert outputs[i + 1..][..|outputs[i + 1..]| - 1] == outputs[i + 1..|outputs| - 1];
    } else {
      assert outputs[..i + 1] == outputs;
      FlattenAppend(outputs, i);
      assert outputs[i + 1..] == [];
    }
  }

  /** A stream of two single-key outputs has those two items. */
  lemma FlattenPair(a: StreamItem, b: StreamItem)
    ensures Flatten([[a], [b]]) == [a, b]
  {
    var outputs := [[a], [b]];
    assert outputs[..1] == [[a]] && [[a]][..0] == [];
    assert Flatten([[a]]) == Flatten([]) + [a] == [a];
    assert Flatten(outputs) == Flatten([[a]]) + [b];
  }

  /** How the folded values change when one more item is read. */
  lemma FoldStep(prev: seq<StreamItem>, item: StreamItem)
    ensures ToolResponse(prev + [item]) ==
      if IsFetchKey(item.node) && item.update.documents.Some? then JoinContents(item.update.documents.value)
      else ToolResponse(prev)
    ensures FinalAnswer(prev + [item]) ==
      if !IsFetchKey(item.node) && IsGenerateKey(item.node) && item.update.generation.Some? then item.update.generation.value
      else FinalAnswer(prev)
  {
    assert (prev + [item])[..|prev|] == prev;
  }

  /** Item `j` of output `i`, read after only readable items, is the first unreadable item of the stream. */
  lemma FirstUnreadable(outputs: seq<seq<StreamItem>>, i: nat, j: nat)
    requires i < |outputs| && j < |outputs[i]| && !Readable(outputs[i][j])
    requires var done := Flatten(outputs[..i]) + outputs[i][..j];
             forall k :: 0 <= k < |done| ==> Readable(done[k])
    ensures var items := Flatten(outputs);
            exists k :: 0 <= k < |items| && !Readable(items[k]) &&
              (forall m :: 0 <= m < k ==> Readable(items[m])) &&
              MissingKey(items[k]) == MissingKey(outputs[i][j])
  {
    var done := Flatten(outputs[..i]) + outputs[i][..j];
    var items := Flatten(outputs);
    var rest := outputs[i][j..] + Flatten(outputs[i + 1..]);
    FlattenSplit(outputs, i);
    assert outputs[i] == outputs[i][..j] + outputs[i][j..];
    assert items == done + rest;
    var n := |done|;
    assert items[n] == rest[0] == outputs[i][j];
    forall m | 0 <= m < n
      ensures Readable(items[m])
    {
      assert items[m] == done[m];
    }
    assert !Readable(items[n]) && MissingKey(items[n]) == MissingKey(outputs[i][j]);
  }

  /**
   * The loop of `run_app` over `app.stream(inputs)`: every key of every output,
   * in order; a fetch key sets `tool_response`, the generator key sets
   * `final_answer`; a missing `documents` or `generation` raises `KeyError`.
   */
  method FoldOutputs(outputs: seq<seq<StreamItem>>) returns (r: Result<Response, Error>)
    ensures var items := Flatten(outputs);
            r.Success? <==> forall k :: 0 <= k < |items| ==> Readable(items[k])
    ensures r.Success? ==> r.value == Response(ToolResponse(Flatten(outputs)), FinalAnswer(Flatten(outputs)))
    ensures var items := Flatten(outputs);
            r.Failure? ==>
              exists k :: 0 <= k < |items| && !Readable(items[k]) &&
                (forall j :: 0 <= j < k ==> Readable(items[j])) &&
                r.error == KeyError(MissingKey(items[k]))
  {
    ghost var items := Flatten(outputs);
    var toolResponse, finalAnswer := "", "";
    ghost var seen: seq<StreamItem> := [];
    var i := 0;
    while i < |outputs|
      invariant 0 <= i <= |outputs|
      invariant seen == Flatten(outputs[..i])
      invariant forall k :: 0 <= k < |seen| ==> Readable(seen[k])
      invariant toolResponse == ToolResponse(seen) && finalAnswer == FinalAnswer(seen)
    {
      var output := outputs[i];
      var j := 0;
      while j < |output|
        invariant 0 <= j <= |output|
        invariant seen == Flatten(outputs[..i]) + output[..j]
        invariant forall k :: 0 <= k < |seen| ==> Readable(seen[k])
        invariant toolResponse == ToolResponse(seen) && finalAnswer == FinalAnswer(seen)
      {
        var item := output[j];
        if !Readable(item) {
          FirstUnreadable(outputs, i, j);
          return Failure(KeyError(MissingKey(item)));
        }
        FoldStep(seen, item);
        if IsFetchKey(item.node) {
          toolResponse := JoinContents(item.update.documents.value);
        } else if IsGenerateKey(item.node) {
          finalAnswer := item.update.generation.value;
        }
        assert output[..j + 1] == output[..j] + [item];
        seen := seen + [item];
        j := j + 1;
      }
      assert output[..j] == output;
      FlattenAppend(outputs, i);
      i := i + 1;
    }
    assert outputs[..i] == outputs;
    assert seen == items;
    r := Success(Response(toolResponse, finalAnswer));
  }

  /**
   * The stream of a successful run is fully readable by `run_app`: its last
   * fetch item carries the context the generator was given, and its last
   * generator item the completion of that prompt.
   */
  lemma RunStreamIsReadable(index: Option<VectorIndex>, svc: Services, question: string, key: string)
    requires Run(index, svc, question, key).Success?
    ensures var items := Flatten(Run(index, svc, question, key).value.outputs);
            var context := JoinContents(Fetched(index, svc, question, svc.classify(key, question)));
            && (forall k :: 0 <= k < |items| ==> Readable(items[k]))
            && ToolResponse(items) == context
            && FinalAnswer(items) == svc.complete(key, Prompt(context, question))
  {
    RunOutcome(index, svc, question, key);
    var d := svc.classify(key, question);
    var docs := Fetched(index, svc, question, d);
    var generation := svc.complete(key, Prompt(JoinContents(docs), question));
    var fetched := StreamItem(FetchNode(d), Update(Some(question), Some(docs), None));
    var generated := StreamItem(GenerateFinalAnswer, Update(Some(question), Some(docs), Some(generation)));
    FlattenPair(fetched, generated);
    assert [] + [fetched] == [fetched] && [fetched] + [generated] == [fetched, generated];
    FoldStep([], fetched);
    FoldStep([fetched], generated);
  }

  /**
   * `run_app`: stream the graph on the question and fold its outputs. The
   * `retrieve` node reads the index global as it is when the run happens. The
   * tool response is the context the generator was given and the final answer
   * its generation; the only failure is `retrieve` before initialisation.
   */
  method RunApp(globals: Globals, svc: Services, question: string, openaiApiKey: string)
    returns (r: Result<Response, Error>)
    ensures var d := svc.classify(openaiApiKey, question);
            r.Failure? <==> d == Vectorstore && globals.astraVectorIndex.None?
    ensures r.Failure? ==> r.error == ValueError(NotInitializedMessage)
    ensures var d := svc.classify(openaiApiKey, question);
            var context := JoinContents(Fetched(globals.astraVectorIndex, svc, question, d));
            r.Success? ==>
              r.value == Response(context, svc.complete(openaiApiKey, Prompt(context, question)))
  {
    var index := globals.astraVectorIndex;
    RunOutcome(index, svc, question, openaiApiKey);
    var run := Run(index, svc, question, openaiApiKey);
    if run.Failure? {
      return Failure(run.error.error);
    }
    RunStreamIsReadable(index, svc, question, openaiApiKey);
    r := FoldOutputs(run.value.outputs);
  }
}
