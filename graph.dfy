/** The workflow: the collector node, the fixed graph researcher -> writer ->
    final_node -> END, and running it over a state by merging each node's
    update in turn. */
module Graph {
  import opened AgentState
  import SearchWeb
  import Researcher
  import Writer

  const NoAnswer: string := "No answer produced."

  /** The text of one conversation entry: a chat message's content, a plain
      record's "content" entry (or "" without one), or any other value's
      string rendering. */
  function ContentOf(m: Message): (text: string)
    ensures m.System? || m.Human? || m.Assistant? ==> text == m.content
    ensures m.Dict? && "content" !in m.entries ==> text == ""
  {
    match m
    case System(content) => content
    case Human(content) => content
    case Assistant(content, _) => content
    case Dict(entries) => if "content" in entries then entries["content"] else ""
    case Opaque(rendering) => rendering
  }

  /** The answer the collector extracts from a history. */
  function Collect(messages: seq<Message>): (answer: string)
    ensures |messages| == 0 ==> answer == NoAnswer
  {
    if |messages| == 0 then NoAnswer else ContentOf(messages[|messages| - 1])
  }

  /** The collector node: its update sets `final_answer` and nothing else. */
  function FinalNode(s: State): (u: Update)
    ensures u.messages == [] && u.nextAgent == None
    ensures u.finalAnswer.Some?
    ensures |s.messages| == 0 ==> u.finalAnswer == Some(NoAnswer)
  {
    Update([], None, Some(Collect(s.messages)))
  }

  /** The collector's answer, case by case over the last entry. */
  lemma CollectCases(messages: seq<Message>)
    ensures |messages| == 0 ==> Collect(messages) == NoAnswer
    ensures |messages| > 0 && !messages[|messages| - 1].Dict? && !messages[|messages| - 1].Opaque?
      ==> Collect(messages) == messages[|messages| - 1].content
    ensures |messages| > 0 && messages[|messages| - 1].Dict? && "content" in messages[|messages| - 1].entries
      ==> Collect(messages) == messages[|messages| - 1].entries["content"]
    ensures |messages| > 0 && messages[|messages| - 1].Dict? && "content" !in messages[|messages| - 1].entries
      ==> Collect(messages) == ""
    ensures |messages| > 0 && messages[|messages| - 1].Opaque?
      ==> Collect(messages) == messages[|messages| - 1].rendering
  {
  }

  /** Only the last entry matters: histories ending in the same entry give the
      same answer, whatever comes before it. */
  lemma CollectLastOnly(a: seq<Message>, b: seq<Message>, last: Message)
    ensures Collect(a + [last]) == Collect(b + [last]) == ContentOf(last)
  {
  }

  /** Merging the collector's update changes `final_answer` alone. */
  lemma FinalNodeOnlyAnswer(s: State)
    ensures Merge(s, FinalNode(s)) == s.(finalAnswer := Some(Collect(s.messages)))
  {
  }

  const ResearcherNode: string := "researcher"
  const WriterNode: string := "writer"
  const FinalNodeName: string := "final_node"
  /** The graph's terminal marker. */
  const End: string := "__end__"

  /** A compiled graph: its nodes, its entry point and one outgoing edge per node. */
  datatype Workflow = Workflow(nodes: set<string>, entry: string, edges: map<string, string>)

  /** The three nodes, the entry point and the three edges of the pipeline. */
  function BuildWorkflow(): (g: Workflow)
    ensures g.entry in g.nodes
    ensures forall n :: n in g.nodes <==> n in g.edges
    ensures forall n :: n in g.edges ==> g.edges[n] in g.nodes || g.edges[n] == End
  {
    Workflow(
      {ResearcherNode, WriterNode, FinalNodeName},
      ResearcherNode,
      map[ResearcherNode := WriterNode, WriterNode := FinalNodeName, FinalNodeName := End])
  }

  /** The nodes visited from `node` by following edges, stopping at END, at a
      node without an edge, or after `fuel` steps. */
  function Path(g: Workflow, node: string, fuel: nat): seq<string>
    decreases fuel
  {
    if fuel == 0 || node == End || node !in g.edges then []
    else [node] + Path(g, g.edges[node], fuel - 1)
  }

  /** The order in which a run visits the nodes: at most one visit per node. */
  function Schedule(g: Workflow): seq<string>
  {
    Path(g, g.entry, |g.nodes|)
  }

  /** The pipeline visits researcher, writer and final_node, each once and in
      that order, and final_node's edge leads to END. */
  lemma WorkflowSchedule()
    ensures Schedule(BuildWorkflow()) == [ResearcherNode, WriterNode, FinalNodeName]
    ensures BuildWorkflow().edges[FinalNodeName] == End
    ensures forall i, j :: 0 <= i < j < |Schedule(BuildWorkflow())| ==>
              Schedule(BuildWorkflow())[i] != Schedule(BuildWorkflow())[j]
  {
    var g := BuildWorkflow();
    assert |g.nodes| == 3 by {
      assert g.nodes == {ResearcherNode} + {WriterNode} + {FinalNodeName};
      assert ResearcherNode != WriterNode && WriterNode != FinalNodeName && ResearcherNode != FinalNodeName;
    }
    assert g.edges[ResearcherNode] == WriterNode;
    assert g.edges[WriterNode] == FinalNodeName;
    assert Path(g, FinalNodeName, 1) == [FinalNodeName];
    assert Path(g, WriterNode, 2) == [WriterNode, FinalNodeName];
  }

  /** The update a node returns, by name. */
  function Step(node: string, s: State, llm: Llm, provider: SearchWeb.Provider): Result<Update>
  {
    if node == ResearcherNode then Researcher.ResearcherSpec(s, llm, provider)
    else if node == WriterNode then Ok(Writer.WriterAgent(s, llm))
    else if node == FinalNodeName then Ok(FinalNode(s))
    else Err("unknown node")
  }

  /** Running the nodes in order, merging each update before the next node
      runs; the first error ends the run. */
  function Run(nodes: seq<string>, init: State, llm: Llm, provider: SearchWeb.Provider): (r: Result<State>)
    ensures r.Ok? ==> |init.messages| <= |r.value.messages| && r.value.messages[..|init.messages|] == init.messages
    decreases |nodes|
  {
    if |nodes| == 0 then Ok(init)
    else
      match Run(nodes[..|nodes| - 1], init, llm, provider)
      case Err(e) => Err(e)
      case Ok(s) =>
        match Step(nodes[|nodes| - 1], s, llm, provider)
        case Err(e) => Err(e)
        case Ok(u) => Ok(Merge(s, u))
  }

  /** One invocation of the compiled pipeline. */
  function Pipeline(init: State, llm: Llm, provider: SearchWeb.Provider): (r: Result<State>)
    ensures r == Run([ResearcherNode, WriterNode, FinalNodeName], init, llm, provider)
  {
    WorkflowSchedule();
    Run(Schedule(BuildWorkflow()), init, llm, provider)
  }

  /** After an error, later nodes do not run. */
  lemma {:induction false} RunStops(nodes: seq<string>, n: nat, init: State, llm: Llm, provider: SearchWeb.Provider)
    requires n <= |nodes|
    requires Run(nodes[..n], init, llm, provider).Err?
    ensures Run(nodes, init, llm, provider) == Run(nodes[..n], init, llm, provider)
    decreases |nodes| - n
  {
    if n < |nodes| {
      assert nodes[..n + 1][..n] == nodes[..n];
      RunStops(nodes, n + 1, init, llm, provider);
    } else {
      assert nodes[..n] == nodes;
    }
  }

  /** Run one node by name on the current state. */
  method RunNode(node: string, s: State, llm: Llm, provider: SearchWeb.Provider) returns (update: Result<Update>)
    ensures update == Step(node, s, llm, provider)
  {
    if node == ResearcherNode {
      var searched;
      update, searched := Researcher.ResearcherAgent(s, llm, provider);
    } else if node == WriterNode {
      update := Ok(Writer.WriterAgent(s, llm));
    } else if node == FinalNodeName {
      update := Ok(FinalNode(s));
    } else {
      update := Err("unknown node");
    }
  }

  /** `invoke`: run the scheduled nodes one after the other, merging each
      node's update into the running state. */
  method Invoke(init: State, llm: Llm, provider: SearchWeb.Provider) returns (r: Result<State>)
    ensures r == Pipeline(init, llm, provider)
  {
    var order := Schedule(BuildWorkflow());
    var state := init;
    var i := 0;
    while i < |order|
      invariant 0 <= i <= |order|
      invariant Run(order[..i], init, llm, provider) == Ok(state)
    {
      var update := RunNode(order[i], state, llm, provider);
      assert order[..i + 1][..i] == order[..i];
      if update.Err? {
        RunStops(order, i + 1, init, llm, provider);
        return Err(update.error);
      }
      state := Merge(state, update.value);
      i := i + 1;
    }
    assert order[..i] == order;
    r := Ok(state);
  }

  /** The pipeline is the three nodes composed: the researcher's update, then
      the writer's, then the collector's, each merged in turn. */
  lemma PipelineComposition(init: State, llm: Llm, provider: SearchWeb.Provider)
    ensures Pipeline(init, llm, provider) ==
      match Researcher.ResearcherSpec(init, llm, provider)
      case Err(e) => Err(e)
      case Ok(u1) =>
        var s1 := Merge(init, u1);
        var s2 := Merge(s1, Writer.WriterAgent(s1, llm));
        Ok(Merge(s2, FinalNode(s2)))
  {
    WorkflowSchedule();
    var order := [ResearcherNode, WriterNode, FinalNodeName];
    assert order[..2] == [ResearcherNode, WriterNode];
    assert order[..2][..1] == [ResearcherNode];
    assert [ResearcherNode][..0] == [];
    assert Run([ResearcherNode], init, llm, provider) == match Researcher.ResearcherSpec(init, llm, provider)
      case Err(e) => Err(e)
      case Ok(u1) => Ok(Merge(init, u1));
    match Researcher.ResearcherSpec(init, llm, provider)
    case Err(e) =>
      assert Run(order[..2], init, llm, provider) == Err(e);
    case Ok(u1) =>
      var s1 := Merge(init, u1);
      var s2 := Merge(s1, Writer.WriterAgent(s1, llm));
      assert Run(order[..2], init, llm, provider) == Ok(s2);
      assert Run(order, init, llm, provider) == Ok(Merge(s2, FinalNode(s2)));
  }

  /** End to end: the run fails exactly when the researcher fails; otherwise
      the history is the initial messages, then the researcher's messages,
      then the writer's response, `final_answer` is the writer's response
      text (the collector agrees with the writer's own value), and
      `next_agent` is "writer". */
  lemma EndToEnd(init: State, llm: Llm, provider: SearchWeb.Provider)
    ensures Pipeline(init, llm, provider).Err? <==> Researcher.ResearcherSpec(init, llm, provider).Err?
    ensures Pipeline(init, llm, provider).Ok? ==>
      var u1 := Researcher.ResearcherSpec(init, llm, provider).value;
      var s1 := Merge(init, u1);
      var reply := llm(Writer.WriterRequest(s1));
      var f := Pipeline(init, llm, provider).value;
      f.messages == init.messages + u1.messages + [AsMessage(reply)]
      && f.finalAnswer == Some(reply.content)
      && f.finalAnswer == Writer.WriterAgent(s1, llm).finalAnswer
      && f.nextAgent == Some(Researcher.NextAgent)
  {
    PipelineComposition(init, llm, provider);
    if Researcher.ResearcherSpec(init, llm, provider).Ok? {
      var u1 := Researcher.ResearcherSpec(init, llm, provider).value;
      var s1 := Merge(init, u1);
      var s2 := Merge(s1, Writer.WriterAgent(s1, llm));
      Researcher.ResearcherOutput(init, llm, provider);
      Writer.WriterMerged(s1, llm);
      FinalNodeOnlyAnswer(s2);
      assert s2.messages[|s2.messages| - 1] == AsMessage(llm(Writer.WriterRequest(s1)));
    }
  }

  /** A question answered without tools: the researcher says "4.", the
      writer "The answer is 4."; the answer is the writer's and the history
      holds the question and both responses. */
  lemma ScenarioWithoutTools()
    ensures var llm: Llm := (req: Request) => if |req.prompt| == 2 then Reply("4.", []) else Reply("The answer is 4.", []);
      var provider: SearchWeb.Provider := (q: string) => [];
      var r := Pipeline(Initial([Human("What is 2+2?")]), llm, provider);
      r.Ok? && r.value.finalAnswer == Some("The answer is 4.") && |r.value.messages| == 3
  {
    var llm: Llm := (req: Request) => if |req.prompt| == 2 then Reply("4.", []) else Reply("The answer is 4.", []);
    var provider: SearchWeb.Provider := (q: string) => [];
    var init := Initial([Human("What is 2+2?")]);
    assert llm(Researcher.ResearcherRequest(init)) == Reply("4.", []);
    assert Researcher.ResearcherSpec(init, llm, provider) == Ok(Update([Assistant("4.", [])], Some(Researcher.NextAgent), None));
    var s1 := Merge(init, Update([Assistant("4.", [])], Some(Researcher.NextAgent), None));
    assert llm(Writer.WriterRequest(s1)) == Reply("The answer is 4.", []);
    EndToEnd(init, llm, provider);
  }

  /** One search call with one provider record: the researcher returns its
      response and the record's block as a human message. */
  lemma ScenarioWithSearch()
    ensures var call := ToolCall("search_web", map["query" := "X"]);
      var llm: Llm := (req: Request) => Reply("", [call]);
      var provider: SearchWeb.Provider := (q: string) => [map["title" := "T", "href" := "U", "body" := "S"]];
      var r := Researcher.ResearcherSpec(Initial([Human("Q")]), llm, provider);
      r.Ok? && |r.value.messages| == 2 && r.value.messages[1] == Human("Title: T\nURL: U\nSummary: S\n")
  {
    var call := ToolCall("search_web", map["query" := "X"]);
    var llm: Llm := (req: Request) => Reply("", [call]);
    var rec: SearchWeb.Record := map["title" := "T", "href" := "U", "body" := "S"];
    var provider: SearchWeb.Provider := (q: string) => [rec];
    assert [call][..0] == [];
    assert Researcher.Dispatch([call]) == Researcher.Dispatched(["X"], false);
    SearchWeb.SearchTextSmall([rec]);
    assert SearchWeb.FormatRecord(rec) == "Title: T\nURL: U\nSummary: S\n";
    assert Researcher.Outputs(["X"], provider) == ["Title: T\nURL: U\nSummary: S\n"];
  }
}
