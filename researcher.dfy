/** The researcher node: ask the model, with the search tool bound, to answer
    the conversation; run one search for every `search_web` call it requests,
    in order; and return the model's message, followed by the joined search
    outputs as a human message when any search ran. */
module Researcher {
  import opened AgentState
  import opened Text
  import SearchWeb

  const SearchTool: string := "search_web"
  const NextAgent: string := "writer"
  const Instruction: string :=
    "You are a research assistant. "
    + "You must use the search_web tool to find fresh and relevant information before answering. "
    + "Do not answer based on your internal knowledge alone."
  /** The exception raised for a `search_web` call without a `query` argument. */
  const MissingQuery: string := "KeyError: 'query'"

  /** The model is asked with the fixed instruction first, then the
      conversation in its order, with the search tool bound. */
  function ResearcherRequest(s: State): (req: Request)
    ensures |req.prompt| == |s.messages| + 1
    ensures req.prompt[0] == System(Instruction) && req.prompt[1..] == s.messages
    ensures req.tools == [SearchTool]
  {
    Request([System(Instruction)] + s.messages, [SearchTool])
  }

  predicate HasQuery(call: ToolCall)
  {
    "query" in call.args
  }

  /** The calls named `search_web`, in call order. */
  function SearchCalls(calls: seq<ToolCall>): (r: seq<ToolCall>)
    ensures |r| <= |calls|
    ensures forall i :: 0 <= i < |r| ==> r[i].name == SearchTool
    ensures forall i :: 0 <= i < |calls| && calls[i].name == SearchTool ==> calls[i] in r
    decreases |calls|
  {
    if |calls| == 0 then []
    else
      var r := SearchCalls(calls[..|calls| - 1]);
      if calls[|calls| - 1].name == SearchTool then r + [calls[|calls| - 1]] else r
  }

  /** The position of the first call without a `query` argument, or the
      number of calls when every call has one. */
  function FirstMissing(calls: seq<ToolCall>): (k: nat)
    ensures k <= |calls|
    ensures forall j :: 0 <= j < k ==> HasQuery(calls[j])
    ensures k < |calls| ==> !HasQuery(calls[k])
    decreases |calls|
  {
    if |calls| == 0 then 0
    else
      var k := FirstMissing(calls[..|calls| - 1]);
      if k < |calls| - 1 then k
      else if HasQuery(calls[|calls| - 1]) then |calls|
      else |calls| - 1
  }

  /** The `query` argument of every call. */
  function Queries(calls: seq<ToolCall>): seq<string>
    requires forall i :: 0 <= i < |calls| ==> HasQuery(calls[i])
  {
    seq(|calls|, i requires 0 <= i < |calls| && HasQuery(calls[i]) => calls[i].args["query"])
  }

  /** The outcome of the tool-call loop: the queries sent to the search tool
      in order, and whether the loop stopped on a call without `query`. */
  datatype Dispatched = Dispatched(queries: seq<string>, missingQuery: bool)

  /** The tool-call loop, one call at a time: calls with another name are
      skipped, a `search_web` call sends its query, and one without a query
      ends the loop with the error. */
  function Dispatch(calls: seq<ToolCall>): (d: Dispatched)
    ensures |d.queries| <= |calls|
    decreases |calls|
  {
    if |calls| == 0 then Dispatched([], false)
    else
      var d := Dispatch(calls[..|calls| - 1]);
      var call := calls[|calls| - 1];
      if d.missingQuery || call.name != SearchTool then d
      else if !HasQuery(call) then Dispatched(d.queries, true)
      else Dispatched(d.queries + [call.args["query"]], false)
  }

  /** What the search tool returns for each query, in order. */
  function Outputs(queries: seq<string>, provider: SearchWeb.Provider): seq<string>
  {
    seq(|queries|, i requires 0 <= i < |queries| => SearchWeb.SearchText(provider(queries[i])))
  }

  /** The messages the node returns: the model's response, then the joined
      tool outputs as a human message when there are any. */
  function NewMessages(response: Message, outputs: seq<string>): seq<Message>
  {
    if |outputs| > 0 then [response, Human(Join(SearchWeb.Separator, outputs))] else [response]
  }

  /** The node's result for a state, a model and a search provider. */
  function ResearcherSpec(s: State, llm: Llm, provider: SearchWeb.Provider): (r: Result<Update>)
    ensures r.Ok? ==> 1 <= |r.value.messages| <= 2 && r.value.messages[0] == AsMessage(llm(ResearcherRequest(s)))
    ensures r.Ok? ==> r.value.nextAgent == Some(NextAgent) && r.value.finalAnswer == None
  {
    var reply := llm(ResearcherRequest(s));
    var d := Dispatch(reply.toolCalls);
    if d.missingQuery then Err(MissingQuery)
    else Ok(Update(NewMessages(AsMessage(reply), Outputs(d.queries, provider)), Some(NextAgent), None))
  }

  /** The loop against the filter: it sends exactly the queries of the
      `search_web` calls before the first one without a query, and fails
      exactly when there is such a call. */
  lemma {:induction false} DispatchMatchesFilter(calls: seq<ToolCall>)
    ensures var sc := SearchCalls(calls); var k := FirstMissing(sc);
      Dispatch(calls).missingQuery == (k < |sc|) && Dispatch(calls).queries == Queries(sc[..k])
    decreases |calls|
  {
    if |calls| > 0 {
      var init, call := calls[..|calls| - 1], calls[|calls| - 1];
      DispatchMatchesFilter(init);
      if call.name == SearchTool {
        assert SearchCalls(calls) == SearchCalls(init) + [call];
        FilterStep(SearchCalls(init), call, Dispatch(init));
      }
    }
  }

  /** One `search_web` call more: the loop's outcome and the filter's
      reading of it step together. */
  lemma FilterStep(sc0: seq<ToolCall>, call: ToolCall, d: Dispatched)
    requires d.missingQuery == (FirstMissing(sc0) < |sc0|) && d.queries == Queries(sc0[..FirstMissing(sc0)])
    ensures var sc, k := sc0 + [call], FirstMissing(sc0 + [call]);
      var d' := if d.missingQuery then d
                else if !HasQuery(call) then Dispatched(d.queries, true)
                else Dispatched(d.queries + [call.args["query"]], false);
      d'.missingQuery == (k < |sc|) && d'.queries == Queries(sc[..k])
  {
    var sc := sc0 + [call];
    var k0 := FirstMissing(sc0);
    assert sc[..|sc| - 1] == sc0;
    var k := FirstMissing(sc);
    if k0 < |sc0| {
      assert k == k0;
      assert sc[..k] == sc0[..k0];
    } else if !HasQuery(call) {
      assert k == |sc0|;
      assert sc[..k] == sc0[..k0];
    } else {
      assert k == |sc|;
      assert sc[..k] == sc0 + [call];
      assert sc0[..k0] == sc0;
      assert Queries(sc[..k]) == Queries(sc0[..k0]) + [call.args["query"]];
    }
  }

  /** The filter keeps order: filtering two runs of calls one after the
      other gives the two filtered runs one after the other. */
  lemma {:induction false} SearchCallsAppend(a: seq<ToolCall>, b: seq<ToolCall>)
    ensures SearchCalls(a + b) == SearchCalls(a) + SearchCalls(b)
    decreases |b|
  {
    if |b| > 0 {
      var b0 := b[..|b| - 1];
      SearchCallsAppend(a, b0);
      assert (a + b)[..|a + b| - 1] == a + b0;
    } else {
      assert a + b == a;
    }
  }

  /** No call is named `search_web` exactly when the filter is empty. */
  lemma {:induction false} SearchCallsEmpty(calls: seq<ToolCall>)
    ensures SearchCalls(calls) == [] <==> forall i :: 0 <= i < |calls| ==> calls[i].name != SearchTool
    decreases |calls|
  {
    if |calls| > 0 {
      var init := calls[..|calls| - 1];
      SearchCallsEmpty(init);
      if SearchCalls(calls) == [] {
        forall i | 0 <= i < |calls| ensures calls[i].name != SearchTool {
          if i < |calls| - 1 {
            assert calls[i] == init[i];
          }
        }
      }
      if forall i :: 0 <= i < |calls| ==> calls[i].name != SearchTool {
        forall i | 0 <= i < |init| ensures init[i].name != SearchTool {
          assert init[i] == calls[i];
        }
      }
    }
  }

  /** Once the loop has stopped on a missing query, later calls change nothing. */
  lemma {:induction false} DispatchStops(calls: seq<ToolCall>, n: nat)
    requires n <= |calls|
    requires Dispatch(calls[..n]).missingQuery
    ensures Dispatch(calls) == Dispatch(calls[..n])
    decreases |calls| - n
  {
    if n < |calls| {
      assert calls[..n + 1][..n] == calls[..n];
      DispatchStops(calls, n + 1);
    } else {
      assert calls[..n] == calls;
    }
  }

  /** The node itself: ask the model, run the searches its tool calls ask
      for, and build the returned messages. `searched` lists the queries sent
      to the provider, in order, including those sent before a failure. */
  method ResearcherAgent(s: State, llm: Llm, provider: SearchWeb.Provider)
    returns (r: Result<Update>, searched: seq<string>)
    ensures searched == Dispatch(llm(ResearcherRequest(s)).toolCalls).queries
    ensures r == ResearcherSpec(s, llm, provider)
  {
    var reply := llm(ResearcherRequest(s));
    var response := AsMessage(reply);
    var calls := reply.toolCalls;
    var toolResults: seq<string> := [];
    searched := [];
    var i := 0;
    while i < |calls|
      invariant 0 <= i <= |calls|
      invariant Dispatch(calls[..i]) == Dispatched(searched, false)
      invariant toolResults == Outputs(searched, provider)
    {
      var call := calls[i];
      assert calls[..i + 1][..i] == calls[..i];
      if call.name == SearchTool {
        if "query" !in call.args {
          DispatchStops(calls, i + 1);
          return Err(MissingQuery), searched;
        }
        var query := call.args["query"];
        var result := SearchWeb.Search(provider(query));
        toolResults := toolResults + [result];
        searched := searched + [query];
      }
      i := i + 1;
    }
    assert calls[..i] == calls;
    var newMessages;
    if |toolResults| > 0 {
      var toolOutput := Join(SearchWeb.Separator, toolResults);
      newMessages := [response, Human(toolOutput)];
    } else {
      newMessages := [response];
    }
    r := Ok(Update(newMessages, Some(NextAgent), None));
  }

  /** What the node returns, for every model reply: it fails exactly when a
      `search_web` call lacks a query; otherwise it returns one or two
      messages, the first the model's response, the second present exactly
      when some `search_web` call was made (even if every search came back
      empty) and then holding the searches' outputs for those calls, in call
      order, joined by a blank line; `next_agent` is always "writer". */
  lemma ResearcherOutput(s: State, llm: Llm, provider: SearchWeb.Provider)
    ensures var reply := llm(ResearcherRequest(s));
      var sc := SearchCalls(reply.toolCalls);
      (ResearcherSpec(s, llm, provider).Err? <==> exists i :: 0 <= i < |sc| && !HasQuery(sc[i]))
      && (ResearcherSpec(s, llm, provider).Ok? ==>
            var u := ResearcherSpec(s, llm, provider).value;
            1 <= |u.messages| <= 2
            && u.messages[0] == AsMessage(reply)
            && u.nextAgent == Some(NextAgent)
            && u.finalAnswer == None
            && (|u.messages| == 2 <==> sc != [])
            && (|u.messages| == 2 ==>
                  u.messages[1] == Human(Join(SearchWeb.Separator, Outputs(Queries(sc), provider)))))
  {
    var reply := llm(ResearcherRequest(s));
    var sc := SearchCalls(reply.toolCalls);
    DispatchMatchesFilter(reply.toolCalls);
    var k := FirstMissing(sc);
    if k == |sc| {
      assert sc[..k] == sc;
    }
  }

  /** A reply with no `search_web` call, or no tool call at all, gives back
      exactly the model's response and runs no search. */
  lemma NoSearchCall(s: State, llm: Llm, provider: SearchWeb.Provider)
    requires forall i :: 0 <= i < |llm(ResearcherRequest(s)).toolCalls| ==> llm(ResearcherRequest(s)).toolCalls[i].name != SearchTool
    ensures Dispatch(llm(ResearcherRequest(s)).toolCalls).queries == []
    ensures ResearcherSpec(s, llm, provider) == Ok(Update([AsMessage(llm(ResearcherRequest(s)))], Some(NextAgent), None))
  {
    var calls := llm(ResearcherRequest(s)).toolCalls;
    SearchCallsEmpty(calls);
    DispatchMatchesFilter(calls);
    assert SearchCalls(calls)[..0] == [];
  }

  /** When every `search_web` call has a query, the provider is asked once
      per such call, with its query, in call order. */
  lemma OneSearchPerCall(calls: seq<ToolCall>)
    requires forall i :: 0 <= i < |SearchCalls(calls)| ==> HasQuery(SearchCalls(calls)[i])
    ensures !Dispatch(calls).missingQuery
    ensures |Dispatch(calls).queries| == |SearchCalls(calls)|
    ensures forall i :: 0 <= i < |SearchCalls(calls)| ==> "query" in SearchCalls(calls)[i].args && Dispatch(calls).queries[i] == SearchCalls(calls)[i].args["query"]
  {
    DispatchMatchesFilter(calls);
    assert SearchCalls(calls)[..|SearchCalls(calls)|] == SearchCalls(calls);
  }
}
