# Multi-agent research pipeline, modelled in Dafny

This project models the orchestration core of a two-agent research
assistant. A conversation state (a message history plus the scalar fields
`next_agent` and `final_answer`) is run through a fixed graph:

- the **researcher** node asks the language model, with the `search_web` tool
  bound, to answer the conversation, runs one web search per `search_web`
  tool call, and returns the model's message plus, when any search ran, the
  joined search outputs as a human message;
- the **writer** node asks the language model, without tools, for a summary
  and returns its message and its text as `final_answer`;
- the **collector** (`final_node`) sets `final_answer` from the last entry of
  the history, or to `"No answer produced."` when there is none.

Every node returns a partial update. The graph merges it into the running
state by appending to `messages` and overwriting each scalar key the update
sets. The `search_web` tool renders each provider record as a
`Title/URL/Summary` block and joins the blocks with a blank line. The
`write_summary` tool adds a header, keeps at most 500 characters and appends
`"..."`.

The language model is a parameter `llm: Request -> Reply`. A request is the
prompt plus the names of the bound tools. A reply is text plus tool calls.
The search provider is a parameter `provider: string -> seq<Record>`. Both
are total functions, so the model assumes they are deterministic.

Files:

- `agent_state.dfy`: messages, state, update, and the merge reducer.
- `text.dfy`: `sep.join(parts)`.
- `search_web.dfy`: the search tool.
- `summarizer.dfy`: the summary tool.
- `researcher.dfy`: the researcher node.
- `writer.dfy`: the writer node.
- `graph.dfy`: the collector, the workflow graph, and `invoke`.

The nodes whose source works step by step are methods proved against a
specification function: `SearchWeb.Search` against `SearchText`,
`Researcher.ResearcherAgent` against `ResearcherSpec`, and `Graph.Invoke`
against `Pipeline`. The lemmas state their properties about those functions.

Two facts about the code that the model keeps:

- Provider records are read with the keys `title`, `href` and `body`.
- The researcher adds the human message whenever at least one `search_web`
  call ran, even if every output is the empty string.

## Model

| member | source | states |
|---|---|---|
| AgentState.MergeAppendOnly | workflow/state.py:4 | Merging an update keeps the old history as a prefix, followed by exactly the update's messages. A scalar changes only when the update sets it. |
| AgentState.Merge | workflow/state.py:4 | The defining function of the reducer. The old history is kept as a prefix and the update's messages follow it. A scalar the update leaves out keeps its old value. |
| AgentState.MergeCombine | workflow/state.py:4 | A law of the reducer that the source does not rely on: merging two updates in turn equals merging their combination (appended messages, later scalars win). |
| Text.JoinLength | tools/search_web.py:20 | A join has the parts' total length plus one separator between each pair of neighbours. |
| Text.JoinFront | agents/researcher.py:31 | A join of two or more parts is the first part, a separator, and the join of the rest. |
| Text.JoinSnoc | agents/researcher.py:31 | Joining one more part adds one separator and that part at the end. |
| SearchWeb.FormatRecord | tools/search_web.py:14-18 | The defining function of one record's block. Its length is 24 plus the three fields' lengths, it starts with "Title: " and it ends with a newline. |
| SearchWeb.SearchText | tools/search_web.py:11-20 | The defining function of the tool's output. The output is empty exactly when the provider returned no records. |
| SearchWeb.Blocks | tools/search_web.py:11-19 | There is one block per provider record, in provider order, and block i is record i's rendering. |
| SearchWeb.Search | tools/search_web.py:7-20 | The tool's loop returns the blocks of all records joined by a blank line. |
| SearchWeb.FormatRecordLayout | tools/search_web.py:18 | A block is "Title: ", the title, "\nURL: ", the href, "\nSummary: ", the body, and a final newline, at fixed offsets. Its length is 24 plus the three fields' lengths. |
| SearchWeb.MissingFieldIsEmpty | tools/search_web.py:14-16 | A missing title, href or body renders exactly as the empty string. |
| SearchWeb.OnlyRenderedFieldsMatter | tools/search_web.py:13-18 | Records that agree on title, href and body render identically; other keys are ignored. |
| SearchWeb.SearchTextSmall | tools/search_web.py:20 | No records give ""; one record gives exactly its block, with no separator. |
| SearchWeb.SearchTextSnoc | tools/search_web.py:12-20 | Each further record adds a blank line and its block at the end. |
| SearchWeb.SearchTextFront | tools/search_web.py:20 | The output starts with the first record's block, then a blank line and the rest in order. |
| Summarizer.WriteSummary | tools/summarizer.py:4-7 | The output is the 22-character header, the first min(len, 500) characters of the content, and "...". Its length is 25 + min(len, 500), so at most 525. Content of 500 characters or fewer is kept whole. |
| Summarizer.SummaryBodyRoundTrip | tools/summarizer.py:6 | The body recovered from a summary is the content itself when it is at most 500 characters long, and otherwise its first 500 characters. Longer content has the same summary as that prefix. |
| Researcher.ResearcherRequest | agents/researcher.py:10-17 | The model is asked with the fixed research instruction first, then the state's messages in order, with the search tool bound. |
| Researcher.SearchCalls | agents/researcher.py:22-23 | Every call named "search_web" is kept and every kept call is named "search_web". The filtered list is no longer than the calls. |
| Researcher.Dispatch | agents/researcher.py:21-26 | The defining function of the tool-call loop, one call at a time. It sends at most one query per call. Its meaning is proved in DispatchMatchesFilter. |
| Researcher.SearchCallsAppend | agents/researcher.py:22-23 | Filtering keeps order: the filter of two runs of calls is the two filtered runs one after the other. |
| Researcher.FirstMissing | agents/researcher.py:24 | Every call before the returned position has a "query" argument, and the call at that position (if any) lacks one. |
| Researcher.ResearcherSpec | agents/researcher.py:8-39 | The defining function of the node. On success it returns one or two messages, the first being the model's response, sets next_agent to "writer" and leaves final_answer unset. |
| Researcher.DispatchMatchesFilter | agents/researcher.py:21-26 | The tool-call loop sends exactly the queries of the "search_web" calls before the first one without a query, in call order. It fails exactly when such a call exists. |
| Researcher.SearchCallsEmpty | agents/researcher.py:21-23 | No call is named "search_web" exactly when the filtered list is empty. |
| Researcher.DispatchStops | agents/researcher.py:24 | Once a call without a query has raised, later calls send no search. |
| Researcher.ResearcherAgent | agents/researcher.py:8-39 | The node's loop sends exactly the dispatched queries, in order, including those sent before a failure. Its result is the node's specification. |
| Researcher.ResearcherOutput | agents/researcher.py:21-38 | The node fails exactly when a "search_web" call lacks a query. Otherwise it returns one or two messages, the first being the model's response, and next_agent "writer". The second message, a human message of the joined search outputs in call order, is present exactly when some "search_web" call was made. |
| Researcher.NoSearchCall | agents/researcher.py:21-34 | With no "search_web" call (or no tool call at all) no search runs and the messages are exactly [response]. |
| Researcher.OneSearchPerCall | agents/researcher.py:22-26 | When every "search_web" call has a query, the provider is asked once per such call, with that call's query, in call order. |
| Writer.WriterRequest | agents/writer.py:8-11 | The model is asked with the fixed summary instruction first, then the state's messages in order, with no tools bound. |
| Writer.WriterAgent | agents/writer.py:6-16 | The node returns exactly one message, the model's response with its text and tool calls. final_answer is that message's text, and next_agent is not returned. |
| Writer.WriterMerged | agents/writer.py:13-16 | After merging, the history has grown by the response alone, final_answer is its text, and next_agent is unchanged. |
| Graph.ContentOf | workflow/graph.py:11-16 | The defining function of one entry's text. A chat message gives its content, and a plain record without "content" gives "". |
| Graph.Collect | workflow/graph.py:8-18 | The defining function of the collector's answer. With no messages it is "No answer produced."; the other cases are proved in CollectCases. |
| Graph.FinalNode | workflow/graph.py:7-19 | The collector's update sets final_answer and no other field. With no messages, the answer is "No answer produced.". |
| Graph.CollectCases | workflow/graph.py:8-18 | No messages give the sentinel. A last chat message gives its content. A last plain record gives its "content" entry, or "" without one. Any other last entry gives its string rendering. |
| Graph.CollectLastOnly | workflow/graph.py:10 | Histories that end in the same entry give the same answer. |
| Graph.FinalNodeOnlyAnswer | workflow/graph.py:19 | Merging the collector's update changes final_answer alone. |
| Graph.BuildWorkflow | workflow/graph.py:21-35 | The defining function of the built graph. Its entry point is one of its nodes, every node has exactly one outgoing edge, and every edge leads to a node or to END. |
| Graph.WorkflowSchedule | workflow/graph.py:21-35 | Following the built graph's edges from its entry point visits researcher, writer and final_node, in that order and each once. final_node's edge leads to END. |
| Graph.Run | workflow/graph.py:30-35 | The defining function of a run over a list of nodes. A successful run only appends to the initial history. |
| Graph.Pipeline | workflow/graph.py:30-35 | The defining function of one invocation. It runs researcher, writer and final_node, in that order. |
| Graph.RunNode | workflow/graph.py:25-27 | Running a node by name gives that node's update. |
| Graph.RunStops | workflow/graph.py:30-33 | After a node raises, no later node runs and the error is the run's result. |
| Graph.Invoke | workflow/graph.py:21-35 | Invoking the compiled graph runs the scheduled nodes in turn and merges each update. It equals the pipeline's specification. |
| Graph.PipelineComposition | workflow/graph.py:30-33 | The pipeline is the researcher's update, then the writer's, then the collector's, each merged in turn. It has no branch or cycle. |
| Graph.EndToEnd | workflow/graph.py:30-33 | The run fails exactly when the researcher fails. Otherwise the history is the initial messages, then the researcher's messages, then the writer's response. final_answer is the writer's response text and agrees with the writer's own value. next_agent is "writer". |
| Graph.ScenarioWithoutTools | workflow/graph.py:21-35 | A question answered without tools, with replies "4." then "The answer is 4.", ends with final_answer "The answer is 4." and three messages. |
| Graph.ScenarioWithSearch | agents/researcher.py:21-32 | One search call whose provider returns one record {T, U, S} gives two messages. The second is "Title: T\nURL: U\nSummary: S\n". |

## Left out

- The language model and the search provider are parameters. Their internals are not modelled: model initialisation, tool binding, network calls, authentication and retries. The model treats both as deterministic.
- The failures of the language model and of the search provider are not modelled. Neither are errors in the provider's records. The only error modelled is the `KeyError` of a `search_web` call without a `query` argument.
- Provider record values are strings. A non-string value, such as `None`, which the source would render as `"None"`, is not modelled.
- Tool-call arguments are string-valued. A non-string `query`, and the tool-argument validation that would reject it, are not modelled.
- Message `content` is a string. List-valued message content is not modelled.
- The real message reducer also replaces messages by ID and converts dict inputs into message objects. The merge here is a plain append for `messages` and an overwrite for the scalar keys.
- `build_workflow` is a graph value whose schedule is computed by following edges. The builder's in-place method calls, graph compilation and validation are not modelled.
- The error branch of `Graph.Step` for a node name outside the graph is a modelling convenience. The built graph never reaches it.
- `app.py` (the Streamlit interface, charts, timing, random tips and the catch-all around `invoke`), `main.py` (prints one result) and `config.py` (reads the API key) are I/O and configuration. They are not part of this model.
- `write_summary` is defined as a tool but never bound to a model in the pipeline. It is modelled on its own.
