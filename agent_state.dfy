/** The conversation state threaded through the pipeline, the messages it
    holds, the language-model capability's interface, and the merge that the
    graph applies to every partial update a node returns. */
module AgentState {

  datatype Option<+T> = None | Some(value: T)

  /** A node either returns an update or raises; the error text names the
      exception the source would raise. */
  datatype Result<+T> = Ok(value: T) | Err(error: string)

  /** A tool call requested by the model: the tool's name and its arguments. */
  datatype ToolCall = ToolCall(name: string, args: map<string, string>)

  /** The shapes a conversation entry can take. The first three are chat
      messages, which expose textual `content`; `Dict` is a plain key-value
      record; `Opaque` is any other value, carried with its string rendering. */
  datatype Message =
    | System(content: string)
    | Human(content: string)
    | Assistant(content: string, toolCalls: seq<ToolCall>)
    | Dict(entries: map<string, string>)
    | Opaque(rendering: string)

  /** What the language model is asked: the prompt and the names of the tools
      bound to it. */
  datatype Request = Request(prompt: seq<Message>, tools: seq<string>)

  /** What the language model answers: text and an optional list of tool calls. */
  datatype Reply = Reply(content: string, toolCalls: seq<ToolCall>)

  /** The language-model capability, opaque to the pipeline. */
  type Llm = Request -> Reply

  /** The reply as the assistant message the pipeline stores. */
  function AsMessage(reply: Reply): Message
  {
    Assistant(reply.content, reply.toolCalls)
  }

  /** The graph's state: the message history and two scalar fields; `None`
      stands for a key that is not set. */
  datatype State = State(messages: seq<Message>, nextAgent: Option<string>, finalAnswer: Option<string>)

  /** A node's partial update: messages to append, and the scalar keys it
      returned (`None` for a key it left out). */
  datatype Update = Update(messages: seq<Message>, nextAgent: Option<string>, finalAnswer: Option<string>)

  /** The state a caller starts from: the given messages and nothing else. */
  function Initial(messages: seq<Message>): State
  {
    State(messages, None, None)
  }

  function Override<T>(current: Option<T>, update: Option<T>): Option<T>
  {
    if update.Some? then update else current
  }

  /** The reducer applied after each node: `messages` is appended to, every
      scalar key present in the update overwrites the old value. */
  function Merge(s: State, u: Update): (r: State)
    ensures |r.messages| == |s.messages| + |u.messages|
    ensures r.messages[..|s.messages|] == s.messages && r.messages[|s.messages|..] == u.messages
    ensures u.nextAgent.None? ==> r.nextAgent == s.nextAgent
    ensures u.finalAnswer.None? ==> r.finalAnswer == s.finalAnswer
  {
    State(s.messages + u.messages, Override(s.nextAgent, u.nextAgent), Override(s.finalAnswer, u.finalAnswer))
  }

  /** Two updates applied one after the other, as one update. */
  function Combine(u1: Update, u2: Update): Update
  {
    Update(u1.messages + u2.messages, Override(u1.nextAgent, u2.nextAgent), Override(u1.finalAnswer, u2.finalAnswer))
  }

  /** The merge never reorders or drops messages: the old history is a prefix
      of the new one, the update follows it, and a scalar changes only when the
      update sets it. */
  lemma MergeAppendOnly(s: State, u: Update)
    ensures var r := Merge(s, u);
      |r.messages| == |s.messages| + |u.messages|
      && r.messages[..|s.messages|] == s.messages
      && r.messages[|s.messages|..] == u.messages
      && (u.nextAgent.None? ==> r.nextAgent == s.nextAgent)
      && (u.nextAgent.Some? ==> r.nextAgent == u.nextAgent)
      && (u.finalAnswer.None? ==> r.finalAnswer == s.finalAnswer)
      && (u.finalAnswer.Some? ==> r.finalAnswer == u.finalAnswer)
  {
  }

  /** Merging two updates in turn is merging their combination. */
  lemma MergeCombine(s: State, u1: Update, u2: Update)
    ensures Merge(Merge(s, u1), u2) == Merge(s, Combine(u1, u2))
  {
  }
}
