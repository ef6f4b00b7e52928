/** The writer node: ask the model, with no tools, to summarise the
    conversation, and return its message and its text as the final answer. */
module Writer {
  import opened AgentState

  const Instruction: string := "You are a technical writer. Create a concise summary of the findings."

  /** The model is asked with the fixed instruction first, then the
      conversation in its order, with no tool bound. */
  function WriterRequest(s: State): (req: Request)
    ensures |req.prompt| == |s.messages| + 1
    ensures req.prompt[0] == System(Instruction) && req.prompt[1..] == s.messages
    ensures req.tools == []
  {
    Request([System(Instruction)] + s.messages, [])
  }

  /** The node returns exactly one message, the model's response, and sets
      `final_answer` to that message's text; it does not return `next_agent`. */
  function WriterAgent(s: State, llm: Llm): (u: Update)
    ensures |u.messages| == 1 && u.messages[0].Assistant?
    ensures u.messages == [AsMessage(llm(WriterRequest(s)))]
    ensures u.messages[0].content == llm(WriterRequest(s)).content
    ensures u.finalAnswer == Some(u.messages[0].content)
    ensures u.nextAgent == None
  {
    var reply := llm(WriterRequest(s));
    Update([AsMessage(reply)], None, Some(reply.content))
  }

  /** After the writer's update is merged, the history has grown by the
      response alone, `final_answer` is its text, and `next_agent` is what it
      was before. */
  lemma WriterMerged(s: State, llm: Llm)
    ensures var reply := llm(WriterRequest(s)); var r := Merge(s, WriterAgent(s, llm));
      r.messages == s.messages + [AsMessage(reply)]
      && r.finalAnswer == Some(reply.content)
      && r.nextAgent == s.nextAgent
  {
  }
}
