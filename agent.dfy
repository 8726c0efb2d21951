/** `run_agent` of `agent.py`: builds the prior-exchange context block, calls
    the SQL agent with the question and that block, and turns what the call
    does (return or raise) into the success/error result the front end reads.
    The agent itself (`agent.invoke`, with its model and tool loop) is a
    parameter. */
module Agent {
  import opened Wrappers
  import opened Text

  /** One tool invocation of the agent's trace: the tool's name and its
      output. */
  datatype Step = Step(tool: string, output: string)

  /** One entry of the session's history, as the front end records it. */
  datatype Exchange = Exchange(
    question: string,
    answer: string,
    success: bool,
    steps: seq<Step>,
    useHistory: bool)

  /** What `agent.invoke` does: return a dictionary (whose "output" and
      "intermediate_steps" keys may each be missing) or raise an exception,
      whose `str` is `message`. */
  datatype AgentReply =
    | Returned(output: Option<string>, steps: Option<seq<Step>>)
    | Raised(message: string)

  /** The dictionary `run_agent` returns: on success the keys `success`,
      `output`, `intermediate_steps`; on failure only `success` and `error`. */
  datatype RunResult =
    | Succeeded(output: string, steps: seq<Step>)
    | Failed(error: string)

  const ContextHeader := "Previous Q&A for context:\n"
  const ContextFooter := "\nUse this context only if relevant to the current query."
  const ErrorPrefix := "Error: "
  /** `str(KeyError('output'))`: what a reply without "output" raises. */
  const MissingOutputMessage := "'output'"

  /** One history entry as it appears in the context block. */
  function RenderExchange(e: Exchange): (line: string)
    ensures "Q: " + e.question + "\nA: " <= line
    ensures |line| == |"Q: " + e.question + "\nA: "| + |e.answer|
    ensures line[|line| - |e.answer|..] == e.answer
  {
    "Q: " + e.question + "\nA: " + e.answer
  }

  function RenderAll(history: seq<Exchange>): (lines: seq<string>)
    ensures |lines| == |history|
    ensures forall i :: 0 <= i < |history| ==> lines[i] == RenderExchange(history[i])
  {
    seq(|history|, i requires 0 <= i < |history| => RenderExchange(history[i]))
  }

  lemma RenderAllConcat(a: seq<Exchange>, b: seq<Exchange>)
    ensures RenderAll(a + b) == RenderAll(a) + RenderAll(b)
  {
    assert forall i :: 0 <= i < |a + b| ==> RenderAll(a + b)[i] == (RenderAll(a) + RenderAll(b))[i];
  }

  /** The context block: empty unless history is asked for and there is some;
      otherwise a header, every entry of the history in order, one per line,
      and a footer. */
  function BuildContext(useHistory: bool, history: Option<seq<Exchange>>): (context: string)
    ensures context != "" <==> useHistory && history.Some? && history.value != []
    ensures context != "" ==>
      context == ContextHeader + Join("\n", RenderAll(history.value)) + ContextFooter
  {
    if useHistory && history.Some? && history.value != [] then
      ContextHeader + Join("\n", RenderAll(history.value)) + ContextFooter
    else
      ""
  }

  /** The try/except around the agent call: a reply with an output succeeds
      (missing steps default to none); a raised exception, or a reply without
      "output" (whose lookup raises inside the try), fails with "Error: "
      followed by the exception's text. */
  function ShapeReply(reply: AgentReply): (r: RunResult)
    ensures r.Succeeded? <==> reply.Returned? && reply.output.Some?
    ensures r.Succeeded? ==> r.output == reply.output.value
    ensures r.Succeeded? && reply.steps.Some? ==> r.steps == reply.steps.value
    ensures r.Succeeded? && reply.steps.None? ==> r.steps == []
    ensures reply.Raised? ==> r == Failed(ErrorPrefix + reply.message)
    ensures reply.Returned? && reply.output.None? ==> r == Failed(ErrorPrefix + MissingOutputMessage)
  {
    match reply
    case Raised(message) => Failed(ErrorPrefix + message)
    case Returned(output, steps) =>
      match output
      case None => Failed(ErrorPrefix + MissingOutputMessage)
      case Some(text) => Succeeded(text, steps.GetOr([]))
  }

  /** `run_agent`: the question goes to the agent unchanged, together with the
      context block; the outcome is shaped into a result. */
  function RunAgent(
    query: string,
    useHistory: bool,
    history: Option<seq<Exchange>>,
    invoke: (string, string) -> AgentReply): (r: RunResult)
    ensures r == ShapeReply(invoke(query, BuildContext(useHistory, history)))
    ensures !useHistory || history.None? || history == Some([]) ==>
      r == ShapeReply(invoke(query, ""))
    ensures r.Failed? ==> ErrorPrefix <= r.error
  {
    var context := BuildContext(useHistory, history);
    ShapeReply(invoke(query, context))
  }

  /** Every entry of a non-empty history is quoted in the context block. */
  lemma {:induction false} ContextQuotesEveryEntry(history: seq<Exchange>, k: nat)
    requires k < |history|
    ensures IsSubstring(RenderExchange(history[k]), BuildContext(true, Some(history)))
  {
    var lines := RenderAll(history);
    JoinContainsPart("\n", lines, k);
    SubstringOfConcat(lines[k], ContextHeader, Join("\n", lines), ContextFooter);
  }

  /** The context block keeps history order: the entries of an earlier part
      of the history come first, then one line break, then the later part. */
  lemma {:induction false} ContextKeepsOrder(older: seq<Exchange>, newer: seq<Exchange>)
    requires older != [] && newer != []
    ensures BuildContext(true, Some(older + newer)) ==
      ContextHeader + Join("\n", RenderAll(older)) + "\n" + Join("\n", RenderAll(newer)) + ContextFooter
  {
    var all, a, b := older + newer, RenderAll(older), RenderAll(newer);
    RenderAllConcat(older, newer);
    JoinConcat("\n", a, b);
    assert Join("\n", RenderAll(all)) == Join("\n", a) + "\n" + Join("\n", b);
    assert BuildContext(true, Some(all)) == ContextHeader + Join("\n", RenderAll(all)) + ContextFooter;
  }

  /** The whole block for a one-entry history. */
  lemma SingleEntryContext(e: Exchange)
    ensures BuildContext(true, Some([e])) ==
      "Previous Q&A for context:\nQ: " + e.question + "\nA: " + e.answer
      + "\nUse this context only if relevant to the current query."
  {
    assert RenderAll([e]) == [RenderExchange(e)];
  }
}
