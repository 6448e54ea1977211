/** The communication agent (agents/communication_agent.py): a bounded decision loop that
    alternates between asking the language model for its next step, parsing the reply,
    and dispatching to a named tool, with every step logged in an append-only history.

    The language model is passed to each query as a function of the call number within
    the query and the prompt; a call that raises is an `Outcome.Raised`. Tools are
    functions from their query to a result or a raised exception. `json.dumps` is the
    injected `dumps`. */
module Communication {
  import opened Wrappers
  import opened Text
  import opened ToolPattern

  /** HumanMessage (User) or AIMessage (Assistant). */
  datatype Role = User | Assistant

  /** One logged turn of the conversation. */
  datatype Message = Message(role: Role, content: string)

  /** What a tool's `process_request` may return: a message object, a dictionary
      record, or any other value (given by its `str()`). */
  datatype ToolResult =
    | AiMessage(content: string)
    | Record(fields: seq<(string, string)>)
    | Other(text: string)

  /** A registered tool: its class docstring and its `process_request`. */
  datatype Tool = Tool(doc: Option<string>, processRequest: string -> Outcome<ToolResult>)

  datatype ToolEntry = ToolEntry(name: string, tool: Tool)

  /** The language model: call number within the query and prompt to its reply's content. */
  type LanguageModel = (nat, string) -> Outcome<string>

  /** `json.dumps` on a record; it may raise. */
  type JsonDumps = seq<(string, string)> -> Outcome<string>

  const AnswerMarker: string := "ANSWER:"
  const ThoughtTag: string := "[Thought]: "
  const FinalAnswerTag: string := "[Final Answer]: "
  const ErrorTag: string := "[Error]: "
  const ToolResultTag: string := "[Tool Result for "
  const ParseErrorMessage: string := "Output does not match ANSWER: or TOOL: ... QUERY: ... format"
  const Fallback: string :=
    "I'm sorry, but I seem to be stuck. Could you please try rephrasing your request?"
  const NoDescription: string := "No description available"

  // ---------------------------------------------------------------------------
  // The tool registry

  /** The registry is a dictionary: no name appears twice. */
  predicate UniqueNames(tools: seq<ToolEntry>) {
    forall i, j :: 0 <= i < j < |tools| ==> tools[i].name != tools[j].name
  }

  predicate Registered(tools: seq<ToolEntry>, name: string) {
    exists i :: 0 <= i < |tools| && tools[i].name == name
  }

  /** `self.tools[name]` if `name in self.tools`. */
  function Lookup(tools: seq<ToolEntry>, name: string): (r: Option<Tool>)
    ensures r.Some? <==> Registered(tools, name)
    ensures r.Some? ==> exists i :: 0 <= i < |tools| && tools[i].name == name && tools[i].tool == r.value
  {
    if |tools| == 0 then None
    else if tools[0].name == name then Some(tools[0].tool)
    else
      var r := Lookup(tools[1..], name);
      assert forall i :: 0 <= i < |tools| - 1 ==> tools[1..][i] == tools[i + 1];
      assert Registered(tools, name) ==> Registered(tools[1..], name) by {
        if Registered(tools, name) {
          var i :| 0 <= i < |tools| && tools[i].name == name;
          assert tools[1..][i - 1].name == name;
        }
      }
      r
  }

  // ---------------------------------------------------------------------------
  // Normalising a tool's result and the entries the loop logs

  /** The normalisation of a tool's result to text: a message gives its content, a
      record its JSON text, anything else its `str()`. */
  function ToText(r: ToolResult, dumps: JsonDumps): Outcome<string> {
    match r
    case AiMessage(content) => Ok(content)
    case Record(fields) => dumps(fields)
    case Other(text) => Ok(text)
  }

  function ToolResultEntry(name: string, text: string): string {
    ToolResultTag + name + "]: " + text
  }

  function UnknownToolEntry(name: string): string {
    ErrorTag + "Attempted to use unknown tool: " + name
  }

  function ExecutionErrorEntry(error: string): string {
    ErrorTag + "Could not parse or execute tool. Error: " + error
  }

  function Thought(output: string): Message {
    Message(Assistant, ThoughtTag + output)
  }

  function FinalAnswer(answer: string): Message {
    Message(Assistant, FinalAnswerTag + answer)
  }

  // ---------------------------------------------------------------------------
  // One decision

  /** What one model output leads to: the final answer, or an entry to log (and the
      tool call made, if one was made) before the next turn. */
  datatype Decision = Finish(answer: string) | Continue(entry: string, call: Option<ToolCall>)

  /** The entry logged after calling a registered tool: its normalised result, or the
      error if the tool or the normalisation raised. */
  function DispatchEntry(tool: Tool, call: ToolCall, dumps: JsonDumps): string {
    match tool.processRequest(call.query)
    case Raised(e) => ExecutionErrorEntry(e)
    case Ok(result) =>
      match ToText(result, dumps)
      case Ok(text) => ToolResultEntry(call.name, text)
      case Raised(e) => ExecutionErrorEntry(e)
  }

  /** The decision taken on a (stripped) model output. */
  function Decide(tools: seq<ToolEntry>, dumps: JsonDumps, output: string): Decision {
    if Contains(output, AnswerMarker) then Finish(Strip(After(output, AnswerMarker)))
    else
      match ParseTool(output)
      case None => Continue(ExecutionErrorEntry(ParseErrorMessage), None)
      case Some(call) =>
        match Lookup(tools, call.name)
        case None => Continue(UnknownToolEntry(call.name), None)
        case Some(tool) => Continue(DispatchEntry(tool, call, dumps), Some(call))
  }

  /** In a dictionary every registered name finds its own tool. */
  lemma {:induction false} LookupUnique(tools: seq<ToolEntry>, j: nat)
    requires UniqueNames(tools) && j < |tools|
    ensures Lookup(tools, tools[j].name) == Some(tools[j].tool)
    decreases |tools|
  {
    if j > 0 {
      assert tools[0].name != tools[j].name;
      assert UniqueNames(tools[1..]) by {
        forall a, b | 0 <= a < b < |tools| - 1 ensures tools[1..][a].name != tools[1..][b].name {
          assert tools[1..][a] == tools[a + 1] && tools[1..][b] == tools[b + 1];
        }
      }
      LookupUnique(tools[1..], j - 1);
      assert tools[1..][j - 1] == tools[j];
    }
  }

  /** `ANSWER:` takes precedence over any tool call in the same output: the decision is
      to finish, with the stripped text after the first `ANSWER:`. */
  lemma DecideAnswer(tools: seq<ToolEntry>, dumps: JsonDumps, output: string)
    requires Contains(output, AnswerMarker)
    ensures exists i :: HasAt(output, i, AnswerMarker) && (forall j :: 0 <= j < i ==> !HasAt(output, j, AnswerMarker))
                        && Decide(tools, dumps, output) == Finish(Strip(output[i + |AnswerMarker|..]))
  {
  }

  /** Without `ANSWER:` and without any match of the tool pattern, the parse error is
      logged, no tool is called and the loop goes on. */
  lemma DecideParseError(tools: seq<ToolEntry>, dumps: JsonDumps, output: string)
    requires !Contains(output, AnswerMarker)
    requires forall m :: !IsMatch(output, m)
    ensures Decide(tools, dumps, output) == Continue(ExecutionErrorEntry(ParseErrorMessage), None)
  {
  }

  /** A matched name that is not registered logs the unknown-tool error and calls no tool. */
  lemma DecideUnknownTool(tools: seq<ToolEntry>, dumps: JsonDumps, output: string, m: Span)
    requires !Contains(output, AnswerMarker)
    requires IsReported(output, m) && !Registered(tools, Groups(output, m).name)
    ensures Decide(tools, dumps, output) == Continue(UnknownToolEntry(Groups(output, m).name), None)
  {
    var m' :| IsReported(output, m') && ParseTool(output).value == Groups(output, m');
    ReportedUnique(output, m, m');
  }

  /** A matched, registered name calls that tool once, on the stripped query, and logs
      its normalised result (or the error it raised). */
  lemma DecideKnownTool(tools: seq<ToolEntry>, dumps: JsonDumps, output: string, m: Span, j: nat)
    requires UniqueNames(tools)
    requires !Contains(output, AnswerMarker)
    requires IsReported(output, m) && j < |tools| && tools[j].name == Groups(output, m).name
    ensures Decide(tools, dumps, output)
            == Continue(DispatchEntry(tools[j].tool, Groups(output, m), dumps), Some(Groups(output, m)))
  {
    var m' :| IsReported(output, m') && ParseTool(output).value == Groups(output, m');
    ReportedUnique(output, m, m');
    LookupUnique(tools, j);
  }

  // ---------------------------------------------------------------------------
  // The prompt

  /** The fixed text of a prompt around the tool list and the transcript. */
  datatype PromptTemplate = PromptTemplate(head: string, middle: string, tail: string)

  /** The text `_build_prompt` puts around the tool list and the transcript. */
  const DecisionPrompt: PromptTemplate := PromptTemplate(PromptHead, PromptMiddle, PromptTail)

  const PromptHead: string :=
      "You are a helpful assistant for **NexaCorp**. Your goal is to answer employee queries by using the correct tool based on the **entire conversation history**.\n"
    + "\n"
    + "        **Your Thought Process:**\n"
    + "        1.  **Analyze the full Conversation History:** Understand the user's intent and any information they've provided in previous turns.\n"
    + "        2.  **Select a Tool OR Answer Directly:**\n"
    + "            - For general knowledge questions (HR, IT, Payroll policies), or to find similar past tickets, use the `retrieval_agent`.\n"
    + "            - For looking up a specific ticket by its ID, use the `ticket_tool`.\n"
    + "            - If the user is making small talk or you have enough information to answer, answer directly.\n"
    + "        3.  **Handle Failures:** If a tool fails, ask the user for clarification.\n"
    + "\n"
    + "        **Available Tools:**\n"
    + "        "
  const PromptMiddle: string := "\n\n        **Conversation History:**\n        ---\n        "
  const PromptTail: string :=
      "\n"
    + "        ---\n"
    + "\n"
    + "        **Your Next Step:**\n"
    + "        Based on the full conversation, what is your next action?\n"
    + "        - If you have enough information to answer, respond with `ANSWER: <your final answer to the user>`.\n"
    + "        - If you need to use a tool, respond with `TOOL: <tool_name> QUERY: <query for the tool>`.\n"
    + "\n"
    + "        Your decision:"

  /** `(doc or 'No description available').strip()`: an absent or empty docstring is
      replaced by the default text. */
  function Description(doc: Option<string>): string {
    match doc
    case Some(d) => if d != "" then Strip(d) else NoDescription
    case None => NoDescription
  }

  function ToolLine(e: ToolEntry): string {
    "- `" + e.name + "`: " + Description(e.tool.doc)
  }

  function HistoryLine(m: Message): string {
    (if m.role == User then "User" else "Assistant") + ": " + m.content
  }

  function HistoryLines(h: seq<Message>): seq<string> {
    seq(|h|, i requires 0 <= i < |h| => HistoryLine(h[i]))
  }

  /** The conversation history as a transcript, one `User:`/`Assistant:` line per turn. */
  function RenderHistory(h: seq<Message>): string {
    Join("\n", HistoryLines(h))
  }

  function RenderTools(tools: seq<ToolEntry>): string {
    Join("\n", seq(|tools|, i requires 0 <= i < |tools| => ToolLine(tools[i])))
  }

  /** `_build_prompt`: the fixed instructions, the tool list and the transcript. */
  function BuildPrompt(t: PromptTemplate, tools: seq<ToolEntry>, h: seq<Message>): string {
    t.head + RenderTools(tools) + t.middle + RenderHistory(h) + t.tail
  }

  /** Where the transcript starts in the prompt. */
  function TranscriptStart(t: PromptTemplate, tools: seq<ToolEntry>): nat {
    |t.head + RenderTools(tools) + t.middle|
  }

  /** Every turn of the history is replayed into the prompt, in order: turn i's line
      sits at its place in the transcript. */
  lemma PromptReplaysHistory(t: PromptTemplate, tools: seq<ToolEntry>, h: seq<Message>, i: nat)
    requires i < |h|
    ensures HasAt(BuildPrompt(t, tools, h), TranscriptStart(t, tools) + Offset("\n", HistoryLines(h), i), HistoryLine(h[i]))
  {
    var pre := t.head + RenderTools(tools) + t.middle;
    JoinPartAt("\n", HistoryLines(h), i);
    assert HistoryLines(h)[i] == HistoryLine(h[i]);
    HasAtWithin(pre, RenderHistory(h), t.tail, Offset("\n", HistoryLines(h), i), HistoryLine(h[i]));
    assert |pre| == TranscriptStart(t, tools);
    assert BuildPrompt(t, tools, h) == pre + RenderHistory(h) + t.tail;
  }

  /** Appending a turn appends one line to the transcript, so the transcript of a
      later prompt extends that of an earlier one. */
  lemma TranscriptAppend(h: seq<Message>, m: Message)
    requires |h| > 0
    ensures RenderHistory(h + [m]) == RenderHistory(h) + "\n" + HistoryLine(m)
  {
    assert HistoryLines(h + [m]) == HistoryLines(h) + [HistoryLine(m)];
    JoinAppend("\n", HistoryLines(h), HistoryLine(m));
  }

  // ---------------------------------------------------------------------------
  // The loop as a function

  /** How a call of `handle_user_query` ended: its answer (or the model's exception),
      the history, how many times the model was invoked, the tool calls made in order,
      and whether the turn budget ran out. */
  datatype SessionEnd = SessionEnd(result: Outcome<string>, history: seq<Message>, modelCalls: nat,
                                   toolCalls: seq<ToolCall>, exhausted: bool)

  function CallsOf(call: Option<ToolCall>): seq<ToolCall> {
    if call.Some? then [call.value] else []
  }

  /** What one iteration of the loop comes to: the call ends (with the answer or the
      model's exception) or the loop goes on, with the history after the iteration and
      the tool call it made. */
  datatype Iteration =
    | Stop(result: Outcome<string>, history: seq<Message>)
    | Next(history: seq<Message>, call: Option<ToolCall>)

  /** Iteration i from history h: the model's stripped output is logged as a thought,
      then either the answer ends the call, or the decision's entry is logged. A model
      that raises ends the call with nothing logged. */
  function RunIteration(t: PromptTemplate, tools: seq<ToolEntry>, dumps: JsonDumps, model: LanguageModel,
                        i: nat, h: seq<Message>): Iteration
  {
    match model(i, BuildPrompt(t, tools, h))
    case Raised(e) => Stop(Raised(e), h)
    case Ok(content) => Step(tools, dumps, Strip(content), h)
  }

  /** The rest of an iteration once the model produced the (stripped) output. */
  function Step(tools: seq<ToolEntry>, dumps: JsonDumps, output: string, h: seq<Message>): Iteration {
    match Decide(tools, dumps, output)
    case Finish(answer) => Stop(Ok(answer), h + [Thought(output), FinalAnswer(answer)])
    case Continue(entry, call) => Next(h + [Thought(output), Message(Assistant, entry)], call)
  }

  /** The body of the loop, as a function of the iteration number and the history. */
  function Iterate(t: PromptTemplate, tools: seq<ToolEntry>, dumps: JsonDumps, model: LanguageModel)
    : (nat, seq<Message>) -> Iteration
  {
    (i: nat, h: seq<Message>) => RunIteration(t, tools, dumps, model, i, h)
  }

  /** Iterations i, i + 1, ... of the loop, from history h, with the tool calls made so far;
      when the budget runs out the fallback answer is logged and returned. */
  function Loop(body: (nat, seq<Message>) -> Iteration, maxTurns: int,
                i: nat, h: seq<Message>, calls: seq<ToolCall>): SessionEnd
    decreases maxTurns - i
  {
    if i >= maxTurns then SessionEnd(Ok(Fallback), h + [FinalAnswer(Fallback)], i, calls, true)
    else
      match body(i, h)
      case Stop(result, h') => SessionEnd(result, h', i + 1, calls, false)
      case Next(h', call) => Loop(body, maxTurns, i + 1, h', calls + CallsOf(call))
  }

  /** `handle_user_query(query)` on history h. */
  function Session(t: PromptTemplate, tools: seq<ToolEntry>, dumps: JsonDumps, maxTurns: int, model: LanguageModel,
                   h: seq<Message>, query: string): SessionEnd
  {
    Loop(Iterate(t, tools, dumps, model), maxTurns, 0, h + [Message(User, query)], [])
  }

  /** What `handle_user_query` returns when it returns: the answer and the history. */
  datatype Reply = Reply(answer: string, history: seq<Message>)

  function ReplyOf(e: SessionEnd): Outcome<Reply> {
    match e.result
    case Ok(answer) => Ok(Reply(answer, e.history))
    case Raised(error) => Raised(error)
  }

  // ---------------------------------------------------------------------------
  // What one iteration does

  /** The entry that records what came of one model output. */
  predicate IsOutcomeEntry(m: Message) {
    m.role == Assistant &&
    (HasPrefix(m.content, FinalAnswerTag) || HasPrefix(m.content, ToolResultTag) || HasPrefix(m.content, ErrorTag))
  }

  predicate IsThought(m: Message) {
    m.role == Assistant && HasPrefix(m.content, ThoughtTag)
  }

  /** h' is h with a thought and then an outcome entry appended. */
  predicate AppendsPair(h: seq<Message>, h': seq<Message>) {
    |h'| == |h| + 2 && h'[..|h|] == h && IsThought(h'[|h|]) && IsOutcomeEntry(h'[|h| + 1])
  }

  /** What an iteration may do from history h: if the model raised, stop with nothing
      logged; otherwise log a thought and one outcome entry, which is the final answer
      when it stops, and call a tool only under a registered name. */
  predicate IterationShape(tools: seq<ToolEntry>, h: seq<Message>, it: Iteration) {
    match it
    case Stop(result, h') =>
      if result.Raised? then h' == h
      else AppendsPair(h, h') && h'[|h| + 1] == FinalAnswer(result.value)
    case Next(h', call) =>
      AppendsPair(h, h') && (call.Some? ==> Registered(tools, call.value.name))
  }

  lemma PrefixOfConcat(a: string, b: string)
    ensures HasPrefix(a + b, a)
  {
    assert (a + b)[0..|a|] == a;
  }

  lemma ExecutionErrorIsOutcome(e: string)
    ensures IsOutcomeEntry(Message(Assistant, ExecutionErrorEntry(e)))
  {
    PrefixOfConcat(ErrorTag, "Could not parse or execute tool. Error: " + e);
    assert ExecutionErrorEntry(e) == ErrorTag + ("Could not parse or execute tool. Error: " + e);
  }

  lemma UnknownToolIsOutcome(name: string)
    ensures IsOutcomeEntry(Message(Assistant, UnknownToolEntry(name)))
  {
    PrefixOfConcat(ErrorTag, "Attempted to use unknown tool: " + name);
    assert UnknownToolEntry(name) == ErrorTag + ("Attempted to use unknown tool: " + name);
  }

  lemma DispatchIsOutcome(tool: Tool, call: ToolCall, dumps: JsonDumps)
    ensures IsOutcomeEntry(Message(Assistant, DispatchEntry(tool, call, dumps)))
  {
    match tool.processRequest(call.query)
    case Raised(e) => ExecutionErrorIsOutcome(e);
    case Ok(result) =>
      match ToText(result, dumps)
      case Ok(text) =>
        PrefixOfConcat(ToolResultTag, call.name + "]: " + text);
        assert ToolResultEntry(call.name, text) == ToolResultTag + (call.name + "]: " + text);
      case Raised(e) => ExecutionErrorIsOutcome(e);
  }

  /** Every entry the loop logs after a thought is an outcome entry, and a tool is
      called only when its name is registered. */
  lemma DecideEntry(tools: seq<ToolEntry>, dumps: JsonDumps, output: string)
    ensures Decide(tools, dumps, output).Continue? ==>
              IsOutcomeEntry(Message(Assistant, Decide(tools, dumps, output).entry))
    ensures Decide(tools, dumps, output).Continue? && Decide(tools, dumps, output).call.Some? ==>
              Registered(tools, Decide(tools, dumps, output).call.value.name)
  {
    if !Contains(output, AnswerMarker) {
      match ParseTool(output)
      case None => ExecutionErrorIsOutcome(ParseErrorMessage);
      case Some(c) =>
        match Lookup(tools, c.name)
        case None => UnknownToolIsOutcome(c.name);
        case Some(tool) => DispatchIsOutcome(tool, c, dumps);
    }
  }

  lemma ThoughtIsThought(output: string)
    ensures IsThought(Thought(output))
  {
    PrefixOfConcat(ThoughtTag, output);
  }

  lemma FinalAnswerIsOutcome(answer: string)
    ensures IsOutcomeEntry(FinalAnswer(answer))
  {
    PrefixOfConcat(FinalAnswerTag, answer);
  }

  /** What follows the model's reply has the shape above. */
  lemma StepShape(tools: seq<ToolEntry>, dumps: JsonDumps, output: string, h: seq<Message>)
    ensures IterationShape(tools, h, Step(tools, dumps, output, h))
  {
    ThoughtIsThought(output);
    DecideEntry(tools, dumps, output);
    match Decide(tools, dumps, output)
    case Finish(answer) =>
      FinalAnswerIsOutcome(answer);
      var h' := h + [Thought(output), FinalAnswer(answer)];
      assert h'[..|h|] == h;
    case Continue(entry, call) =>
      var h' := h + [Thought(output), Message(Assistant, entry)];
      assert h'[..|h|] == h;
  }

  /** Each iteration of `handle_user_query` has the shape above. */
  lemma RunIterationShape(t: PromptTemplate, tools: seq<ToolEntry>, dumps: JsonDumps, model: LanguageModel,
                          i: nat, h: seq<Message>)
    ensures IterationShape(tools, h, RunIteration(t, tools, dumps, model, i, h))
  {
    match model(i, BuildPrompt(t, tools, h))
    case Raised(_) =>
    case Ok(content) =>
      StepShape(tools, dumps, Strip(content), h);
  }

  lemma IterateShape(t: PromptTemplate, tools: seq<ToolEntry>, dumps: JsonDumps, model: LanguageModel)
    ensures forall i, h :: IterationShape(tools, h, Iterate(t, tools, dumps, model)(i, h))
  {
    forall i, h ensures IterationShape(tools, h, Iterate(t, tools, dumps, model)(i, h)) {
      RunIterationShape(t, tools, dumps, model, i, h);
    }
  }

  // ---------------------------------------------------------------------------
  // What the loop guarantees

  /** The number of iterations `range(max_turns)` runs. */
  function Budget(maxTurns: int): nat {
    if maxTurns > 0 then maxTurns else 0
  }

  /** From position `from` up to `to`, h holds whole iterations: a thought, then the
      entry that records its outcome. */
  predicate Alternates(h: seq<Message>, from: int, to: int) {
    forall k :: from <= k < to ==> 0 <= k < |h| && FitsPosition(h[k], k - from)
  }

  /** Entry d of a run of whole iterations: a thought at an even distance from its
      start, an outcome entry at an odd one. */
  predicate FitsPosition(m: Message, d: int) {
    if d % 2 == 0 then IsThought(m) else IsOutcomeEntry(m)
  }

  /** The model is called once per iteration and never more than the budget allows;
      the loop ends on an iteration that stops it or by running out of turns, and then
      it answers with the fallback text, logged last. */
  lemma {:induction false} LoopCalls(body: (nat, seq<Message>) -> Iteration, maxTurns: int,
                                     i: nat, h: seq<Message>, calls: seq<ToolCall>)
    ensures var e := Loop(body, maxTurns, i, h, calls);
      && i <= e.modelCalls
      && (e.exhausted ==> e.modelCalls == (if maxTurns > i then maxTurns else i))
      && (e.exhausted ==> e.result == Ok(Fallback) && |e.history| > 0
                          && e.history[|e.history| - 1] == FinalAnswer(Fallback))
      && (!e.exhausted ==> i < e.modelCalls <= maxTurns)
    decreases maxTurns - i
  {
    if i < maxTurns {
      match body(i, h)
      case Stop(_, _) =>
      case Next(h', call) => LoopCalls(body, maxTurns, i + 1, h', calls + CallsOf(call));
    }
  }

  /** The loop only appends to the history, and only assistant entries: two per
      completed iteration, none for an iteration whose model call raised, and one more
      for the fallback answer. */
  lemma {:induction false} LoopGrowth(tools: seq<ToolEntry>, body: (nat, seq<Message>) -> Iteration, maxTurns: int,
                                      i: nat, h: seq<Message>, calls: seq<ToolCall>)
    requires forall j, g :: IterationShape(tools, g, body(j, g))
    ensures var e := Loop(body, maxTurns, i, h, calls);
      && |h| <= |e.history| && e.history[..|h|] == h
      && (forall k :: |h| <= k < |e.history| ==> e.history[k].role == Assistant)
      && |e.history| == |h| + 2 * (e.modelCalls - i) + (if e.exhausted then 1 else if e.result.Raised? then -2 else 0)
    decreases maxTurns - i
  {
    var e := Loop(body, maxTurns, i, h, calls);
    if i < maxTurns {
      assert IterationShape(tools, h, body(i, h));
      match body(i, h)
      case Stop(_, h') =>
      case Next(h', call) =>
        LoopGrowth(tools, body, maxTurns, i + 1, h', calls + CallsOf(call));
        assert e.history[..|h|] == e.history[..|h'|][..|h|];
    } else {
      assert e.history[..|h|] == h;
    }
  }

  /** A thought and its outcome entry in front of whole iterations are whole iterations. */
  lemma AlternatesExtend(h: seq<Message>, h': seq<Message>, x: seq<Message>, to: int)
    requires AppendsPair(h, h') && |h'| <= to <= |x| && x[..|h'|] == h'
    requires Alternates(x, |h'|, to)
    ensures Alternates(x, |h|, to)
  {
    assert x[|h|] == h'[|h|] && x[|h| + 1] == h'[|h| + 1];
    forall k | |h| <= k < to
      ensures 0 <= k < |x| && FitsPosition(x[k], k - |h|)
    {
      if k >= |h'| {
        assert FitsPosition(x[k], k - |h'|);
        assert (k - |h|) % 2 == (k - |h'|) % 2;
      } else if k == |h| {
        assert IsThought(x[k]);
      } else {
        assert IsOutcomeEntry(x[k]);
      }
    }
  }

  /** Every iteration logs its thought and then exactly one outcome entry, so the
      entries the loop adds alternate, thought first; only the fallback answer logged
      on exhaustion stands alone. */
  lemma {:induction false} LoopAlternation(tools: seq<ToolEntry>, body: (nat, seq<Message>) -> Iteration, maxTurns: int,
                                           i: nat, h: seq<Message>, calls: seq<ToolCall>)
    requires forall j, g :: IterationShape(tools, g, body(j, g))
    ensures var e := Loop(body, maxTurns, i, h, calls);
      Alternates(e.history, |h|, |e.history| - (if e.exhausted then 1 else 0))
    decreases maxTurns - i
  {
    var e := Loop(body, maxTurns, i, h, calls);
    if i < maxTurns {
      assert IterationShape(tools, h, body(i, h));
      match body(i, h)
      case Stop(_, h') =>
      case Next(h', call) =>
        LoopAlternation(tools, body, maxTurns, i + 1, h', calls + CallsOf(call));
        LoopGrowth(tools, body, maxTurns, i + 1, h', calls + CallsOf(call));
        LoopCalls(body, maxTurns, i + 1, h', calls + CallsOf(call));
        AlternatesExtend(h, h', e.history, |e.history| - (if e.exhausted then 1 else 0));
    }
  }

  /** The loop records a tool call only for a registered name, at most one per model
      call, after those recorded before. */
  lemma {:induction false} LoopToolCalls(tools: seq<ToolEntry>, body: (nat, seq<Message>) -> Iteration, maxTurns: int,
                                         i: nat, h: seq<Message>, calls: seq<ToolCall>)
    requires forall j, g :: IterationShape(tools, g, body(j, g))
    ensures var e := Loop(body, maxTurns, i, h, calls);
      && |calls| <= |e.toolCalls| && e.toolCalls[..|calls|] == calls
      && |e.toolCalls| - |calls| <= e.modelCalls - i
      && forall k :: |calls| <= k < |e.toolCalls| ==> Registered(tools, e.toolCalls[k].name)
    decreases maxTurns - i
  {
    var e := Loop(body, maxTurns, i, h, calls);
    if i < maxTurns {
      assert IterationShape(tools, h, body(i, h));
      match body(i, h)
      case Stop(_, _) =>
      case Next(h', call) =>
        var calls' := calls + CallsOf(call);
        LoopToolCalls(tools, body, maxTurns, i + 1, h', calls');
        assert e.toolCalls[..|calls|] == e.toolCalls[..|calls'|][..|calls|];
        assert calls'[..|calls|] == calls;
    }
    assert e.toolCalls[..|calls|] == calls;
  }

  /** `handle_user_query` always returns (or lets the model's exception through) after
      at most `max_turns` model calls; running out of turns takes all of them and
      answers with the fallback text, which is also the last entry logged. */
  lemma SessionBudget(t: PromptTemplate, tools: seq<ToolEntry>, dumps: JsonDumps, maxTurns: int,
                      model: LanguageModel, h: seq<Message>, query: string)
    ensures var e := Session(t, tools, dumps, maxTurns, model, h, query);
      && e.modelCalls <= Budget(maxTurns)
      && (e.exhausted ==> e.result == Ok(Fallback) && e.modelCalls == Budget(maxTurns)
                          && |e.history| > 0 && e.history[|e.history| - 1] == FinalAnswer(Fallback))
      && (!e.exhausted ==> 1 <= e.modelCalls)
  {
    LoopCalls(Iterate(t, tools, dumps, model), maxTurns, 0, h + [Message(User, query)], []);
  }

  /** The history is append-only: the call logs the query as a user turn, then only
      assistant entries, two per iteration. An answer on the n-th model call leaves
      2n + 1 new entries, running out of turns 2 * max_turns + 2, and a model exception
      on the n-th call 2n - 1. */
  lemma SessionHistory(t: PromptTemplate, tools: seq<ToolEntry>, dumps: JsonDumps, maxTurns: int,
                       model: LanguageModel, h: seq<Message>, query: string)
    ensures var e := Session(t, tools, dumps, maxTurns, model, h, query);
      && |h| < |e.history| && e.history[..|h|] == h && e.history[|h|] == Message(User, query)
      && (forall k :: |h| < k < |e.history| ==> e.history[k].role == Assistant)
      && (e.result.Ok? && !e.exhausted ==> |e.history| == |h| + 2 * e.modelCalls + 1)
      && (e.exhausted ==> |e.history| == |h| + 2 * Budget(maxTurns) + 2)
      && (e.result.Raised? ==> |e.history| == |h| + 2 * e.modelCalls - 1)
  {
    var h0 := h + [Message(User, query)];
    var body := Iterate(t, tools, dumps, model);
    var e := Loop(body, maxTurns, 0, h0, []);
    IterateShape(t, tools, dumps, model);
    LoopGrowth(tools, body, maxTurns, 0, h0, []);
    LoopCalls(body, maxTurns, 0, h0, []);
    assert e.history[..|h|] == e.history[..|h0|][..|h|];
    assert e.history[|h|] == e.history[..|h0|][|h|];
  }

  /** After the query, the entries alternate between a thought and its outcome entry,
      the fallback answer of an exhausted budget aside. */
  lemma SessionAlternation(t: PromptTemplate, tools: seq<ToolEntry>, dumps: JsonDumps, maxTurns: int,
                           model: LanguageModel, h: seq<Message>, query: string)
    ensures var e := Session(t, tools, dumps, maxTurns, model, h, query);
      Alternates(e.history, |h| + 1, |e.history| - (if e.exhausted then 1 else 0))
  {
    var h0 := h + [Message(User, query)];
    var body := Iterate(t, tools, dumps, model);
    IterateShape(t, tools, dumps, model);
    LoopAlternation(tools, body, maxTurns, 0, h0, []);
    assert |h0| == |h| + 1;
  }

  /** Tools are called only under registered names, at most once per model call. */
  lemma SessionToolCalls(t: PromptTemplate, tools: seq<ToolEntry>, dumps: JsonDumps, maxTurns: int,
                         model: LanguageModel, h: seq<Message>, query: string)
    ensures var e := Session(t, tools, dumps, maxTurns, model, h, query);
      && |e.toolCalls| <= e.modelCalls
      && forall k :: 0 <= k < |e.toolCalls| ==> Registered(tools, e.toolCalls[k].name)
  {
    IterateShape(t, tools, dumps, model);
    LoopToolCalls(tools, Iterate(t, tools, dumps, model), maxTurns, 0, h + [Message(User, query)], []);
  }

  // ---------------------------------------------------------------------------
  // The agent

  class CommunicationAgent {
    const template: PromptTemplate
    const tools: seq<ToolEntry>
    const dumps: JsonDumps
    const maxTurns: int
    var logHistory: seq<Message>

    constructor (tools: seq<ToolEntry>, dumps: JsonDumps, maxTurns: int)
      requires UniqueNames(tools)
      ensures template == DecisionPrompt
      ensures this.tools == tools && this.dumps == dumps && this.maxTurns == maxTurns
      ensures logHistory == []
    {
      template := DecisionPrompt;
      this.tools := tools;
      this.dumps := dumps;
      this.maxTurns := maxTurns;
      logHistory := [];
    }

    /** `log(role, content)`: a "user" role is logged as a user turn, any other as an
        assistant turn. */
    method Log(role: string, content: string)
      modifies this`logHistory
      ensures logHistory == old(logHistory) + [Message(if role == "user" then User else Assistant, content)]
    {
      if role == "user" {
        logHistory := logHistory + [Message(User, content)];
      } else {
        logHistory := logHistory + [Message(Assistant, content)];
      }
    }

    /** Logs the tool call's outcome (the `try` block of one iteration). */
    method Dispatch(output: string) returns (ghost call: Option<ToolCall>)
      requires !Contains(output, AnswerMarker)
      modifies this`logHistory
      ensures Decide(tools, dumps, output).Continue?
      ensures logHistory == old(logHistory) + [Message(Assistant, Decide(tools, dumps, output).entry)]
      ensures call == Decide(tools, dumps, output).call
    {
      var toolMatch := ParseTool(output);
      if toolMatch.None? {
        Log("assistant", ExecutionErrorEntry(ParseErrorMessage));
        call := None;
        return;
      }
      var toolName := toolMatch.value.name;
      var found := Lookup(tools, toolName);
      if found.Some? {
        var entry := CallTool(found.value, toolMatch.value);
        Log("assistant", entry);
        call := Some(toolMatch.value);
      } else {
        Log("assistant", UnknownToolEntry(toolName));
        call := None;
      }
    }

    /** Calls a registered tool and normalises its result; what the `try` block logs:
        the result, or the error the tool or the normalisation raised. */
    method CallTool(tool: Tool, toolCall: ToolCall) returns (entry: string)
      ensures entry == DispatchEntry(tool, toolCall, dumps)
    {
      var toolResponse := tool.processRequest(toolCall.query);
      if toolResponse.Raised? {
        return ExecutionErrorEntry(toolResponse.message);
      }
      var responseStr := ToText(toolResponse.value, dumps);
      if responseStr.Raised? {
        return ExecutionErrorEntry(responseStr.message);
      }
      return ToolResultEntry(toolCall.name, responseStr.value);
    }

    /** The part of an iteration after the model replied: logs the output as a thought,
        then the final answer, or the outcome of the tool call. */
    method Respond(modelOutput: string) returns (answer: Option<string>, ghost call: Option<ToolCall>)
      modifies this`logHistory
      ensures var it := Step(tools, dumps, modelOutput, old(logHistory));
        && logHistory == it.history
        && (answer.Some? <==> it.Stop?)
        && (answer.Some? ==> it.result == Ok(answer.value))
        && (answer.None? ==> call == it.call)
    {
      ghost var before := logHistory;
      Log("assistant", ThoughtTag + modelOutput);
      assert logHistory == before + [Thought(modelOutput)];
      if Contains(modelOutput, AnswerMarker) {
        var finalAnswer := Strip(After(modelOutput, AnswerMarker));
        assert Decide(tools, dumps, modelOutput) == Finish(finalAnswer);
        Log("assistant", FinalAnswerTag + finalAnswer);
        assert logHistory == before + [Thought(modelOutput), FinalAnswer(finalAnswer)];
        return Some(finalAnswer), None;
      }
      call := Dispatch(modelOutput);
      assert logHistory == before + [Thought(modelOutput), Message(Assistant, Decide(tools, dumps, modelOutput).entry)];
      answer := None;
    }

    /** Iteration i of the loop in `handle_user_query`: invokes the model on the prompt
        built from the history, logs its stripped output as a thought, and either returns
        the final answer (or lets the model's exception through), or logs the outcome of
        the tool call and lets the loop go on. */
    method Turn(i: nat, model: LanguageModel)
      returns (done: Option<Outcome<Reply>>, ghost call: Option<ToolCall>)
      modifies this`logHistory
      ensures var it := RunIteration(template, tools, dumps, model, i, old(logHistory));
        && logHistory == it.history
        && (done.Some? <==> it.Stop?)
        && (done.Some? ==> done.value == ReplyOf(SessionEnd(it.result, logHistory, i + 1, [], false)))
        && (done.None? ==> call == it.call)
    {
      var prompt := BuildPrompt(template, tools, logHistory);
      var response := model(i, prompt);
      if response.Raised? {
        return Some(Raised(response.message)), None;
      }
      var answer;
      answer, call := Respond(Strip(response.value));
      if answer.Some? {
        return Some(Ok(Reply(answer.value, logHistory))), None;
      }
      done := None;
    }

    /** `handle_user_query(query)`: logs the query, then runs at most maxTurns model
        turns; returns the answer and the history, or the model's exception. */
    method HandleUserQuery(query: string, model: LanguageModel) returns (outcome: Outcome<Reply>)
      modifies this`logHistory
      ensures logHistory == Session(template, tools, dumps, maxTurns, model, old(logHistory), query).history
      ensures outcome == ReplyOf(Session(template, tools, dumps, maxTurns, model, old(logHistory), query))
    {
      ghost var whole := Session(template, tools, dumps, maxTurns, model, logHistory, query);
      Log("user", query);
      assert whole == Loop(Iterate(template, tools, dumps, model), maxTurns, 0, logHistory, []);
      ghost var calls: seq<ToolCall> := [];
      var i: nat := 0;
      while i < maxTurns
        invariant whole == Loop(Iterate(template, tools, dumps, model), maxTurns, i, logHistory, calls)
        decreases maxTurns - i
      {
        var done, call := Turn(i, model);
        if done.Some? {
          return done.value;
        }
        calls := calls + CallsOf(call);
        i := i + 1;
      }
      assert whole == SessionEnd(Ok(Fallback), logHistory + [FinalAnswer(Fallback)], i, calls, true);
      Log("assistant", FinalAnswerTag + Fallback);
      return Ok(Reply(Fallback, logHistory));
    }
  }
}
