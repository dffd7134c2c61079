/**
 * The agent's LangGraph workflow: the nodes `agent` and `tools`, the edges
 * START -> agent and tools -> agent, and the conditional edge out of `agent` that
 * goes to `tools` when the newest message asks for tool calls and to END otherwise.
 *
 * The language model and the prebuilt tool node are parameters: a function from the
 * history to the model's response, and a function from the history to the tool
 * messages the tool node produces. The history is merged by plain appending.
 * Nothing bounds the agent/tools cycle, so runs are cut off by a fuel argument.
 */
module AgentGraph {
  import opened Wrappers

  datatype ToolCall = ToolCall(id: string, name: string, arguments: string)

  /** What `getattr(message, "tool_calls", None)` finds: no such attribute, the value
      None, or a list of calls. */
  datatype ToolCallsAttr = Missing | NoneValue | Calls(calls: seq<ToolCall>)

  datatype Message = Message(content: string, toolCalls: ToolCallsAttr)

  /** The user's opening message; it has no `tool_calls` attribute. */
  function HumanMessage(query: string): Message {
    Message(query, Missing)
  }

  /** Python truthiness of the `tool_calls` attribute: a non-empty list. */
  predicate RequestsTools(m: Message) {
    m.toolCalls.Calls? && |m.toolCalls.calls| > 0
  }

  datatype Node = Start | Agent | Tools | End

  /** The language model: given the history, one response message. */
  type Llm = seq<Message> -> Message

  /** The tool node: given the history, the tool messages it answers with. */
  type ToolRunner = seq<Message> -> seq<Message>

  /** One entry of a `stream_mode="updates"` chunk: a node and what it returned under
      the key "messages", if that key was present. */
  datatype NodeUpdate = NodeUpdate(node: string, messages: Option<seq<Message>>)

  /** One streamed chunk: the updates of the nodes that ran in one step, in order. */
  type Chunk = seq<NodeUpdate>

  datatype State = State(at: Node, messages: seq<Message>)

  /** The graph input `{"messages": [HumanMessage(query)]}`, before START's edge fires. */
  function Init(query: string): State {
    State(Start, [HumanMessage(query)])
  }

  /** The router on the agent's exit: `"tools"` when the newest message asks for tool
      calls, END otherwise. */
  function Route(messages: seq<Message>): (next: Node)
    requires |messages| > 0
    ensures next == Tools || next == End
    ensures next == Tools <==> RequestsTools(messages[|messages| - 1])
  {
    if RequestsTools(messages[|messages| - 1]) then Tools else End
  }

  /** `call_model`: the update holding the model's one response. */
  function CallModel(llm: Llm, messages: seq<Message>): (update: seq<Message>)
    ensures |update| == 1 && update[0] == llm(messages)
  {
    [llm(messages)]
  }

  /** Run the node `s.at` and follow its outgoing edge: START is never re-entered, END
      is terminal, and a step into END adds the model's answer, which asks for no tool
      calls. */
  function Step(s: State, llm: Llm, tools: ToolRunner): (r: State)
    ensures r.at != Start
    ensures s.at == End ==> r == s
    ensures s.at != End && r.at == End ==>
      |r.messages| > |s.messages| && !RequestsTools(r.messages[|r.messages| - 1])
  {
    match s.at
    case Start => State(Agent, s.messages)
    case Agent =>
      var h := s.messages + CallModel(llm, s.messages);
      State(Route(h), h)
    case Tools => State(Agent, s.messages + tools(s.messages))
    case End => s
  }

  /** The chunks streamed while taking that step: one per node that ran. */
  function Emitted(s: State, llm: Llm, tools: ToolRunner): seq<Chunk> {
    match s.at
    case Agent => [[NodeUpdate("agent", Some(CallModel(llm, s.messages)))]]
    case Tools => [[NodeUpdate("tools", Some(tools(s.messages)))]]
    case _ => []
  }

  datatype Trace = Trace(final: State, stream: seq<Chunk>)

  /** At most `fuel` steps from `s`, stopping at END, with everything streamed: at most
      one chunk per step, the final history extends the starting one, the streamed
      updates carry exactly the messages the run appended, in order, and a run that
      reaches END has added at least one message, the newest of which asks for no
      tool calls. */
  function Run(s: State, fuel: nat, llm: Llm, tools: ToolRunner): (t: Trace)
    ensures s.messages <= t.final.messages
    ensures AllMessages(t.stream) == t.final.messages[|s.messages|..]
    ensures |t.stream| <= fuel
    ensures s.at != End && t.final.at == End ==>
      |t.final.messages| > |s.messages| && !RequestsTools(t.final.messages[|t.final.messages| - 1])
    decreases fuel
  {
    if fuel == 0 || s.at == End then
      Trace(s, [])
    else
      var next := Step(s, llm, tools);
      var t := Run(next, fuel - 1, llm, tools);
      EmittedCarriesStepOutput(s, llm, tools);
      StreamSplits(s.messages, next.messages, t.final.messages, Emitted(s, llm, tools), t.stream);
      Trace(t.final, Emitted(s, llm, tools) + t.stream)
  }

  // ---------------------------------------------------------------------------
  // The messages a stream carries
  // ---------------------------------------------------------------------------

  /** The messages an update contributes: those under "messages" when non-empty. */
  function UpdateMessages(u: NodeUpdate): seq<Message> {
    if u.messages.Some? && |u.messages.value| > 0 then u.messages.value else []
  }

  function ChunkMessages(chunk: Chunk): seq<Message> {
    if chunk == [] then [] else ChunkMessages(chunk[..|chunk| - 1]) + UpdateMessages(chunk[|chunk| - 1])
  }

  /** Every message of every update, in stream order. */
  function AllMessages(stream: seq<Chunk>): seq<Message> {
    if stream == [] then [] else AllMessages(stream[..|stream| - 1]) + ChunkMessages(stream[|stream| - 1])
  }

  lemma {:induction false} AllMessagesAppend(a: seq<Chunk>, b: seq<Chunk>)
    ensures AllMessages(a + b) == AllMessages(a) + AllMessages(b)
    decreases |b|
  {
    if b == [] {
      assert a + b == a;
    } else {
      var b', last := b[..|b| - 1], b[|b| - 1];
      assert a + b == (a + b') + [last];
      assert (a + b)[..|a + b| - 1] == a + b';
      AllMessagesAppend(a, b');
      assert AllMessages(a + b) == AllMessages(a + b') + ChunkMessages(last);
      assert AllMessages(b) == AllMessages(b') + ChunkMessages(last);
    }
  }

  /** The chunk a step streams holds exactly what that step appended. */
  lemma EmittedCarriesStepOutput(s: State, llm: Llm, tools: ToolRunner)
    requires s.at != End
    ensures s.messages <= Step(s, llm, tools).messages
    ensures AllMessages(Emitted(s, llm, tools)) == Step(s, llm, tools).messages[|s.messages|..]
  {
    match s.at
    case Start =>
    case Agent =>
      var c := [NodeUpdate("agent", Some(CallModel(llm, s.messages)))];
      assert AllMessages([c]) == AllMessages([]) + ChunkMessages(c);
      assert ChunkMessages(c) == ChunkMessages([]) + UpdateMessages(c[0]);
    case Tools =>
      var c := [NodeUpdate("tools", Some(tools(s.messages)))];
      assert AllMessages([c]) == AllMessages([]) + ChunkMessages(c);
      assert ChunkMessages(c) == ChunkMessages([]) + UpdateMessages(c[0]);
  }

  lemma SliceSplit<T>(a: seq<T>, b: seq<T>, c: seq<T>)
    requires a <= b <= c
    ensures c[|a|..] == b[|a|..] + c[|b|..]
  {
  }

  /** The chunks of one step followed by those of the rest of a run carry what the step
      and then the rest appended. */
  lemma StreamSplits(start: seq<Message>, mid: seq<Message>, end: seq<Message>, e: seq<Chunk>, rest: seq<Chunk>)
    requires start <= mid
    requires mid <= end
    requires AllMessages(e) == mid[|start|..]
    requires AllMessages(rest) == end[|mid|..]
    ensures AllMessages(e + rest) == end[|start|..]
  {
    AllMessagesAppend(e, rest);
    SliceSplit(start, mid, end);
  }

  // ---------------------------------------------------------------------------
  // Properties of the graph
  // ---------------------------------------------------------------------------

  /** Only the newest message decides the route. */
  lemma RouteReadsOnlyLast(a: seq<Message>, b: seq<Message>)
    requires |a| > 0 && |b| > 0 && a[|a| - 1] == b[|b| - 1]
    ensures Route(a) == Route(b)
  {
  }

  /** A missing attribute, None and an empty list all end the run. */
  lemma NoToolCallsRoutesToEnd(messages: seq<Message>, m: Message)
    requires m.toolCalls == Missing || m.toolCalls == NoneValue || m.toolCalls == Calls([])
    ensures Route(messages + [m]) == End
  {
  }

  /** START -> agent and tools -> agent do not depend on anything; `agent` is the only
      node whose exit branches, and END is entered only from it. */
  lemma EdgesOutOfNodes(s: State, llm: Llm, tools: ToolRunner)
    ensures s.at == Start ==> Step(s, llm, tools) == State(Agent, s.messages)
    ensures s.at == Tools ==> Step(s, llm, tools) == State(Agent, s.messages + tools(s.messages))
    ensures s.at != End && Step(s, llm, tools).at == End ==> s.at == Agent
    ensures Step(s, llm, tools).at == Tools ==> s.at == Agent
    ensures s.at == End ==> Step(s, llm, tools) == s
  {
  }

  /** Each agent step appends exactly one message, the model's response, and routes on it. */
  lemma AgentStepAppendsResponse(s: State, llm: Llm, tools: ToolRunner)
    requires s.at == Agent
    ensures Step(s, llm, tools).messages == s.messages + [llm(s.messages)]
    ensures Step(s, llm, tools).at == (if RequestsTools(llm(s.messages)) then Tools else End)
  {
  }

  /** Any run that reaches END added at least the model's answer, and that newest
      message carries no tool calls. */
  lemma FinishedRunHasNoToolCalls(query: string, fuel: nat, llm: Llm, tools: ToolRunner)
    requires Run(Init(query), fuel, llm, tools).final.at == End
    ensures var h := Run(Init(query), fuel, llm, tools).final.messages;
      |h| > 1 && !RequestsTools(h[|h| - 1])
  {
  }
}
