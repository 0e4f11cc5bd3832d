/**
 * The cooking assistant's routing core: three LangGraph nodes (classifier,
 * researcher, refusal), the router on the classifier's verdict, the fixed
 * graph START -> classifier -> {researcher | refusal} -> END, and the HTTP
 * endpoint's run-and-respond logic.
 *
 * The chat model and the ReAct agent executor are foreign network calls; they
 * are oracles supplied in `Collaborators`, and every invocation of one is
 * recorded as a `Call` so that what a run sends out can be stated.
 */
module CookingAssistant {
  import opened Wrappers
  import opened Messages

  /** One invocation of an external collaborator, with what it was sent. */
  datatype Call =
    | LlmCall(messages: seq<Message>)   // the chat model, shown a list of messages
    | AgentCall(input: string)          // the research agent executor, asked one question

  /**
   * The injected collaborators. `llm` answers a message list with one message
   * or fails with the exception's text; `agent` answers the researcher's
   * question with the executor's "output" (the empty chat history it is always
   * given is folded in). `classifierPrompt` is the classifier's
   * `system_prompt` parameter, whose text is opaque here.
   */
  datatype Collaborators = Collaborators(
    classifierPrompt: string,
    llm: seq<Message> -> Result<Message, string>,
    agent: string -> Result<string, string>)

  /** What a node does: the calls it made and the delta it returns, or the raised error. */
  datatype NodeOutcome = NodeOutcome(calls: seq<Call>, update: Result<seq<Message>, string>)

  const RefusalText := "Your Query is not related to Cooking."

  /** What the classifier hands the chat model: its system message, then the whole state. */
  function ClassifierInput(state: State, systemPrompt: string): (input: seq<Message>)
    ensures |input| == |state| + 1
    ensures input[0] == SystemMessage(systemPrompt) && input[1..] == state
  {
    [SystemMessage(systemPrompt)] + state
  }

  /**
   * `classifier_agent`: one model call on the system message and the state;
   * the delta is the model's reply alone, so the system message stays out of
   * the state. A failing model call raises.
   */
  function ClassifierAgent(state: State, systemPrompt: string,
                           llm: seq<Message> -> Result<Message, string>): (out: NodeOutcome)
    ensures out.calls == [LlmCall(ClassifierInput(state, systemPrompt))]
    ensures out.update.Ok? <==> llm(ClassifierInput(state, systemPrompt)).Ok?
    ensures out.update.Ok? ==> out.update.value == [llm(ClassifierInput(state, systemPrompt)).value]
    ensures out.update.Err? ==> out.update.error == llm(ClassifierInput(state, systemPrompt)).error
  {
    var input := ClassifierInput(state, systemPrompt);
    match llm(input)
    case Ok(reply) => NodeOutcome([LlmCall(input)], Ok([reply]))
    case Err(e) => NodeOutcome([LlmCall(input)], Err(e))
  }

  /** `refusal`: one fixed AI message, whatever the state, and no external call. */
  function Refusal(state: State): (out: NodeOutcome)
    ensures out.calls == []
    ensures out.update.Ok?
    ensures AddMessages(state, out.update.value) == state + [AIMessage(RefusalText)]
  {
    NodeOutcome([], Ok([AIMessage(RefusalText)]))
  }

  /**
   * `researcher_agent`: the question is `messages[-2].content`; the delta is
   * one AI message holding the agent's output. A state of fewer than two
   * messages raises IndexError, and then no agent call is made.
   */
  function ResearcherAgent(state: State, agent: string -> Result<string, string>): (out: NodeOutcome)
    ensures |state| < 2 <==> out.update == Err(IndexErrorText) && out.calls == []
    ensures |state| >= 2 ==> out.calls == [AgentCall(state[|state| - 2].content)]
    ensures |state| >= 2 ==> (out.update.Ok? <==> agent(state[|state| - 2].content).Ok?)
    ensures out.update.Ok? ==>
              out.update.value == [AIMessage(agent(state[|state| - 2].content).value)]
    ensures |state| >= 2 && out.update.Err? ==> out.update.error == agent(state[|state| - 2].content).error
  {
    match PyIndex(state, -2)
    case None => NodeOutcome([], Err(IndexErrorText))
    case Some(question) =>
      var call := [AgentCall(question.content)];
      match agent(question.content)
      case Ok(output) => NodeOutcome(call, Ok([AIMessage(output)]))
      case Err(e) => NodeOutcome(call, Err(e))
  }

  /** The router's two labels: the keys of the path map of the conditional edge. */
  const ResearcherAgentLabel := "researcher_agent"
  const RefusalLabel := "refusal"

  /**
   * `decide_next_node`: an AI message reading "relevant" in any letter case
   * goes to research; "irrelevant", any other text and any non-AI message go
   * to refusal. Called only after the classifier appended its reply, so the
   * state is never empty (`messages[-1]` would raise on an empty list).
   */
  function DecideNextNode(state: State): (choice: string)
    requires |state| > 0
    ensures choice == ResearcherAgentLabel || choice == RefusalLabel
  {
    var last := state[|state| - 1];
    if last.role == AI then
      if Lower(last.content) == "relevant" then ResearcherAgentLabel
      else if Lower(last.content) == "irrelevant" then RefusalLabel
      else RefusalLabel
    else RefusalLabel
  }

  /** The graph's nodes, with LangGraph's START and END. */
  datatype Node = StartNode | ClassifierNode | ResearcherNode | RefusalNode | EndNode

  /** The three nodes registered with `add_node`, i.e. the ones that execute. */
  predicate IsAgentNode(n: Node) {
    n == ClassifierNode || n == ResearcherNode || n == RefusalNode
  }

  /** Distance from START: every edge of the graph goes up by at least one. */
  function Rank(n: Node): nat {
    match n
    case StartNode => 0
    case ClassifierNode => 1
    case ResearcherNode => 2
    case RefusalNode => 2
    case EndNode => 3
  }

  /** The path map of the conditional edge out of the classifier. */
  const PathMap: map<string, Node> := map[ResearcherAgentLabel := ResearcherNode, RefusalLabel := RefusalNode]

  /** The static edge relation built by `add_edge` and `add_conditional_edges`. */
  function Successors(n: Node): (next: set<Node>)
    ensures next == {} <==> n == EndNode
    ensures forall m :: m in next ==> Rank(n) < Rank(m)
    ensures n == ClassifierNode ==> next == {ResearcherNode, RefusalNode}
  {
    match n
    case StartNode => {ClassifierNode}
    case ClassifierNode =>
      assert PathMap.Keys == {ResearcherAgentLabel, RefusalLabel};
      assert PathMap[ResearcherAgentLabel] == ResearcherNode && PathMap[RefusalLabel] == RefusalNode;
      PathMap.Values
    case ResearcherNode => {EndNode}
    case RefusalNode => {EndNode}
    case EndNode => {}
  }

  /**
   * The transition taken out of `n` once its delta has been merged into
   * `state`: always an edge of the graph, always further from START.
   */
  function Next(n: Node, state: State): (m: Node)
    requires n != EndNode
    requires n == ClassifierNode ==> |state| > 0
    ensures m in Successors(n)
    ensures Rank(n) < Rank(m)
  {
    match n
    case StartNode => ClassifierNode
    case ClassifierNode => PathMap[DecideNextNode(state)]
    case ResearcherNode => EndNode
    case RefusalNode => EndNode
  }

  /** Runs the node function registered for `n`. */
  function Execute(n: Node, state: State, c: Collaborators): (out: NodeOutcome)
    requires IsAgentNode(n)
    ensures out.update.Ok? ==> |out.update.value| == 1
    ensures n != ResearcherNode ==> AgentCallCount(out.calls) == 0
  {
    match n
    case ClassifierNode => ClassifierAgent(state, c.classifierPrompt, c.llm)
    case ResearcherNode => ResearcherAgent(state, c.agent)
    case RefusalNode => Refusal(state)
  }

  /** How many of `calls` went to the ReAct agent. */
  function AgentCallCount(calls: seq<Call>): nat {
    if calls == [] then 0 else (if calls[0].AgentCall? then 1 else 0) + AgentCallCount(calls[1..])
  }

  /** What running the compiled graph produces: nodes executed in order, calls made, final state or error. */
  datatype RunOutcome = RunOutcome(trace: seq<Node>, calls: seq<Call>, result: Result<State, string>)

  /**
   * Running the compiled graph from node `n`: execute `n`, merge its delta, follow the
   * edge, until END. An error raised by a node ends the run. The run
   * terminates because every edge moves further from START; each node runs
   * at most once and every executed node adds exactly one message.
   */
  function Run(n: Node, state: State, c: Collaborators): (out: RunOutcome)
    decreases Rank(EndNode) - Rank(n)
    ensures forall i :: 0 <= i < |out.trace| ==> IsAgentNode(out.trace[i]) && Rank(n) <= Rank(out.trace[i])
    ensures forall i, j :: 0 <= i < j < |out.trace| ==> Rank(out.trace[i]) < Rank(out.trace[j])
    ensures out.result.Ok? ==> |out.result.value| == |state| + |out.trace|
    ensures out.result.Ok? ==> out.result.value[..|state|] == state
    ensures out.result.Err? ==> |out.trace| > 0
  {
    if n == EndNode then RunOutcome([], [], Ok(state))
    else if n == StartNode then Run(Next(StartNode, state), state, c)
    else
      var step := Execute(n, state, c);
      match step.update
      case Err(e) => RunOutcome([n], step.calls, Err(e))
      case Ok(delta) =>
        var merged := AddMessages(state, delta);
        var rest := Run(Next(n, merged), merged, c);
        RunOutcome([n] + rest.trace, step.calls + rest.calls, rest.result)
  }

  /** The state the endpoint starts from: the one user message. */
  function Seed(query: string): (s: State)
    ensures |s| == 1 && s[0].role == User && s[0].content == query
  {
    [UserMessage(query)]
  }

  /**
   * Running the graph on a fresh state made of the one user message: the
   * classifier always runs first, and a final state starts with the query.
   */
  function Invoke(query: string, c: Collaborators): (out: RunOutcome)
    ensures |out.trace| > 0 && out.trace[0] == ClassifierNode
    ensures out.result.Ok? ==> |out.result.value| == 1 + |out.trace| && out.result.value[0] == UserMessage(query)
  {
    Run(StartNode, Seed(query), c)
  }

  /**
   * `cooking_endpoint`: the content of the final state's last message, or the
   * text of whatever was raised (turned into an HTTP 500 by the handler).
   */
  function CookingEndpoint(query: string, c: Collaborators): (r: Result<string, string>)
    ensures r.Ok? ==> Invoke(query, c).result.Ok?
    ensures Invoke(query, c).result.Err? ==> r == Err(Invoke(query, c).result.error)
  {
    match Invoke(query, c).result
    case Err(e) => Err(e)
    case Ok(final) =>
      match PyIndex(final, -1)
      case None => Err(IndexErrorText)
      case Some(last) => Ok(last.content)
  }
}
