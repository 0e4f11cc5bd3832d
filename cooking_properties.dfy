/**
 * What the routing core guarantees: the router's decision rule, the effect
 * of each node, the shape of every run from the endpoint's seed state, and
 * that the run asks the collaborators only what its call log records.
 */
module CookingProperties {
  import opened Wrappers
  import opened Messages
  import opened CookingAssistant

  /** The verdict that sends a query to research: an AI message spelling "relevant" in any case. */
  predicate IsRelevantVerdict(m: Message) {
    m.role == AI && EqualsIgnoringCase(m.content, "relevant")
  }

  /** The router picks research exactly for a relevant verdict, refusal otherwise. */
  lemma RouterChoosesResearchIff(state: State)
    requires |state| > 0
    ensures DecideNextNode(state) == ResearcherAgentLabel <==> IsRelevantVerdict(state[|state| - 1])
    ensures DecideNextNode(state) == RefusalLabel <==> !IsRelevantVerdict(state[|state| - 1])
    ensures DecideNextNode(state) in PathMap
  {
    LowerEqualsIff(state[|state| - 1].content, "relevant");
  }

  /** The router's choice right after a verdict `v` has been appended. */
  lemma RouterOnVerdict(prefix: State, v: Message)
    ensures DecideNextNode(prefix + [v]) == if IsRelevantVerdict(v) then ResearcherAgentLabel else RefusalLabel
  {
    RouterChoosesResearchIff(prefix + [v]);
  }

  /** Three spellings of "relevant" that differ only in letter case. */
  lemma RelevantSpellings()
    ensures EqualsIgnoringCase("relevant", "relevant")
    ensures EqualsIgnoringCase("RELEVANT", "relevant")
    ensures EqualsIgnoringCase("Relevant", "relevant")
  {
  }

  /** Verdicts that go to research: "relevant" in any letter case. */
  lemma RouterAcceptsAnyCase(prefix: State)
    ensures DecideNextNode(prefix + [AIMessage("relevant")]) == ResearcherAgentLabel
    ensures DecideNextNode(prefix + [AIMessage("RELEVANT")]) == ResearcherAgentLabel
    ensures DecideNextNode(prefix + [AIMessage("Relevant")]) == ResearcherAgentLabel
  {
    RelevantSpellings();
    RouterOnVerdict(prefix, AIMessage("relevant"));
    RouterOnVerdict(prefix, AIMessage("RELEVANT"));
    RouterOnVerdict(prefix, AIMessage("Relevant"));
  }

  /**
   * Verdicts that go to refusal: "irrelevant", near misses (no trimming),
   * free text, and "relevant" from anyone but the AI.
   */
  lemma RouterFailsClosed(prefix: State)
    ensures DecideNextNode(prefix + [AIMessage("irrelevant")]) == RefusalLabel
    ensures DecideNextNode(prefix + [AIMessage("IRRELEVANT")]) == RefusalLabel
    ensures DecideNextNode(prefix + [AIMessage("relevant ")]) == RefusalLabel
    ensures DecideNextNode(prefix + [AIMessage("maybe?")]) == RefusalLabel
    ensures DecideNextNode(prefix + [AIMessage("")]) == RefusalLabel
    ensures DecideNextNode(prefix + [UserMessage("relevant")]) == RefusalLabel
    ensures DecideNextNode(prefix + [SystemMessage("relevant")]) == RefusalLabel
  {
    RouterOnVerdict(prefix, AIMessage("irrelevant"));
    RouterOnVerdict(prefix, AIMessage("IRRELEVANT"));
    RouterOnVerdict(prefix, AIMessage("relevant "));
    RouterOnVerdict(prefix, AIMessage("maybe?"));
    RouterOnVerdict(prefix, AIMessage(""));
    RouterOnVerdict(prefix, UserMessage("relevant"));
    RouterOnVerdict(prefix, SystemMessage("relevant"));
  }

  /** Refusal appends one fixed AI message to any state and calls nobody. */
  lemma RefusalAppendsOneFixedMessage(state: State, c: Collaborators)
    ensures Execute(RefusalNode, state, c).calls == []
    ensures Execute(RefusalNode, state, c).update.Ok?
    ensures AddMessages(state, Execute(RefusalNode, state, c).update.value) == state + [AIMessage(RefusalText)]
  {
  }

  /**
   * The classifier shows the model its system message and then the whole
   * state, and afterwards the state holds the old messages and the reply
   * only: the system message is never merged in.
   */
  lemma ClassifierAppendsOnlyTheReply(state: State, c: Collaborators)
    ensures Execute(ClassifierNode, state, c).calls == [LlmCall([SystemMessage(c.classifierPrompt)] + state)]
    ensures Execute(ClassifierNode, state, c).update.Ok? ==>
              AddMessages(state, Execute(ClassifierNode, state, c).update.value)
                == state + [c.llm([SystemMessage(c.classifierPrompt)] + state).value]
  {
  }

  /**
   * `messages[-2]` is the user's question only because of the graph's shape:
   * straight after the classifier appended its verdict `v` to `state`, the
   * researcher asks about the message before `v`; on the bare seed state,
   * without the verdict, it raises IndexError and asks nobody.
   */
  lemma ResearcherReadsMessageBeforeVerdict(state: State, v: Message, query: string, c: Collaborators)
    requires |state| > 0
    ensures Execute(ResearcherNode, state + [v], c).calls == [AgentCall(state[|state| - 1].content)]
    ensures Execute(ResearcherNode, Seed(query), c) == NodeOutcome([], Err(IndexErrorText))
  {
  }

  /** The static graph has no cycle: every edge leads further from START, and END has no way out. */
  lemma GraphIsAcyclic(n: Node, m: Node)
    requires m in Successors(n)
    ensures Rank(n) < Rank(m)
    ensures n != EndNode && m != StartNode
  {
  }

  /** The model input of the first (classifier) step of every endpoint run. */
  function SeedInput(query: string, c: Collaborators): seq<Message> {
    [SystemMessage(c.classifierPrompt), UserMessage(query)]
  }

  /**
   * Reference outcome of a run from the endpoint's seed, written case by case
   * from the graph: classifier failure; research, failing or answering; refusal.
   */
  function ExpectedRun(query: string, c: Collaborators): RunOutcome {
    var input := SeedInput(query, c);
    match c.llm(input)
    case Err(e) => RunOutcome([ClassifierNode], [LlmCall(input)], Err(e))
    case Ok(verdict) =>
      if IsRelevantVerdict(verdict) then
        var calls := [LlmCall(input), AgentCall(query)];
        match c.agent(query)
        case Err(e) => RunOutcome([ClassifierNode, ResearcherNode], calls, Err(e))
        case Ok(answer) =>
          RunOutcome([ClassifierNode, ResearcherNode], calls,
                     Ok([UserMessage(query), verdict, AIMessage(answer)]))
      else
        RunOutcome([ClassifierNode, RefusalNode], [LlmCall(input)],
                   Ok([UserMessage(query), verdict, AIMessage(RefusalText)]))
  }

  /** Every run of the graph from the seed state is the reference outcome. */
  lemma InvokeMatchesExpected(query: string, c: Collaborators)
    ensures Invoke(query, c) == ExpectedRun(query, c)
  {
    var seed := Seed(query);
    var input := SeedInput(query, c);
    assert ClassifierInput(seed, c.classifierPrompt) == input;
    assert Invoke(query, c) == Run(ClassifierNode, seed, c);
    match c.llm(input)
    case Err(e) =>
    case Ok(verdict) =>
      var merged := seed + [verdict];
      assert AddMessages(seed, [verdict]) == merged;
      RouterChoosesResearchIff(merged);
      assert merged[|merged| - 2] == UserMessage(query);
      if IsRelevantVerdict(verdict) {
        assert Next(ClassifierNode, merged) == ResearcherNode;
        match c.agent(query)
        case Err(e) =>
        case Ok(answer) =>
          assert AddMessages(merged, [AIMessage(answer)]) == [UserMessage(query), verdict, AIMessage(answer)];
      } else {
        assert Next(ClassifierNode, merged) == RefusalNode;
        assert AddMessages(merged, [AIMessage(RefusalText)]) == [UserMessage(query), verdict, AIMessage(RefusalText)];
      }
  }

  /**
   * A successful run executes the classifier and then exactly one of the
   * researcher and refusal, and ends with three messages: the query, the
   * classifier's reply, and the answer or the refusal text.
   */
  lemma SuccessfulRunShape(query: string, c: Collaborators)
    requires Invoke(query, c).result.Ok?
    ensures c.llm(SeedInput(query, c)).Ok?
    ensures IsRelevantVerdict(c.llm(SeedInput(query, c)).value) ==> c.agent(query).Ok?
    ensures var verdict := c.llm(SeedInput(query, c)).value;
            var research := IsRelevantVerdict(verdict);
            && Invoke(query, c).trace == [ClassifierNode, if research then ResearcherNode else RefusalNode]
            && Invoke(query, c).result.value
                 == [UserMessage(query), verdict,
                     AIMessage(if research then c.agent(query).value else RefusalText)]
  {
    InvokeMatchesExpected(query, c);
  }

  /**
   * From any node and state, no node runs twice, at most two nodes run,
   * and a node that runs is one of the three registered ones.
   */
  lemma EachNodeRunsAtMostOnce(n: Node, state: State, c: Collaborators)
    ensures forall i, j :: 0 <= i < j < |Run(n, state, c).trace| ==>
              Run(n, state, c).trace[i] != Run(n, state, c).trace[j]
    ensures |Run(n, state, c).trace| <= 2
  {
  }

  /** The researcher, whenever it runs, is asked the user's query and not the verdict. */
  lemma ResearcherAskedTheQuery(query: string, c: Collaborators)
    requires ResearcherNode in Invoke(query, c).trace
    ensures Invoke(query, c).calls == [LlmCall(SeedInput(query, c)), AgentCall(query)]
  {
    InvokeMatchesExpected(query, c);
  }

  /** The endpoint answers with the last message of the final state, and fails only when the run failed. */
  lemma EndpointReturnsLastMessage(query: string, c: Collaborators)
    ensures CookingEndpoint(query, c).Ok? <==> Invoke(query, c).result.Ok?
    ensures Invoke(query, c).result.Ok? ==>
              var final := Invoke(query, c).result.value;
              |final| == 3 && CookingEndpoint(query, c) == Ok(final[|final| - 1].content)
  {
    InvokeMatchesExpected(query, c);
  }

  /** The endpoint's answer on each branch, and exactly when it fails. */
  lemma EndpointResponse(query: string, c: Collaborators)
    ensures CookingEndpoint(query, c).Err? <==>
              c.llm(SeedInput(query, c)).Err? ||
              (IsRelevantVerdict(c.llm(SeedInput(query, c)).value) && c.agent(query).Err?)
    ensures c.llm(SeedInput(query, c)).Ok? && !IsRelevantVerdict(c.llm(SeedInput(query, c)).value) ==>
              CookingEndpoint(query, c) == Ok(RefusalText)
    ensures c.llm(SeedInput(query, c)).Ok? && IsRelevantVerdict(c.llm(SeedInput(query, c)).value) ==>
              CookingEndpoint(query, c) == (match c.agent(query)
                                            case Ok(answer) => Ok(answer)
                                            case Err(e) => Err(e))
  {
    InvokeMatchesExpected(query, c);
  }

  /**
   * When the classifier's model call fails, the endpoint reports that error,
   * only the classifier ran, and the research agent was never called.
   */
  lemma ClassifierFailureShortCircuits(query: string, c: Collaborators)
    requires c.llm(SeedInput(query, c)).Err?
    ensures CookingEndpoint(query, c) == Err(c.llm(SeedInput(query, c)).error)
    ensures Invoke(query, c).trace == [ClassifierNode]
    ensures AgentCallCount(Invoke(query, c).calls) == 0
  {
    InvokeMatchesExpected(query, c);
  }

  /** Both collaborator sets give the same answer to `call`. */
  predicate AnswersAgree(c1: Collaborators, c2: Collaborators, call: Call) {
    match call
    case LlmCall(messages) => c1.llm(messages) == c2.llm(messages)
    case AgentCall(input) => c1.agent(input) == c2.agent(input)
  }

  /** A node depends on its collaborators only through the answers to the calls it logs. */
  lemma ExecuteDependsOnlyOnLoggedCalls(n: Node, state: State, c1: Collaborators, c2: Collaborators)
    requires IsAgentNode(n)
    requires c1.classifierPrompt == c2.classifierPrompt
    requires forall i :: 0 <= i < |Execute(n, state, c1).calls| ==> AnswersAgree(c1, c2, Execute(n, state, c1).calls[i])
    ensures Execute(n, state, c2) == Execute(n, state, c1)
  {
    var calls := Execute(n, state, c1).calls;
    match n
    case ClassifierNode => assert AnswersAgree(c1, c2, calls[0]);
    case ResearcherNode => if |state| >= 2 { assert AnswersAgree(c1, c2, calls[0]); }
    case RefusalNode =>
  }

  /**
   * The call log is complete: a run depends on its collaborators only
   * through the answers to the calls it logs.
   */
  lemma {:induction false} RunDependsOnlyOnLoggedCalls(n: Node, state: State, c1: Collaborators, c2: Collaborators)
    requires c1.classifierPrompt == c2.classifierPrompt
    requires forall i :: 0 <= i < |Run(n, state, c1).calls| ==> AnswersAgree(c1, c2, Run(n, state, c1).calls[i])
    ensures Run(n, state, c2) == Run(n, state, c1)
    decreases Rank(EndNode) - Rank(n)
  {
    if n == EndNode {
    } else if n == StartNode {
      assert Run(n, state, c1) == Run(Next(StartNode, state), state, c1);
      RunDependsOnlyOnLoggedCalls(Next(StartNode, state), state, c1, c2);
    } else {
      var step := Execute(n, state, c1);
      var out := Run(n, state, c1);
      match step.update {
        case Err(_) =>
          ExecuteDependsOnlyOnLoggedCalls(n, state, c1, c2);
        case Ok(delta) =>
          var merged := AddMessages(state, delta);
          var rest := Run(Next(n, merged), merged, c1);
          assert out.calls == step.calls + rest.calls;
          forall i | 0 <= i < |step.calls| ensures AnswersAgree(c1, c2, step.calls[i]) {
            assert out.calls[i] == step.calls[i];
          }
          ExecuteDependsOnlyOnLoggedCalls(n, state, c1, c2);
          forall i | 0 <= i < |rest.calls| ensures AnswersAgree(c1, c2, rest.calls[i]) {
            assert out.calls[|step.calls| + i] == rest.calls[i];
          }
          RunDependsOnlyOnLoggedCalls(Next(n, merged), merged, c1, c2);
      }
    }
  }

  /**
   * Off the research branch the research agent plays no part: replacing it
   * changes neither the run nor the endpoint's answer.
   */
  lemma AgentIrrelevantWithoutResearch(query: string, c: Collaborators,
                                       otherAgent: string -> Result<string, string>)
    requires ResearcherNode !in Invoke(query, c).trace
    ensures Invoke(query, c.(agent := otherAgent)) == Invoke(query, c)
    ensures CookingEndpoint(query, c.(agent := otherAgent)) == CookingEndpoint(query, c)
  {
    InvokeMatchesExpected(query, c);
    var calls := Invoke(query, c).calls;
    assert calls == [LlmCall(SeedInput(query, c))];
    RunDependsOnlyOnLoggedCalls(StartNode, Seed(query), c, c.(agent := otherAgent));
  }

  /** A model stand-in that always answers with `verdict`. */
  function ConstantModel(verdict: string): seq<Message> -> Result<Message, string> {
    (messages: seq<Message>) => Ok(AIMessage(verdict))
  }

  /** A relevant query is answered by the research agent. */
  lemma ScenarioRelevantQuery(prompt: string)
    ensures CookingEndpoint("How do I boil an egg?",
              Collaborators(prompt, ConstantModel("relevant"),
                            (q: string) => if q == "How do I boil an egg?"
                                           then Ok("Place egg in boiling water for 7 minutes.")
                                           else Err("unexpected question")))
            == Ok("Place egg in boiling water for 7 minutes.")
  {
    var c := Collaborators(prompt, ConstantModel("relevant"),
                           (q: string) => if q == "How do I boil an egg?"
                                          then Ok("Place egg in boiling water for 7 minutes.")
                                          else Err("unexpected question"));
    assert IsRelevantVerdict(AIMessage("relevant"));
    EndpointResponse("How do I boil an egg?", c);
  }

  /** An irrelevant or ambiguous verdict yields the refusal text without consulting the agent. */
  lemma ScenarioRefusedQuery(query: string, prompt: string, agent: string -> Result<string, string>)
    ensures CookingEndpoint(query, Collaborators(prompt, ConstantModel("irrelevant"), agent)) == Ok(RefusalText)
    ensures CookingEndpoint(query, Collaborators(prompt, ConstantModel("maybe?"), agent)) == Ok(RefusalText)
    ensures AgentCallCount(Invoke(query, Collaborators(prompt, ConstantModel("irrelevant"), agent)).calls) == 0
    ensures AgentCallCount(Invoke(query, Collaborators(prompt, ConstantModel("maybe?"), agent)).calls) == 0
  {
    EndpointResponse(query, Collaborators(prompt, ConstantModel("irrelevant"), agent));
    EndpointResponse(query, Collaborators(prompt, ConstantModel("maybe?"), agent));
    InvokeMatchesExpected(query, Collaborators(prompt, ConstantModel("irrelevant"), agent));
    InvokeMatchesExpected(query, Collaborators(prompt, ConstantModel("maybe?"), agent));
  }

  /** A failing classifier model gives an error response and the agent is not called. */
  lemma ScenarioClassifierFails(query: string, prompt: string, agent: string -> Result<string, string>)
    ensures CookingEndpoint(query, Collaborators(prompt, (m: seq<Message>) => Err("rate limited"), agent))
            == Err("rate limited")
    ensures AgentCallCount(Invoke(query, Collaborators(prompt, (m: seq<Message>) => Err("rate limited"), agent)).calls) == 0
  {
    ClassifierFailureShortCircuits(query, Collaborators(prompt, (m: seq<Message>) => Err("rate limited"), agent));
  }
}
