# Cooking assistant routing core, in Dafny

This project models the routing logic of the cooking assistant backend
(`backend/agents/cooking_assistant.py`). An HTTP endpoint takes a user's
query and runs a three-node LangGraph state graph over it:

- The **classifier** sends a chat model the classifier system prompt followed
  by the conversation, and appends the model's verdict.
- The **router** reads the verdict. An AI message reading "relevant" in any
  letter case goes to the **researcher**, a ReAct agent with web search over
  the user's question. Everything else goes to **refusal**, which appends a
  fixed message.
- The endpoint returns the content of the last message, or the text of
  whatever was raised.

Files:

- `wrappers.dfy`: `Option` and `Result`.
- `messages.dfy`: messages and roles, the conversation state, the
  `add_messages` reducer (plain append), Python negative list indexing, and
  ASCII `str.lower`, with the lemma that comparing `s.lower()` with a
  lower-case word is exactly case-insensitive comparison.
- `cooking_assistant.dfy`: the three node functions, the router, the graph,
  and the endpoint. The graph is a fixed transition function with a rank that
  every edge increases. A generic interpreter `Run` executes nodes, merges
  their deltas and follows edges until END. The chat model and the agent
  executor are oracle functions in a `Collaborators` value. Every oracle
  invocation is logged as a `Call`, so the model can state what was sent to
  whom.
- `cooking_properties.dfy`: the properties. These cover the router's rule and
  its fail-closed default, and the effect of each node. `ExpectedRun` is a
  reference definition of a run from the endpoint's seed state, written case
  by case, and `InvokeMatchesExpected` proves that the graph interpreter
  agrees with it. From that follow the final state's shape, the endpoint's
  response on each branch, the short circuit on classifier failure, and the
  end-to-end scenarios. `RunDependsOnlyOnLoggedCalls` shows that the call log
  is complete: a run depends on its collaborators only through the answers to
  the logged calls.

Two points about the code that the model keeps as written:

- A successful run ends with three messages: the query, the classifier's
  verdict (line 46 appends it), and the answer or the refusal text.
  `SuccessfulRunShape` states them.
- The `"irrelevant"` test at lines 77-78 returns the same label as the
  fall-through at line 79. `DecideNextNode` keeps it.

## Model

| member | source | states |
|---|---|---|
| Messages.AddMessages | backend/agents/cooking_assistant.py:35-36 | the reducer appends a node's delta: the old state is kept as a prefix and the delta follows it, lengths add |
| Messages.PyIndex | backend/agents/cooking_assistant.py:65 | a Python list lookup succeeds exactly for `-len(s) <= i < len(s)`; outside that it raises IndexError |
| Messages.PyIndexFromEnd | backend/agents/cooking_assistant.py:65 | index `-k` is the first of the last k elements |
| Messages.LowerChar | backend/agents/cooking_assistant.py:75 | lower-casing leaves no upper-case ASCII letter and changes only upper-case letters, each to its lower-case form |
| Messages.Lower | backend/agents/cooking_assistant.py:75 | `str.lower` keeps the length and lower-cases character by character |
| Messages.LowerCharMatches | backend/agents/cooking_assistant.py:75 | one character lower-cases to a lower-case letter exactly when it is that letter in either case |
| Messages.LowerEqualsIff | backend/agents/cooking_assistant.py:75-77 | `s.lower() == word` for a lower-case word holds exactly when s spells word letter by letter in any case: no trimming, no other normalisation |
| CookingAssistant.ClassifierInput | backend/agents/cooking_assistant.py:41-42 | the model is shown the system message first, followed by the whole state |
| CookingAssistant.ClassifierAgent | backend/agents/cooking_assistant.py:40-46 | exactly one model call, on the system message plus the state; the delta is the reply alone; a model failure propagates |
| CookingAssistant.Refusal | backend/agents/cooking_assistant.py:49-50 | calls nobody and, for every state, appends exactly one AI message with the fixed refusal text |
| CookingAssistant.ResearcherAgent | backend/agents/cooking_assistant.py:64-69 | asks the agent about `messages[-2]` and appends one AI message holding the output; fewer than two messages raises IndexError and calls nobody; an agent failure propagates |
| CookingAssistant.DecideNextNode | backend/agents/cooking_assistant.py:72-79 | the router is total and only returns one of the two labels of the path map |
| CookingAssistant.Next | backend/agents/cooking_assistant.py:87-97 | every transition is an edge of the static graph and moves strictly further from START |
| CookingAssistant.Successors | backend/agents/cooking_assistant.py:87-97 | the static edges: only END has no way out, every edge leads further from START, and the classifier's path map leads to exactly the researcher and refusal |
| CookingAssistant.Execute | backend/agents/cooking_assistant.py:84-86 | each registered node adds exactly one message on success; only the researcher calls the agent |
| CookingAssistant.Run | backend/agents/cooking_assistant.py:83-98 | graph execution terminates; the executed nodes are registered nodes in strictly increasing rank; on success the final state is the start state plus one message per executed node |
| CookingAssistant.CookingEndpoint | backend/agents/cooking_assistant.py:108-114 | the endpoint succeeds only when the run does, and reports the run's error text unchanged |
| CookingAssistant.Seed | backend/agents/cooking_assistant.py:111 | the run starts from a fresh state holding one user message, the query |
| CookingAssistant.Invoke | backend/agents/cooking_assistant.py:111 | every run from the seed executes the classifier first; a final state starts with the query and has one more message per executed node |
| CookingProperties.RouterChoosesResearchIff | backend/agents/cooking_assistant.py:72-79 | research is chosen exactly when the last message is an AI message spelling "relevant" in any case; otherwise refusal; the label is always a key of the path map |
| CookingProperties.RouterOnVerdict | backend/agents/cooking_assistant.py:72-79 | straight after a verdict is appended, the route depends on that verdict alone |
| CookingProperties.RouterAcceptsAnyCase | backend/agents/cooking_assistant.py:74-76 | "relevant", "RELEVANT" and "Relevant" from the AI route to research |
| CookingProperties.RouterFailsClosed | backend/agents/cooking_assistant.py:77-79 | "irrelevant", "IRRELEVANT", "relevant " with a trailing space, "maybe?", the empty text, and "relevant" from a user or system message all route to refusal |
| CookingProperties.RefusalAppendsOneFixedMessage | backend/agents/cooking_assistant.py:49-50 | for every state, refusal calls nobody and appends exactly one AI message with the fixed refusal text |
| CookingProperties.ClassifierAppendsOnlyTheReply | backend/agents/cooking_assistant.py:40-46 | the model receives the system message followed by the state; the state then grows by the reply only, and the system message never enters it |
| CookingProperties.ResearcherReadsMessageBeforeVerdict | backend/agents/cooking_assistant.py:64-69 | right after a verdict is appended, the researcher asks about the message before the verdict; on the bare seed state it raises IndexError |
| CookingProperties.GraphIsAcyclic | backend/agents/cooking_assistant.py:87-97 | every static edge increases the rank, START has no incoming edge and END no outgoing one |
| CookingProperties.InvokeMatchesExpected | backend/agents/cooking_assistant.py:87-111 | a run from the one-message seed state is, case by case, classifier failure, research that fails, research that answers, or refusal, with the given trace, calls and final state |
| CookingProperties.SuccessfulRunShape | backend/agents/cooking_assistant.py:87-111 | a successful run executes the classifier and then exactly one branch node, and ends with exactly three messages: the query, the verdict, and the answer or the refusal text |
| CookingProperties.EachNodeRunsAtMostOnce | backend/agents/cooking_assistant.py:87-97 | from any node and state, no node executes twice and at most two nodes execute |
| CookingProperties.ResearcherAskedTheQuery | backend/agents/cooking_assistant.py:64-69 | whenever the researcher runs from the seed state, the agent is asked the user's query, not the verdict, and the calls are exactly one model call and one agent call |
| CookingProperties.EndpointReturnsLastMessage | backend/agents/cooking_assistant.py:110-112 | the endpoint succeeds exactly when the run does, and then returns the content of the last of the three final messages |
| CookingProperties.EndpointResponse | backend/agents/cooking_assistant.py:108-114 | the endpoint fails exactly when the classifier's model fails, or when the verdict is relevant and the agent fails; on refusal it returns the refusal text; on research it returns the agent's output or error |
| CookingProperties.ClassifierFailureShortCircuits | backend/agents/cooking_assistant.py:108-114 | when the classifier's model call fails, the endpoint returns that error, only the classifier ran, and the agent was never called |
| CookingProperties.ExecuteDependsOnlyOnLoggedCalls | backend/agents/cooking_assistant.py:40-69 | a node's outcome is determined by the answers to the calls it logs |
| CookingProperties.RunDependsOnlyOnLoggedCalls | backend/agents/cooking_assistant.py:83-98 | a whole run is determined by the answers to the calls it logs: every collaborator use is logged |
| CookingProperties.AgentIrrelevantWithoutResearch | backend/agents/cooking_assistant.py:88-95 | when the research branch is not taken, replacing the agent changes neither the run nor the response |
| CookingProperties.ScenarioRelevantQuery | backend/agents/cooking_assistant.py:108-112 | "How do I boil an egg?" with a "relevant" verdict returns the agent's answer |
| CookingProperties.ScenarioRefusedQuery | backend/agents/cooking_assistant.py:49-50 | an "irrelevant" or "maybe?" verdict returns the refusal text, and the agent is not called |
| CookingProperties.ScenarioClassifierFails | backend/agents/cooking_assistant.py:113-114 | a failing classifier model yields its error text as the response error, and the agent is not called |

## Left out

- The chat model (`init_chat_model`, `llm.invoke`), the ReAct agent and `AgentExecutor`, and Tavily search are foreign network calls. They appear only as the oracle functions `Collaborators.llm` and `Collaborators.agent`. The agent's tolerance of parsing errors and its search-result limit are inside that oracle.
- The model oracle may return a message of any role. The real chat model returns an AI message. Allowing any role only widens the inputs the router is proved correct for.
- The agent is always invoked with chat history `""`. That constant is folded into the agent oracle, and a call records only the question.
- The prompt texts from the `prompts` module are not part of this model. The classifier prompt is an uninterpreted string, `Collaborators.classifierPrompt`. The researcher prompt is inside the agent oracle.
- Logging (`logger.critical`), the LangSmith tracer, `dotenv` and the credentials read from the environment are side effects and configuration with no effect on routing.
- FastAPI, pydantic, uvicorn, `async` and the HTTP status code are transport. The endpoint's result is `Ok(response)`, or `Err(detail)` carrying the exception text, which the handler turns into HTTP 500.
- Messages.Lower: lower-cases ASCII letters only. Python's `str.lower` also maps other Unicode letters, and can change the length.
- Messages.AddMessages: models the reducer as plain append. LangGraph's `add_messages` also replaces messages that reuse an id, converts dict messages to message objects and assigns ids. No node here returns a message with a reused id.
- CookingAssistant.DecideNextNode: requires a non-empty state. On an empty list `messages[-1]` would raise, but the graph calls the router only after the classifier has appended its reply.
