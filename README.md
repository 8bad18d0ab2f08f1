# Customer-service agent workflow, modelled in Dafny

This project models the deterministic core of an e-commerce customer-service
agent:

- the conversation **workflow**, a small graph of five nodes: verify identity,
  process query, execute action, collect feedback, and end. The nodes update
  one conversation state record in place;
- the **state record** and its flat dictionary form (`to_dict` / `from_dict`);
- the agent's **heuristics**: a word-count sentiment score, keyword intent
  detection, prefix-based action suggestion, and the shape of the response it
  builds around the language model's reply;
- the **mock backend**: it routes on endpoint strings and answers with fixed
  dictionaries. The tool functions wrap its answers in `ActionResult`s.

Modules, one per source file plus two shared ones:

| module | file | models |
|---|---|---|
| `Strings` | strings.dfy | `startswith`, `endswith`, `in`, `split("/")`, `lower()`, `split()` |
| `Values` | values.dfy | Python values in dictionaries, exceptions, `Option`, `Result` |
| `State` | state.dfy | models/state.py |
| `Tools` | tools.dfy | tools/tools.py |
| `Agent` | agent.dfy | agents/csr_agent.py |
| `Workflow` | workflow.dfy | graph/workflow.py |

**Workflow.** Each node is a module-level method that takes a `CSRState`
object and changes its fields in place. Each method is specified by a pure step function on the state record, for example
`VerifyIdentityNode` by `VerifyStep`. The graph is an explicit node datatype
with three parts:

- a step function `RunNode`;
- the edge table `NextNode`;
- the run `RunFrom`, which terminates because every edge moves towards the end
  node, except the verify self-loop, which uses up an attempt.

`Invoke` is a loop over the nodes, and it is proved to produce the state that
`InvokeSpec` describes. The properties of a run are lemmas about `InvokeSpec`.

**External calls.** Three of the workflow's four external calls are
parameters (`Outcomes`): `generate_response`, `execute_action.run` and
`log_feedback.run`. Each either returns or raises. The fourth, the verify
node's `verify_identity` call, uses the concrete mock. `ConcreteAgent` plugs in the modelled
agent with the empty action list that the process node passes.

**`from_dict`.** It is a total function returning a `Result`:

- an unknown phase tag fails, as the `WorkflowState` constructor raises;
- a value that the typed field cannot hold fails with `IllTyped`;
- a missing key takes the field's default.

## Model

| member | source | states |
|---|---|---|
| `State.PhaseTag` | models/state.py:6-12 | each phase is stored as its own tag, and no two phases share one |
| `State.PhaseOf` | models/state.py:6-12 | each of the six tags maps back to its own phase, and every other value is rejected |
| `State.Default` | models/state.py:14-32 | not verified, no attempts, phase `init`, no messages, empty user context and pending action, confidence 1.0, and every other flag false |
| `State.ToDict` | models/state.py:34-47 | exactly the ten field keys; the phase is stored as its tag; `FromDict` of the result gives back the same state |
| `State.FromDict` | models/state.py:49-64 | an empty dictionary gives the defaults; it fails with `BadPhase` exactly when a present phase tag names no phase; it succeeds exactly when every present field key holds a well-typed value; on success each field is the stored value when present and its default when missing |
| `State.FirstIllTyped` | models/state.py:54-63 | finds a key whose present value the field cannot hold, or finds none exactly when all are well typed |
| `Strings.SplitOn` | tools/tools.py:66 | `split` on one separator gives at least one piece, and no piece contains the separator |
| `Strings.JoinSplitOn` | tools/tools.py:66 | joining the pieces of `split` with the separator gives back the string |
| `Strings.SplitOnAfterSep` | tools/tools.py:66 | the text before the first separator is the first piece |
| `Strings.Lower` | agents/csr_agent.py:60 | same length; each ASCII capital becomes its small letter, no ASCII capital remains, and every other character is kept |
| `Strings.Words` | agents/csr_agent.py:60 | whitespace `split()` gives non-empty words without whitespace |
| `Strings.WordsOfWord` | agents/csr_agent.py:60 | a non-empty run without whitespace is one word, not split further |
| `Strings.WordsBreakAtSpace` | agents/csr_agent.py:60 | a whitespace character splits the words exactly there: the words of `a + c + b` are those of `a` followed by those of `b` |
| `Strings.WordsKeepNonSpace` | agents/csr_agent.py:60 | the words, concatenated, are exactly the non-whitespace characters of the message, in order |
| `Tools.PriorityTag` | tools/tools.py:12-15 | each priority is stored as its own tag (`high`, `medium`, `low`), and no two priorities share one |
| `Tools.OrderNumberOf` | tools/tools.py:66 | for an `/orders/` endpoint, `split("/")[2]` is the text after the prefix up to the next `/` or the end, and contains no `/` |
| `Tools.OrderNumberIsSegment` | tools/tools.py:64-106 | for `/orders/X/...`, the order number (`split("/")[2]`) is `X` whenever `X` contains no `/` |
| `Tools.AuthAnswer` | tools/tools.py:43-51 | answers exactly when `customer_id` is a string; `verified` is whether it starts with `USER`; `user_info.id` echoes it |
| `Tools.OrderAnswer` | tools/tools.py:64-106 | every order answer carries the order number and the branch's own fields |
| `Tools.BranchOf` | tools/tools.py:43-122 | an order branch implies the `/orders/` prefix; that the tests are taken in `if`/`elif` order is stated by the branch lemmas `OrderStatusBranch` through `FixedBranches` |
| `Tools.MockApiCall` | tools/tools.py:38-122 | the identity branch answers as `AuthAnswer`; a failure happens only on a branch that reads a missing or malformed body; an order branch echoes the order number; an unrouted endpoint answers `{"status": "success"}` |
| `Tools.OrderStatusBranch` | tools/tools.py:64 | `/orders/X/status` reaches the order-status branch |
| `Tools.UserContextBranch` | tools/tools.py:72 | `/users/X/context` reaches the user-context branch |
| `Tools.UpdateShippingBranch` | tools/tools.py:86 | `/orders/X/update_shipping` reaches its branch and no earlier one |
| `Tools.RefundBranch` | tools/tools.py:94 | `/orders/X/refund` reaches its branch and no earlier one |
| `Tools.OrderEmailBranch` | tools/tools.py:101 | `/orders/X/email` reaches its branch and no earlier one |
| `Tools.ActionEndpointUnrouted` | tools/tools.py:211 | `/actions/X/execute` matches no branch |
| `Tools.FixedBranches` | tools/tools.py:43-122 | the fixed endpoints reach their own branches, and `/feedback/log` reaches none |
| `Tools.VerifyIdentity` | tools/tools.py:124-155 | succeeds exactly when the identifier starts with `USER`; on success the data is `{"user_info": ...}` echoing the identifier; otherwise it fails with `Invalid credentials` |
| `Tools.Wrap` | tools/tools.py:162-173 | a normal return gives `success=True`, the fixed message and the answer as data; an exception gives `success=False`, the failure message and the exception text |
| `Tools.KnowledgeBaseParams` | tools/tools.py:163-165 | `category` is among the parameters exactly when it is given and non-empty |
| `Tools.QueryKnowledgeBase` | tools/tools.py:157-173 | always succeeds with the knowledge-base articles |
| `Tools.FetchOrderStatus` | tools/tools.py:175-188 | succeeds with status `shipped` and echoes the order number when it contains no `/` |
| `Tools.GetUserContext` | tools/tools.py:190-203 | succeeds with the fixed user context |
| `Tools.ExecuteAction` | tools/tools.py:205-218 | succeeds with `{"status": "success"}` and names the action in its message |
| `Tools.LogFeedback` | tools/tools.py:220-237 | succeeds with `{"status": "success"}` |
| `Tools.UpdateShippingAddress` | tools/tools.py:239-256 | succeeds, echoes the new address and the order number when it contains no `/` |
| `Tools.RequestRefund` | tools/tools.py:258-275 | succeeds, echoes the reason and the order number when it contains no `/` |
| `Tools.SendOrderEmail` | tools/tools.py:277-294 | succeeds, echoes the recipient, echoes the order number when it contains no `/`, and reports the email sent |
| `Tools.UpdateAccountDetails` | tools/tools.py:296-313 | succeeds with the user id, the updated fields and the fixed status |
| `Tools.ScheduleCallback` | tools/tools.py:315-332 | succeeds with the user id, the callback time and the fixed status |
| `Agent.CountIn` | agents/csr_agent.py:61 | the count is at most the number of words, and zero exactly when no word is in the list |
| `Agent.Sentiment` | agents/csr_agent.py:54-62 | the score is in [0, 1]; it is 0, ½ or 1 exactly when negatives outnumber, equal or are outnumbered by positives |
| `Agent.Detected` | agents/csr_agent.py:74-79 | an intent is detected exactly when some keyword of its row occurs in the text; every value is `True` |
| `Agent.IntentsOf` | agents/csr_agent.py:64-81 | never empty; all values `True`; a listed intent is present exactly when one of its keywords is a substring of the lower-cased message; keys are the four intents or `general_inquiry`; `{general_inquiry: True}` exactly when nothing matches |
| `Agent.IntentsFromMeaning` | agents/csr_agent.py:77-81 | for any table of distinct intents, the `or {'general_inquiry': True}` fallback has the properties above |
| `Agent.DetermineIntent` | agents/csr_agent.py:64-81 | the loop computes `IntentsOf` |
| `Agent.CollectIntents` | agents/csr_agent.py:74-79 | the loop over the intent table collects exactly the intents `Detected` describes |
| `Agent.IdOf` | agents/csr_agent.py:123 | `action['id']` is readable for `startswith` exactly when it is present and a string |
| `Agent.RelevantActions` | agents/csr_agent.py:119-130 | no more suggestions than available actions, and an action is among them exactly when a detected intent's prefix starts its id; that the filter keeps the order is `RelevantActionsSnoc` |
| `Agent.RelevantActionsSnoc` | agents/csr_agent.py:121-128 | one more action adds itself at the end when relevant, and nothing otherwise |
| `Agent.FirstIdFault` | agents/csr_agent.py:123-127 | no exception exactly when every action's id is a readable string |
| `Agent.FirstIdFaultSnoc` | agents/csr_agent.py:121-123 | the first unreadable id after readable ones is the first exception |
| `Agent.Suggestions` | agents/csr_agent.py:114-130 | raises exactly when an intent that reads ids is present and some id is unreadable; otherwise the relevant actions; no actions give no suggestions |
| `Agent.SuggestActions` | agents/csr_agent.py:114-130 | the loop computes `Suggestions` |
| `Agent.FirstIdFaultAt` | agents/csr_agent.py:121-128 | the loop's early exit raises the first exception of the whole list |
| `Agent.FaultIsFirst` | agents/csr_agent.py:121-128 | the loop's early exit agrees with `Suggestions` |
| `Agent.ResponseOf` | agents/csr_agent.py:83-112 | succeeds exactly when the message is a string, the model replied and `_suggest_actions` does not raise; a non-string message fails with the `lower` attribute error, a failed model call with its exception, and otherwise a failure is the one `_suggest_actions` raised; the confidence is always 0.85; the reply text, sentiment, intents and suggestions are those of the message; with no available actions it fails only for a non-string message or a failed model call |
| `Agent.GenerateResponse` | agents/csr_agent.py:83-112 | the method computes `ResponseOf` |
| `Workflow.VerifiedContext` | graph/workflow.py:90 | the `user_info` entries when the result carries them as a dictionary, and empty when the key is missing |
| `Workflow.VerifiedContextOfSuccess` | graph/workflow.py:84-90 | a successful check stores the mock's user record for the identifier |
| `Workflow.ProcessInput` | graph/workflow.py:105-111 | there is an input exactly when the last message is a customer message or a dictionary; it is the message's content, or the dictionary's `content` with `""` as default |
| `Workflow.VerifyStep` | graph/workflow.py:76-94 | if already verified or out of attempts, nothing changes; otherwise attempts rise by exactly one; only `verified`, attempts and `user_context` can change; verified afterwards exactly when it was before or an attempt was left and the last message is a human one containing `CUST` and starting with `USER`; `user_context` changes only on a fresh success, to the mock's user record |
| `Workflow.ProcessStep` | graph/workflow.py:96-137 | a processed state is returned unchanged; `processed` is true on every path; only confidence, escalation, pending action and `processed` change; no usable last message changes only `processed`; a raising agent sets escalation and leaves the pending action; a reply sets confidence (default 1.0) and escalation exactly when it is below 0.7; the pending action changes only to the first suggestion, and a reply with a non-empty suggestion list sets it to the first one |
| `Workflow.ExecuteStep` | graph/workflow.py:139-153 | nothing changes without a pending action; the pending action is cleared exactly when the call returns; if it stays, escalation is required; escalation changes only when the call raises |
| `Workflow.FeedbackStep` | graph/workflow.py:155-168 | only `feedback_submitted` changes; it becomes true exactly when escalation is required and the log call returns |
| `Workflow.EndStep` | graph/workflow.py:188-191 | clears `processed` and changes nothing else |
| `Workflow.VerifyCondition` | graph/workflow.py:170-172 | when it holds, the verify node changes nothing; when it fails, the verify node uses up one attempt |
| `Workflow.RouteState` | graph/workflow.py:174-180 | execute exactly when an action is pending; feedback exactly when none is pending, escalation is required and feedback is not yet submitted; otherwise end |
| `Workflow.RouteSkipsIdleNodes` | graph/workflow.py:139-180 | the router skips the execute node only when it would change nothing, and goes straight to end only when the feedback node would change nothing |
| `Workflow.RunNode` | graph/workflow.py:40-44 | no node changes the phase or the messages; only the verify node changes `verified`, attempts and `user_context` |
| `Workflow.NextNode` | graph/workflow.py:47-72 | only the end node has no successor; verify goes to process exactly when the verify condition holds and back to verify otherwise; process goes to execute, feedback or end; execute and feedback go to end |
| `Workflow.RunFrom` | graph/workflow.py:47-72 | a run starts at its first node and finishes at the end node |
| `Workflow.InvokeSpec` | graph/workflow.py:182-186 | `invoke` starts at the verify node and finishes at the end node, with `processed` false and the phase and messages unchanged |
| `Workflow.Progress` | graph/workflow.py:47-69 | every edge moves towards the end node, except the verify self-loop, which uses up an attempt |
| `Workflow.VerifyPhase` | graph/workflow.py:47-54 | the self-loop exits with `verified` or attempts ≥ 3; attempts never exceed max(initial, 3); the exit state is the start if the condition already held, else verified after one attempt when the last message carries credentials, else attempts at 3 |
| `Workflow.VerifyRounds` | graph/workflow.py:47-54 | the verify node runs once when the condition holds or the credentials pass, and otherwise once per remaining attempt |
| `Workflow.VerifyRunShape` | graph/workflow.py:47-54 | a run from the verify node is the self-loop followed by a run from the process node |
| `Workflow.ProcessRunShape` | graph/workflow.py:57-69 | after the process node comes execute if an action is pending, else feedback if escalation is required and feedback is not yet submitted, else nothing; then end |
| `Workflow.InvokeClosedForm` | graph/workflow.py:182-186 | `invoke` is the verify loop, one processing step, the routed node and the end node |
| `Workflow.RunEndsUnprocessed` | graph/workflow.py:182-191 | every run ends at the end node with `processed` false, and leaves the phase and the messages as they were |
| `Workflow.RunMonotone` | graph/workflow.py:76-168 | `verified` and `feedback_submitted` never go back to false, and attempts never decrease |
| `Workflow.InvokeTrace` | graph/workflow.py:47-72 | one invocation starts at verify and ends at end; it visits process once and never both execute and feedback; it visits verify once per round, at most three times from a non-negative count |
| `Workflow.InvokeLength` | graph/workflow.py:47-72 | one invocation visits the verify node once per round, then two or three more nodes |
| `Workflow.VerifyRoundsBound` | graph/workflow.py:78 | at most three verify rounds from a non-negative count |
| `Workflow.InvokeVerification` | graph/workflow.py:76-94 | after `invoke` the customer is verified exactly when they were before or an attempt was left and the last message carries credentials the mock accepts (contains `CUST`, starts with `USER`); otherwise all attempts are used up; `user_context` changes only on a fresh verification |
| `Workflow.AfterVerifyKeepsIdentity` | graph/workflow.py:96-191 | the nodes after the verify loop leave `verified`, attempts and `user_context` as the loop left them |
| `Workflow.InvokePendingOnlyOnFailure` | graph/workflow.py:139-153 | a pending action survives `invoke` only when executing it raised, and then escalation is required |
| `Workflow.InvokeFeedbackOnlyWhenEscalated` | graph/workflow.py:155-180 | feedback is newly submitted only when escalation is required, no action is pending and the log call returned |
| `Workflow.InvokeExecutesSuggestion` | graph/workflow.py:128-153 | a reply whose first suggestion is a non-empty action sends the run through execute and not feedback; the action is cleared exactly when the call returns and stays pending when it raises |
| `Workflow.ConcreteAgentNeverExecutes` | graph/workflow.py:117-129 | with the real agent and no available actions, the process node never sets a pending action, so it never routes a state without one to execute; a completed reply gives confidence 0.85 and no escalation |
| `Workflow.ScenarioVerified` | graph/workflow.py:80-90 | `"USER42 CUST"` verifies on the first attempt and stores the mock's user record |
| `Workflow.ScenarioRejected` | graph/workflow.py:78-92 | `"CUST1234 hello"` never verifies: one invocation visits verify three times and uses up all attempts |
| `Workflow.InvokeRejected` | graph/workflow.py:78-92 | from a zero count, an unverified customer without credentials goes round the verify node three times and stays unverified |
| `Workflow.CSRState.constructor` | graph/workflow.py:17-28 | a new state holds every field's default |
| `Workflow.CSRState.FromRecord` | graph/workflow.py:17-28 | a state object holding the given fields |
| `Workflow.VerifyIdentityNode` | graph/workflow.py:76-94 | the method updates the state as `VerifyStep` |
| `Workflow.ProcessQueryNode` | graph/workflow.py:96-137 | the method updates the state as `ProcessStep` |
| `Workflow.ExecuteActionNode` | graph/workflow.py:139-153 | the method updates the state as `ExecuteStep` |
| `Workflow.CollectFeedbackNode` | graph/workflow.py:155-168 | the method updates the state as `FeedbackStep` |
| `Workflow.EndNode` | graph/workflow.py:188-191 | the method updates the state as `EndStep` |
| `Workflow.Invoke` | graph/workflow.py:182-186 | running the nodes one at a time from the entry point leaves the state `InvokeSpec` describes, with `processed` false and the phase and messages unchanged |

## Behaviour worth noting

These follow from the code and hold in the model:

- `invoke` always starts at the verify node, whatever `current_state` holds.
- No node ever writes `current_state`.
- A pending action stays set when executing it raises.
- Escalation is recomputed from each reply; it is not sticky.
- A message such as `"CUST1234 hello"` never verifies, because the mock also
  demands the `USER` prefix.
- A customer whose last message carries no accepted credentials goes round
  the verify node until attempts reach 3 within one invocation (three rounds
  from a fresh count). The retries never see a new message.
- An unknown phase tag in `from_dict` raises; there is no fallback.

## Left out

- The language-model call, its prompt, and the `json.dumps` of the context in
  `generate_response` are the outcome `LlmOutcome`. The `chat_history` and
  `user_context` arguments only feed the prompt.
- The `langgraph` machinery is replaced by the node datatype and `RunFrom`.
  This leaves out the graph's recursion limit. A run from a non-negative
  attempt count stays far below it (`VerifyRoundsBound`). One run visits
  `VerifyRounds` verify nodes and then two or three more (`InvokeLength`), and
  without accepted credentials `VerifyRounds` is 3 − attempts. So from a
  stored count low enough that one run exceeds the limit (about −20 or
  lower), `langgraph` stops with its recursion error, where the model keeps
  looping until attempts reach 3. Also left out is the graph returning a dictionary instead of the
  state object. A run is taken to stop after the end node.
- The arguments that the execute and feedback nodes pass to `.run`, its
  argument validation, `@tool` invocation, and `print` logging are not
  modelled. Each call is an outcome that returns or raises. The verify node's
  direct tool call is taken to return `verify_identity_impl`'s result.
- `Workflow.AgentOutcome`: a reply is taken to carry a real confidence and a
  list of dictionaries. A reply whose `confidence` or `suggested_actions` has
  another type is not modelled.
- `State.FromDict` is stricter than the source. Python copies an ill-typed
  stored value into the field unchecked. The model rejects it with `IllTyped`,
  because a typed record cannot hold it.
- `Strings.Lower` lower-cases ASCII letters only. Python's full Unicode case
  mapping is not modelled.
- Exception texts follow Python's wording for `KeyError` and `AttributeError`.
  The texts of the language model's own exceptions are opaque strings.
- The duplicate `CSRState` in graph/workflow.py has no `to_dict`. The model
  keeps one record for both copies.
- Floating point: confidence and sentiment are exact reals.
- `MetaCSRTools.__init__` only stores the API base URL, the key and the
  headers, which the mock never uses.
- app.py, the Streamlit user interface, is not part of this model.
