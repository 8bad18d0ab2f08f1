/** The conversation workflow: five nodes (verify identity, process query,
    execute action, collect feedback, end) wired by two routers, run from
    the verify node until the end node has run. Each node changes the
    conversation state in place; the agent and the two tool calls it makes
    are given as outcomes that either return or raise. */
module Workflow {
  import opened Values
  import opened Strings
  import State
  import Tools
  import Agent

  // ---------------------------------------------------------------------
  // External calls, as outcomes
  // ---------------------------------------------------------------------

  /** What `agent.generate_response` did: returned a response (with its
      `confidence`, if present, and its `suggested_actions`), or raised. */
  datatype AgentOutcome = Replied(confidence: Option<real>, suggestedActions: seq<Dict>) | AgentRaised

  /** What a tool call made through `.run` did. */
  datatype CallOutcome = Returned | Raised

  /** The outcomes of the three calls one run can make. */
  datatype Outcomes = Outcomes(agent: AgentOutcome, execution: CallOutcome, feedbackLog: CallOutcome)

  /** The password the verify node sends along with the candidate identifier. */
  const VerifyPassword: string := "password123"

  /** The most attempts the verify node makes. */
  const MaxAttempts: int := 3

  /** The confidence below which a response requires escalation. */
  const EscalationThreshold: real := 0.7

  // ---------------------------------------------------------------------
  // The nodes, as functions on the state record
  // ---------------------------------------------------------------------

  /** The last message is a human message whose content contains `CUST`:
      the verify node then calls the identity check. */
  predicate Candidate(messages: seq<Value>) {
    && |messages| > 0
    && messages[|messages| - 1].VMessage?
    && messages[|messages| - 1].kind == Human
    && Contains(messages[|messages| - 1].content, "CUST")
  }

  /** A candidate whose content, as the identity mock demands, also starts
      with `USER`. */
  predicate Credentials(messages: seq<Value>) {
    Candidate(messages) && StartsWith(messages[|messages| - 1].content, "USER")
  }

  /** The user context the verify node stores after a successful check:
      `result.data.get("user_info", {})`. */
  function VerifiedContext(result: Tools.ActionResult): (context: Dict)
    ensures result.data.Some? && "user_info" in result.data.value && result.data.value["user_info"].VDict? ==>
              context == result.data.value["user_info"].entries
    ensures result.data.Some? && "user_info" !in result.data.value ==> context == map[]
  {
    match result.data
    case Some(data) =>
      (match Get(data, "user_info", VDict(map[]))
       case VDict(info) => info
       case _ => map[])
    case None => map[]
  }

  /** A successful check stores the mock's user record for the identifier. */
  lemma VerifiedContextOfSuccess(customerId: string)
    requires StartsWith(customerId, "USER")
    ensures VerifiedContext(Tools.VerifyIdentity(customerId, VerifyPassword)) == Tools.UserInfo(VStr(customerId))
  {
    var data := map["user_info" := VDict(Tools.UserInfo(VStr(customerId)))];
    assert "user_info" in data;
  }

  /** `_verify_identity_node` */
  function VerifyStep(s: State.StateRecord): (t: State.StateRecord)
    ensures s.verified || s.verificationAttempts >= MaxAttempts ==> t == s
    ensures !(s.verified || s.verificationAttempts >= MaxAttempts) ==>
              t.verificationAttempts == s.verificationAttempts + 1
    ensures t == s.(verified := t.verified, verificationAttempts := t.verificationAttempts,
                    userContext := t.userContext)
    ensures t.verified <==> s.verified || (s.verificationAttempts < MaxAttempts && Credentials(s.messages))
    ensures t.userContext != s.userContext ==> !s.verified && t.verified
    ensures !s.verified && t.verified ==>
              t.userContext == Tools.UserInfo(VStr(s.messages[|s.messages| - 1].content))
  {
    if !s.verified && s.verificationAttempts < MaxAttempts then
      var checked :=
        if Candidate(s.messages) then
          var result := Tools.VerifyIdentity(s.messages[|s.messages| - 1].content, VerifyPassword);
          if result.success then
            VerifiedContextOfSuccess(s.messages[|s.messages| - 1].content);
            s.(verified := true, userContext := VerifiedContext(result))
          else s.(verified := false)
        else s;
      checked.(verificationAttempts := s.verificationAttempts + 1)
    else s
  }

  /** The content the process node hands the agent: the content of a last
      human message, or the `content` entry (default `""`) of a last
      dictionary message; `None` when there is no such last message. */
  function ProcessInput(messages: seq<Value>): (r: Option<Value>)
    ensures r.Some? <==>
              |messages| > 0 && (messages[|messages| - 1].VDict?
                                 || (messages[|messages| - 1].VMessage? && messages[|messages| - 1].kind == Human))
    ensures r.Some? && messages[|messages| - 1].VMessage? ==> r == Some(VStr(messages[|messages| - 1].content))
    ensures r.Some? && messages[|messages| - 1].VDict? ==>
              r == Some(Get(messages[|messages| - 1].entries, "content", VStr("")))
  {
    if |messages| == 0 then None
    else match messages[|messages| - 1]
      case VMessage(Human, content) => Some(VStr(content))
      case VDict(entries) => Some(Get(entries, "content", VStr("")))
      case _ => None
  }

  /** `_process_query_node` */
  function ProcessStep(s: State.StateRecord, agent: AgentOutcome): (t: State.StateRecord)
    ensures s.processed ==> t == s
    ensures t.processed
    ensures t == s.(confidenceScore := t.confidenceScore, requiresEscalation := t.requiresEscalation,
                    pendingAction := t.pendingAction, processed := t.processed)
    ensures !s.processed && ProcessInput(s.messages).None? ==> t == s.(processed := true)
    ensures !s.processed && ProcessInput(s.messages).Some? && agent.AgentRaised? ==>
              t == s.(requiresEscalation := true, processed := true)
    ensures !s.processed && ProcessInput(s.messages).Some? && agent.Replied? ==>
              && t.confidenceScore == (if agent.confidence.Some? then agent.confidence.value else 1.0)
              && (t.requiresEscalation <==> t.confidenceScore < EscalationThreshold)
    ensures !s.processed && ProcessInput(s.messages).Some? && agent.Replied? && |agent.suggestedActions| > 0 ==>
              t.pendingAction == agent.suggestedActions[0]
    ensures t.pendingAction != s.pendingAction ==>
              agent.Replied? && |agent.suggestedActions| > 0 && t.pendingAction == agent.suggestedActions[0]
  {
    if s.processed then s
    else match ProcessInput(s.messages)
      case None => s.(processed := true)
      case Some(_) =>
        match agent
        case AgentRaised => s.(requiresEscalation := true, processed := true)
        case Replied(confidence, suggestions) =>
          var score := if confidence.Some? then confidence.value else 1.0;
          s.(confidenceScore := score,
             requiresEscalation := score < EscalationThreshold,
             pendingAction := if |suggestions| > 0 then suggestions[0] else s.pendingAction,
             processed := true)
  }

  /** `_execute_action_node` */
  function ExecuteStep(s: State.StateRecord, execution: CallOutcome): (t: State.StateRecord)
    ensures s.pendingAction == map[] ==> t == s
    ensures t == s.(pendingAction := t.pendingAction, requiresEscalation := t.requiresEscalation)
    ensures t.pendingAction == map[] <==> s.pendingAction == map[] || execution.Returned?
    ensures t.pendingAction != map[] ==> t.pendingAction == s.pendingAction && t.requiresEscalation
    ensures t.requiresEscalation != s.requiresEscalation ==> execution.Raised?
  {
    if s.pendingAction != map[] then
      match execution
      case Returned => s.(pendingAction := map[])
      case Raised => s.(requiresEscalation := true)
    else s
  }

  /** `_collect_feedback_node` */
  function FeedbackStep(s: State.StateRecord, feedbackLog: CallOutcome): (t: State.StateRecord)
    ensures t == s.(feedbackSubmitted := t.feedbackSubmitted)
    ensures t.feedbackSubmitted <==> s.feedbackSubmitted || (s.requiresEscalation && feedbackLog.Returned?)
  {
    if !s.feedbackSubmitted && s.requiresEscalation then
      match feedbackLog
      case Returned => s.(feedbackSubmitted := true)
      case Raised => s
    else s
  }

  /** `_end_node` */
  function EndStep(s: State.StateRecord): (t: State.StateRecord)
    ensures !t.processed && t.(processed := s.processed) == s
  {
    s.(processed := false)
  }

  // ---------------------------------------------------------------------
  // The graph
  // ---------------------------------------------------------------------

  /** The graph's nodes, by their names in the graph. */
  datatype Node = VerifyIdentity | ProcessQuery | ExecuteAction | CollectFeedback | End

  /** The labels `_route_state` returns. */
  datatype Route = ToExecute | ToFeedback | ToEnd

  /** `_verify_condition` */
  predicate VerifyCondition(s: State.StateRecord)
    ensures VerifyCondition(s) ==> VerifyStep(s) == s
    ensures !VerifyCondition(s) ==> VerifyStep(s).verificationAttempts == s.verificationAttempts + 1
  {
    s.verified || s.verificationAttempts >= MaxAttempts
  }

  /** `_route_state` */
  function RouteState(s: State.StateRecord): (r: Route)
    ensures r == ToExecute <==> s.pendingAction != map[]
    ensures r == ToFeedback <==> s.pendingAction == map[] && s.requiresEscalation && !s.feedbackSubmitted
  {
    if s.pendingAction != map[] then ToExecute
    else if s.requiresEscalation && !s.feedbackSubmitted then ToFeedback
    else ToEnd
  }

  /** The router skips a node only when that node would change nothing. */
  lemma RouteSkipsIdleNodes(s: State.StateRecord, c: CallOutcome)
    ensures RouteState(s) != ToExecute ==> ExecuteStep(s, c) == s
    ensures RouteState(s) == ToEnd ==> FeedbackStep(s, c) == s
  {
  }

  /** Runs one node. */
  function RunNode(n: Node, s: State.StateRecord, o: Outcomes): (t: State.StateRecord)
    ensures t.currentState == s.currentState && t.messages == s.messages
    ensures n != VerifyIdentity ==>
              t.verified == s.verified && t.verificationAttempts == s.verificationAttempts
              && t.userContext == s.userContext
  {
    match n
    case VerifyIdentity => VerifyStep(s)
    case ProcessQuery => ProcessStep(s, o.agent)
    case ExecuteAction => ExecuteStep(s, o.execution)
    case CollectFeedback => FeedbackStep(s, o.feedbackLog)
    case End => EndStep(s)
  }

  /** The edge table: where the run goes after `n` has left the state `t`. */
  function NextNode(n: Node, t: State.StateRecord): (r: Option<Node>)
    ensures r.None? <==> n == End
    ensures n == VerifyIdentity ==> r == Some(ProcessQuery) || r == Some(VerifyIdentity)
    ensures n == VerifyIdentity ==> (r == Some(ProcessQuery) <==> VerifyCondition(t))
    ensures n == ProcessQuery ==> r.Some? && r.value != VerifyIdentity && r.value != ProcessQuery
    ensures n == ExecuteAction || n == CollectFeedback ==> r == Some(End)
  {
    match n
    case VerifyIdentity => Some(if VerifyCondition(t) then ProcessQuery else VerifyIdentity)
    case ProcessQuery =>
      Some(match RouteState(t)
           case ToExecute => ExecuteAction
           case ToFeedback => CollectFeedback
           case ToEnd => End)
    case ExecuteAction => Some(End)
    case CollectFeedback => Some(End)
    case End => None
  }

  /** How far a node is from the end of the graph. */
  function Position(n: Option<Node>): nat {
    match n
    case None => 0
    case Some(End) => 1
    case Some(ExecuteAction) => 2
    case Some(CollectFeedback) => 2
    case Some(ProcessQuery) => 3
    case Some(VerifyIdentity) => 4
  }

  /** The verification attempts still available. */
  function Budget(s: State.StateRecord): nat {
    if VerifyCondition(s) then 0 else MaxAttempts - s.verificationAttempts
  }

  /** Every edge moves towards the end, except the verify self-loop, which
      uses up an attempt. */
  lemma Progress(n: Node, s: State.StateRecord, o: Outcomes)
    ensures var t := RunNode(n, s, o);
      Position(NextNode(n, t)) < Position(Some(n))
      || (Position(NextNode(n, t)) == Position(Some(n)) && Budget(t) < Budget(s))
  {
  }

  /** The final state of a run and the nodes it visited, in order. */
  datatype Run = Run(final: State.StateRecord, visited: seq<Node>)

  /** The run that starts at node `n` in state `s`. */
  function RunFrom(n: Node, s: State.StateRecord, o: Outcomes): (r: Run)
    ensures |r.visited| > 0 && r.visited[0] == n && r.visited[|r.visited| - 1] == End
    decreases Position(Some(n)), Budget(s)
  {
    var t := RunNode(n, s, o);
    Progress(n, s, o);
    match NextNode(n, t)
    case None => Run(t, [n])
    case Some(next) =>
      var rest := RunFrom(next, t, o);
      Run(rest.final, [n] + rest.visited)
  }

  /** `invoke`: clear `processed`, then run from the entry point. */
  function InvokeSpec(s: State.StateRecord, o: Outcomes): (r: Run)
    ensures |r.visited| > 0 && r.visited[0] == VerifyIdentity && r.visited[|r.visited| - 1] == End
    ensures !r.final.processed && r.final.currentState == s.currentState && r.final.messages == s.messages
  {
    RunEndsUnprocessed(VerifyIdentity, s.(processed := false), o);
    RunFrom(VerifyIdentity, s.(processed := false), o)
  }

  // ---------------------------------------------------------------------
  // The verify self-loop
  // ---------------------------------------------------------------------

  function Max(a: int, b: int): int { if a < b then b else a }

  /** The state when the verify self-loop hands over to the process node. */
  function VerifyPhase(s: State.StateRecord): (r: State.StateRecord)
    ensures VerifyCondition(r)
    ensures s.verificationAttempts <= r.verificationAttempts <= Max(s.verificationAttempts, MaxAttempts)
    ensures r == if VerifyCondition(s) then s
                 else if Credentials(s.messages) then
                   s.(verified := true, verificationAttempts := s.verificationAttempts + 1,
                      userContext := Tools.UserInfo(VStr(s.messages[|s.messages| - 1].content)))
                 else s.(verificationAttempts := MaxAttempts)
    decreases Budget(s)
  {
    var t := VerifyStep(s);
    if VerifyCondition(t) then t else VerifyPhase(t)
  }

  /** How many times the verify node runs in one invocation. */
  function VerifyRounds(s: State.StateRecord): (k: nat)
    ensures k == if VerifyCondition(s) || Credentials(s.messages) then 1 else MaxAttempts - s.verificationAttempts
    decreases Budget(s)
  {
    var t := VerifyStep(s);
    if VerifyCondition(t) then 1 else 1 + VerifyRounds(t)
  }

  /** `k` copies of node `n`. */
  function Repeat(n: Node, k: nat): (r: seq<Node>)
    ensures |r| == k && forall i :: 0 <= i < k ==> r[i] == n
  {
    seq(k, _ => n)
  }

  /** A run from the verify node is the verify self-loop followed by a run
      from the process node. */
  lemma {:induction false} VerifyRunShape(s: State.StateRecord, o: Outcomes)
    ensures RunFrom(VerifyIdentity, s, o).final == RunFrom(ProcessQuery, VerifyPhase(s), o).final
    ensures RunFrom(VerifyIdentity, s, o).visited ==
            Repeat(VerifyIdentity, VerifyRounds(s)) + RunFrom(ProcessQuery, VerifyPhase(s), o).visited
    decreases Budget(s)
  {
    var t := VerifyStep(s);
    if !VerifyCondition(t) {
      VerifyRunShape(t, o);
      assert [VerifyIdentity] + Repeat(VerifyIdentity, VerifyRounds(t)) == Repeat(VerifyIdentity, VerifyRounds(s));
    }
  }

  /** What follows the process node: the node the router picks, then the end node. */
  function AfterRoute(p: State.StateRecord, o: Outcomes): State.StateRecord {
    match RouteState(p)
    case ToExecute => ExecuteStep(p, o.execution)
    case ToFeedback => FeedbackStep(p, o.feedbackLog)
    case ToEnd => p
  }

  /** The nodes the router's choice adds between the process and end nodes. */
  function Detour(p: State.StateRecord): seq<Node> {
    match RouteState(p)
    case ToExecute => [ExecuteAction]
    case ToFeedback => [CollectFeedback]
    case ToEnd => []
  }

  /** A run from the process node visits at most one of execute and feedback
      and then ends. */
  lemma ProcessRunShape(s: State.StateRecord, o: Outcomes)
    ensures var p := ProcessStep(s, o.agent);
      RunFrom(ProcessQuery, s, o) == Run(EndStep(AfterRoute(p, o)), [ProcessQuery] + Detour(p) + [End])
  {
    var p := ProcessStep(s, o.agent);
    match RouteState(p)
    case ToExecute =>
      assert RunFrom(ExecuteAction, p, o) == Run(EndStep(ExecuteStep(p, o.execution)), [ExecuteAction, End]);
    case ToFeedback =>
      assert RunFrom(CollectFeedback, p, o) == Run(EndStep(FeedbackStep(p, o.feedbackLog)), [CollectFeedback, End]);
    case ToEnd =>
  }

  /** `invoke` in closed form: the verify loop, one processing step, the
      routed node, and the end node. */
  lemma InvokeClosedForm(s: State.StateRecord, o: Outcomes)
    ensures var v := VerifyPhase(s.(processed := false));
      var p := ProcessStep(v, o.agent);
      && InvokeSpec(s, o).final == EndStep(AfterRoute(p, o))
      && InvokeSpec(s, o).visited == Repeat(VerifyIdentity, VerifyRounds(s.(processed := false))) + [ProcessQuery] + Detour(p) + [End]
  {
    VerifyRunShape(s.(processed := false), o);
    ProcessRunShape(VerifyPhase(s.(processed := false)), o);
  }

  // ---------------------------------------------------------------------
  // Properties of a run
  // ---------------------------------------------------------------------

  /** Every run ends at the end node, so it leaves `processed` false; no
      node writes the phase or the messages. */
  lemma {:induction false} RunEndsUnprocessed(n: Node, s: State.StateRecord, o: Outcomes)
    ensures !RunFrom(n, s, o).final.processed
    ensures RunFrom(n, s, o).final.currentState == s.currentState
    ensures RunFrom(n, s, o).final.messages == s.messages
    decreases Position(Some(n)), Budget(s)
  {
    var t := RunNode(n, s, o);
    Progress(n, s, o);
    if NextNode(n, t).Some? {
      RunEndsUnprocessed(NextNode(n, t).value, t, o);
    }
  }

  /** A verified customer stays verified, and submitted feedback stays submitted. */
  lemma {:induction false} RunMonotone(n: Node, s: State.StateRecord, o: Outcomes)
    ensures s.verified ==> RunFrom(n, s, o).final.verified
    ensures s.feedbackSubmitted ==> RunFrom(n, s, o).final.feedbackSubmitted
    ensures s.verificationAttempts <= RunFrom(n, s, o).final.verificationAttempts
    decreases Position(Some(n)), Budget(s)
  {
    var t := RunNode(n, s, o);
    Progress(n, s, o);
    if NextNode(n, t).Some? {
      RunMonotone(NextNode(n, t).value, t, o);
    }
  }

  /** The nodes one invocation visits: the verify node once per attempt
      used, the process node once, at most one of execute and feedback,
      and the end node last. */
  lemma InvokeTrace(s: State.StateRecord, o: Outcomes)
    ensures var v := InvokeSpec(s, o).visited;
      && |v| > 0 && v[0] == VerifyIdentity && v[|v| - 1] == End
      && multiset(v)[ProcessQuery] == 1
      && !(ExecuteAction in v && CollectFeedback in v)
      && multiset(v)[VerifyIdentity] == VerifyRounds(s.(processed := false))
      && (s.verificationAttempts >= 0 ==> multiset(v)[VerifyIdentity] <= MaxAttempts)
  {
    InvokeClosedForm(s, o);
    var s0 := s.(processed := false);
    VerifyRoundsBound(s0);
    TraceFacts(VerifyRounds(s0), Detour(ProcessStep(VerifyPhase(s0), o.agent)));
  }

  /** One invocation visits the verify node once per round and then two or
      three more nodes. */
  lemma InvokeLength(s: State.StateRecord, o: Outcomes)
    ensures var n := |InvokeSpec(s, o).visited|;
      var k := VerifyRounds(s.(processed := false));
      k + 2 <= n <= k + 3
  {
    InvokeClosedForm(s, o);
  }

  lemma VerifyRoundsBound(s: State.StateRecord)
    ensures s.verificationAttempts >= 0 ==> VerifyRounds(s) <= MaxAttempts
  {
  }

  /** The counting facts of a trace of the shape every invocation has. */
  lemma TraceFacts(k: nat, detour: seq<Node>)
    requires detour == [] || detour == [ExecuteAction] || detour == [CollectFeedback]
    ensures var v := Repeat(VerifyIdentity, k) + [ProcessQuery] + detour + [End];
      && v[|v| - 1] == End
      && multiset(v)[ProcessQuery] == 1
      && multiset(v)[VerifyIdentity] == k
      && !(ExecuteAction in v && CollectFeedback in v)
  {
    var v := Repeat(VerifyIdentity, k) + [ProcessQuery] + detour + [End];
    var tail := [ProcessQuery] + detour + [End];
    assert v == Repeat(VerifyIdentity, k) + tail;
    RepeatCount(VerifyIdentity, k);
    assert multiset(v) == multiset(Repeat(VerifyIdentity, k)) + multiset(tail);
    assert ExecuteAction !in Repeat(VerifyIdentity, k) && CollectFeedback !in Repeat(VerifyIdentity, k);
  }

  lemma {:induction false} RepeatCount(n: Node, k: nat)
    ensures multiset(Repeat(n, k))[n] == k
    ensures forall m :: m != n ==> multiset(Repeat(n, k))[m] == 0
  {
    if k > 0 {
      RepeatCount(n, k - 1);
      assert Repeat(n, k) == [n] + Repeat(n, k - 1);
    }
  }

  /** `invoke` verifies the customer exactly when the last message carries
      credentials the mock accepts and an attempt is left, and otherwise
      uses up every attempt. */
  lemma InvokeVerification(s: State.StateRecord, o: Outcomes)
    ensures var r := InvokeSpec(s, o).final;
      && (r.verified <==> s.verified || (s.verificationAttempts < MaxAttempts && Credentials(s.messages)))
      && (!r.verified ==> r.verificationAttempts == Max(s.verificationAttempts, MaxAttempts))
      && (r.userContext != s.userContext ==> !s.verified && r.verified)
  {
    InvokeClosedForm(s, o);
    var v := VerifyPhase(s.(processed := false));
    AfterVerifyKeepsIdentity(v, o);
  }

  /** The nodes after the verify loop leave `verified`, attempts and
      `user_context` as the loop left them. */
  lemma AfterVerifyKeepsIdentity(v: State.StateRecord, o: Outcomes)
    ensures var r := EndStep(AfterRoute(ProcessStep(v, o.agent), o));
      r.verified == v.verified && r.verificationAttempts == v.verificationAttempts && r.userContext == v.userContext
  {
  }

  /** A pending action survives an invocation only when executing it raised,
      and then escalation is required. */
  lemma InvokePendingOnlyOnFailure(s: State.StateRecord, o: Outcomes)
    ensures var r := InvokeSpec(s, o).final;
      r.pendingAction != map[] ==> o.execution.Raised? && r.requiresEscalation
  {
    InvokeClosedForm(s, o);
  }

  /** Feedback is newly submitted only when escalation is required, no
      action was pending and the log call returned. */
  lemma InvokeFeedbackOnlyWhenEscalated(s: State.StateRecord, o: Outcomes)
    ensures var r := InvokeSpec(s, o).final;
      !s.feedbackSubmitted && r.feedbackSubmitted ==>
        r.requiresEscalation && r.pendingAction == map[] && o.feedbackLog.Returned?
  {
    InvokeClosedForm(s, o);
  }

  /** A reply whose first suggestion is a non-empty action sends the run to
      the execute node, which clears the action exactly when the call returns. */
  lemma InvokeExecutesSuggestion(s: State.StateRecord, o: Outcomes)
    requires ProcessInput(s.messages).Some?
    requires o.agent.Replied? && |o.agent.suggestedActions| > 0 && o.agent.suggestedActions[0] != map[]
    ensures ExecuteAction in InvokeSpec(s, o).visited && CollectFeedback !in InvokeSpec(s, o).visited
    ensures InvokeSpec(s, o).final.pendingAction ==
              if o.execution.Returned? then map[] else o.agent.suggestedActions[0]
  {
    var s0 := s.(processed := false);
    InvokeClosedForm(s, o);
    var v := VerifyPhase(s0);
    assert v.messages == s.messages && !v.processed;
    var p := ProcessStep(v, o.agent);
    assert p.pendingAction == o.agent.suggestedActions[0];
    assert Detour(p) == [ExecuteAction];
    var trace := Repeat(VerifyIdentity, VerifyRounds(s0)) + [ProcessQuery] + Detour(p) + [End];
    assert trace[|trace| - 2] == ExecuteAction;
    assert forall i :: 0 <= i < |trace| ==> trace[i] != CollectFeedback;
  }

  // ---------------------------------------------------------------------
  // The process node with the concrete agent
  // ---------------------------------------------------------------------

  /** The outcome of a `generate_response` call as the process node sees it. */
  function AgentReply(r: Result<Agent.AgentResponse, Fault>): AgentOutcome {
    match r
    case Success(response) => Replied(Some(response.confidence), response.suggestedActions)
    case Failure(_) => AgentRaised
  }

  /** The concrete agent called by the process node with `available_actions=[]`. */
  function ConcreteAgent(s: State.StateRecord, llm: Agent.LlmOutcome): AgentOutcome {
    match ProcessInput(s.messages)
    case Some(content) => AgentReply(Agent.ResponseOf(content, [], llm))
    case None => AgentRaised
  }

  /** With the concrete agent the process node never sets a pending action,
      so the router never picks the execute node for a state without one; a
      completed reply reports confidence 0.85 and clears escalation. */
  lemma ConcreteAgentNeverExecutes(s: State.StateRecord, llm: Agent.LlmOutcome)
    ensures ProcessStep(s, ConcreteAgent(s, llm)).pendingAction == s.pendingAction
    ensures s.pendingAction == map[] ==> RouteState(ProcessStep(s, ConcreteAgent(s, llm))) != ToExecute
    ensures !s.processed && ProcessInput(s.messages).Some? && ProcessInput(s.messages).value.VStr? && llm.Completed? ==>
              var t := ProcessStep(s, ConcreteAgent(s, llm));
              t.confidenceScore == Agent.ReportedConfidence && !t.requiresEscalation
  {
  }

  // ---------------------------------------------------------------------
  // Scenarios
  // ---------------------------------------------------------------------

  /** A fresh conversation whose only message is `content`, from the customer. */
  function Fresh(content: string): State.StateRecord {
    State.Default().(messages := [VMessage(Human, content)])
  }

  /** An identifier with the `USER` prefix that also contains `CUST` verifies
      on the first attempt and stores the mock's user record. */
  lemma ScenarioVerified(o: Outcomes)
    ensures var r := InvokeSpec(Fresh("USER42 CUST"), o).final;
      r.verified && r.verificationAttempts == 1 && r.userContext == Tools.UserInfo(VStr("USER42 CUST"))
  {
    assert OccursAt("USER42 CUST", "CUST", 7);
    assert Credentials(Fresh("USER42 CUST").messages);
    InvokeVerification(Fresh("USER42 CUST"), o);
    InvokeClosedForm(Fresh("USER42 CUST"), o);
  }

  /** A message that contains `CUST` but lacks the `USER` prefix never
      verifies: one invocation makes all three attempts. */
  lemma ScenarioRejected(o: Outcomes)
    ensures var run := InvokeSpec(Fresh("CUST1234 hello"), o);
      !run.final.verified && run.final.verificationAttempts == MaxAttempts
      && run.visited[..3] == [VerifyIdentity, VerifyIdentity, VerifyIdentity]
  {
    var s := Fresh("CUST1234 hello");
    assert !StartsWith("CUST1234 hello", "USER") by { assert "CUST1234 hello"[0] != "USER"[0]; }
    assert !Credentials(s.messages);
    InvokeRejected(s, o);
  }

  /** From a fresh count, a customer without credentials goes round the
      verify node three times and stays unverified. */
  lemma InvokeRejected(s: State.StateRecord, o: Outcomes)
    requires !s.verified && s.verificationAttempts == 0 && !Credentials(s.messages)
    ensures var run := InvokeSpec(s, o);
      !run.final.verified && run.final.verificationAttempts == MaxAttempts
      && run.visited[..3] == [VerifyIdentity, VerifyIdentity, VerifyIdentity]
  {
    InvokeVerification(s, o);
    InvokeClosedForm(s, o);
    var s0 := s.(processed := false);
    assert VerifyRounds(s0) == MaxAttempts;
    var p := ProcessStep(VerifyPhase(s0), o.agent);
    var trace := InvokeSpec(s, o).visited;
    assert trace == Repeat(VerifyIdentity, 3) + ([ProcessQuery] + Detour(p) + [End]);
    assert trace[..3] == Repeat(VerifyIdentity, 3);
  }

  // ---------------------------------------------------------------------
  // The state object and the node methods
  // ---------------------------------------------------------------------

  /** `CSRState`, the record the nodes update in place. */
  class CSRState {
    var messages: seq<Value>
    var currentState: State.Phase
    var verified: bool
    var verificationAttempts: int
    var userContext: Dict
    var confidenceScore: real
    var requiresEscalation: bool
    var pendingAction: Dict
    var feedbackSubmitted: bool
    var processed: bool

    /** The fields as a record. */
    function Record(): State.StateRecord
      reads this
    {
      State.StateRecord(verified, verificationAttempts, currentState, messages, userContext,
                        confidenceScore, requiresEscalation, processed, pendingAction, feedbackSubmitted)
    }

    /** `CSRState()`: every field at its default. */
    constructor ()
      ensures Record() == State.Default()
    {
      messages := [];
      currentState := State.Init;
      verified := false;
      verificationAttempts := 0;
      userContext := map[];
      confidenceScore := 1.0;
      requiresEscalation := false;
      pendingAction := map[];
      feedbackSubmitted := false;
      processed := false;
    }

    /** A state object holding the fields of `r`. */
    constructor FromRecord(r: State.StateRecord)
      ensures Record() == r
    {
      messages := r.messages;
      currentState := r.currentState;
      verified := r.verified;
      verificationAttempts := r.verificationAttempts;
      userContext := r.userContext;
      confidenceScore := r.confidenceScore;
      requiresEscalation := r.requiresEscalation;
      pendingAction := r.pendingAction;
      feedbackSubmitted := r.feedbackSubmitted;
      processed := r.processed;
    }
  }

  /** `_verify_identity_node` */
  method VerifyIdentityNode(state: CSRState)
    modifies state
    ensures state.Record() == VerifyStep(old(state.Record()))
  {
    ghost var s := state.Record();
    if !state.verified && state.verificationAttempts < MaxAttempts {
      if |state.messages| > 0 {
        var last := state.messages[|state.messages| - 1];
        if last.VMessage? && last.kind == Human && Contains(last.content, "CUST") {
          var result := Tools.VerifyIdentity(last.content, VerifyPassword);
          state.verified := result.success;
          if result.success {
            state.userContext := VerifiedContext(result);
          }
        }
      }
      state.verificationAttempts := state.verificationAttempts + 1;
    }
    assert state.Record() == VerifyStep(s);
  }

  /** `_process_query_node` */
  method ProcessQueryNode(state: CSRState, agent: AgentOutcome)
    modifies state
    ensures state.Record() == ProcessStep(old(state.Record()), agent)
  {
    if state.processed {
      return;
    }
    var input := ProcessInput(state.messages);
    if input.None? {
      state.processed := true;
      return;
    }
    match agent {
      case Replied(confidence, suggestions) =>
        state.confidenceScore := if confidence.Some? then confidence.value else 1.0;
        state.requiresEscalation := state.confidenceScore < EscalationThreshold;
        if |suggestions| > 0 {
          state.pendingAction := suggestions[0];
        }
      case AgentRaised =>
        state.requiresEscalation := true;
    }
    state.processed := true;
  }

  /** `_execute_action_node` */
  method ExecuteActionNode(state: CSRState, execution: CallOutcome)
    modifies state
    ensures state.Record() == ExecuteStep(old(state.Record()), execution)
  {
    if state.pendingAction != map[] {
      match execution {
        case Returned => state.pendingAction := map[];
        case Raised => state.requiresEscalation := true;
      }
    }
  }

  /** `_collect_feedback_node` */
  method CollectFeedbackNode(state: CSRState, feedbackLog: CallOutcome)
    modifies state
    ensures state.Record() == FeedbackStep(old(state.Record()), feedbackLog)
  {
    if !state.feedbackSubmitted && state.requiresEscalation {
      if feedbackLog.Returned? {
        state.feedbackSubmitted := true;
      }
    }
  }

  /** `_end_node` */
  method EndNode(state: CSRState)
    modifies state
    ensures state.Record() == EndStep(old(state.Record()))
  {
    state.processed := false;
  }

  /** `invoke`: clears `processed`, then runs the graph from the verify node,
      one node at a time, until the end node has run. */
  method Invoke(state: CSRState, o: Outcomes)
    modifies state
    ensures state.Record() == InvokeSpec(old(state.Record()), o).final
    ensures !state.processed && state.currentState == old(state.currentState) && state.messages == old(state.messages)
  {
    ghost var goal := InvokeSpec(old(state.Record()), o).final;
    state.processed := false;
    var node: Option<Node> := Some(VerifyIdentity);
    while node.Some?
      invariant node.Some? ==> RunFrom(node.value, state.Record(), o).final == goal
      invariant node.None? ==> state.Record() == goal
      decreases Position(node), Budget(state.Record())
    {
      var n := node.value;
      ghost var before := state.Record();
      match n {
        case VerifyIdentity => VerifyIdentityNode(state);
        case ProcessQuery => ProcessQueryNode(state, o.agent);
        case ExecuteAction => ExecuteActionNode(state, o.execution);
        case CollectFeedback => CollectFeedbackNode(state, o.feedbackLog);
        case End => EndNode(state);
      }
      assert state.Record() == RunNode(n, before, o);
      Progress(n, before, o);
      node := NextNode(n, state.Record());
    }
  }
}
