/** `SequentialFlowStrategy`: every agent once, in declaration order, with explicit handoffs. The
    strategy is the only writer of its run here, as the holder of the execution lease is. */
module Sequential {
  import opened Common
  import opened Lifecycle
  import opened Budget

  datatype FlowInput = FlowInput(prompt: string, attachments: seq<Id>)

  /** What the invoker does with a transport. A message names the exception and its text. */
  datatype Reply =
    | Returned(result: AgentResult)
    | Raised(message: string)
    | TimedOut
    | TaskCancelled

  /** How a call on the strategy ends: with a Flow result, or with an exception. */
  datatype Outcome = Finished | Escaped

  function OrElse(text: Option<string>, default: string): string {
    if text.Some? && text.value != "" then text.value else default
  }

  /** `_handoff` */
  function HandoffOf(previous: Option<AgentResult>): Option<Handoff> {
    if previous.None? then None
    else Some(Handoff(previous.value.agentKey,
                      OrElse(previous.value.output, "Agent completed without textual output."),
                      previous.value.metadata, previous.value.artifacts))
  }

  function KindName(kind: BudgetKind): string {
    match kind
    case Invocations => "invocations"
    case InputTokens => "input_tokens"
    case OutputTokens => "output_tokens"
    case TotalTokens => "total_tokens"
    case ModelCalls => "model_calls"
    case ToolCalls => "tool_calls"
    case Timeout => "timeout_seconds"
  }

  /** The part of `FlowBudgetExceeded.message` that names the limit. */
  function LimitMessage(kind: BudgetKind): (message: string)
    ensures !IsBlank(message)
  {
    var message := "Flow budget '" + KindName(kind) + "' reached";
    assert message[0] == 'F';
    message
  }

  function FailureMessage(agentKey: string, operation: string, error: string): (message: string)
    ensures !IsBlank(message)
  {
    var message := "Agent '" + agentKey + "' " + operation + " raised " + error;
    assert message[0] == 'A';
    message
  }

  function CancelMessage(operation: string): (message: string)
    ensures !IsBlank(message)
  {
    var message := "Sequential Flow " + (if operation == "invoke" then "execution" else operation) + " cancelled";
    assert message[0] == 'S';
    message
  }

  function OutcomeError(r: AgentResult): string {
    OrElse(r.error, "Agent '" + r.agentKey + "' did not complete")
  }

  /** How an unsuccessful agent ends its Flow. */
  function EndingOf(status: ResultStatus): Termination
    requires status !in {ResCompleted, ResWaiting}
  {
    match status
    case ResFailed => ByFailure
    case ResCancelled => ByCancel
    case ResInterrupted => ByInterrupt
    case ResLimitReached => ByLimit
  }

  // ---------------------------------------------------------------- what every run keeps

  /** Invocation k is agent k, given the flow's own prompt and attachments and the handoff of
      agent k-1, which completed. */
  ghost predicate Link(definition: FlowDefinition, input: FlowInput, invs: seq<Invocation>, k: nat)
    requires k < |invs| <= |definition.agents|
  {
    && invs[k].agentKey == definition.agents[k].key
    && invs[k].input == InvocationInput(
         input.prompt, HandoffOf(if k == 0 then None else invs[k - 1].result), input.attachments)
    && (k > 0 ==> invs[k - 1].status.Completed?)
  }

  ghost predicate Chain(definition: FlowDefinition, input: FlowInput, s: FlowState) {
    && s.definition == definition.ref
    && |s.invocations| <= |definition.agents|
    && (forall k :: 0 <= k < |s.invocations| ==> Link(definition, input, s.invocations, k))
  }

  /** What an agent is given: the flow's own prompt and attachments, nothing else for the first one, and for
      every later one the words, data and artifacts that the agent declared before it completed with. */
  lemma AgentsAreHandedTheEarlierResult(
    seqOf: Id -> nat, definition: FlowDefinition, input: FlowInput, s: FlowState, k: nat)
    requires Inv(seqOf, s) && Chain(definition, input, s) && k < |s.invocations|
    ensures s.invocations[k].input.prompt == input.prompt && s.invocations[k].input.attachments == input.attachments
    ensures k == 0 ==> s.invocations[k].input.handoff.None?
    ensures k > 0 ==>
              && s.invocations[k - 1].status.Completed? && s.invocations[k - 1].result.Some?
              && s.invocations[k].input.handoff.Some?
              && var r, h := s.invocations[k - 1].result.value, s.invocations[k].input.handoff.value;
                 && h.sourceAgentKey == definition.agents[k - 1].key
                 && h.data == r.metadata && h.artifacts == r.artifacts
                 && h.summary == if r.output.Some? && r.output.value != "" then r.output.value
                                 else "Agent completed without textual output."
  {
    assert Link(definition, input, s.invocations, k);
    if k > 0 {
      assert Link(definition, input, s.invocations, k - 1);
      assert InvocationOk(seqOf, s, k - 1);
    }
  }

  /** Transitions that start no invocation keep the chain. */
  lemma ChainContinues(definition: FlowDefinition, input: FlowInput, s: FlowState, s': FlowState)
    requires Chain(definition, input, s) && Succeeds(s, s') && |s'.invocations| == |s.invocations|
    ensures Chain(definition, input, s')
  {
    forall k | 0 <= k < |s'.invocations| ensures Link(definition, input, s'.invocations, k) {
      assert Link(definition, input, s.invocations, k);
      assert Continues(s.invocations[k], s'.invocations[k]);
      if k > 0 { assert Continues(s.invocations[k - 1], s'.invocations[k - 1]); }
    }
  }

  function LastResult(s: FlowState): Option<AgentResult> {
    if s.invocations == [] then None else s.invocations[|s.invocations| - 1].result
  }

  /** Between two agents: nobody is active and everybody so far has completed. */
  ghost predicate Between(s: FlowState) {
    && s.status.Running? && s.active.None?
    && (forall k :: 0 <= k < |s.invocations| ==> s.invocations[k].status.Completed?)
  }

  function NextRequest(definition: FlowDefinition, input: FlowInput, s: FlowState,
                       previous: Option<AgentResult>, id: Id): Request
    requires |s.invocations| < |definition.agents|
  {
    var agent := definition.agents[|s.invocations|];
    Request(s.runId, id, |s.invocations| + 1, agent.key, agent.definition,
            InvocationInput(input.prompt, HandoffOf(previous), input.attachments))
  }

  ghost predicate UniqueKeys(definition: FlowDefinition) {
    forall i, j :: 0 <= i < j < |definition.agents| ==> definition.agents[i].key != definition.agents[j].key
  }

  lemma {:induction false} AgentAt(agents: seq<FlowAgent>, k: nat)
    requires k < |agents| && forall i, j :: 0 <= i < j < |agents| ==> agents[i].key != agents[j].key
    ensures AgentDefinition(agents, agents[k].key) == Some(agents[k].definition)
  {
    if k > 0 { AgentAt(agents[1..], k - 1); }
  }

  /** Beginning the next agent is never refused, extends the chain and costs nothing. */
  lemma BeginNext(seqOf: Id -> nat, definition: FlowDefinition, input: FlowInput, s: FlowState, id: Id, now: Time,
                  final: Final)
    requires Inv(seqOf, s) && Chain(definition, input, s) && Between(s) && UniqueKeys(definition)
    requires |s.invocations| < |definition.agents| && |s.invocations| < s.budget.maxInvocations
    requires seqOf(id) == |s.invocations| + 1 && Below(s)
    ensures var r := BeginInvocation(s, NextRequest(definition, input, s, LastResult(s), id), definition, now);
            && r.Ok? && Inv(seqOf, r.value) && Chain(definition, input, r.value) && Below(r.value)
            && r.value.active.Some? && |r.value.invocations| == |s.invocations| + 1
            && r.value.status.Running? && r.value.budget == s.budget && r.value.deadlineAt == s.deadlineAt
            && r.value.output == s.output && r.value.invocations[|s.invocations|].sequence >= 1
            && (AnsweredBy(final, s) ==> AnsweredBy(final, r.value))
  {
    AgentAt(definition.agents, |s.invocations|);
    var req := NextRequest(definition, input, s, LastResult(s), id);
    var x := NewInvocation(s, req, now);
    BeginKeepsInvariant(seqOf, s, req, definition, now);
    var s' := BeginInvocation(s, req, definition, now).value;
    ChainExtends(definition, input, s, s', x);
    NewInvocationCostsNothing(s, s', x);
    AnswersExtend(final, s, s', x);
  }

  lemma ChainExtends(definition: FlowDefinition, input: FlowInput, s: FlowState, s': FlowState, x: Invocation)
    requires Chain(definition, input, s) && |s.invocations| < |definition.agents|
    requires forall k :: 0 <= k < |s.invocations| ==> s.invocations[k].status.Completed?
    requires s'.invocations == s.invocations + [x] && s'.definition == s.definition
    requires x.agentKey == definition.agents[|s.invocations|].key
    requires x.input == InvocationInput(input.prompt, HandoffOf(LastResult(s)), input.attachments)
    ensures Chain(definition, input, s')
  {
    forall k | 0 <= k < |s'.invocations| ensures Link(definition, input, s'.invocations, k) {
      if k < |s.invocations| { assert Link(definition, input, s.invocations, k); }
    }
  }

  lemma NewInvocationCostsNothing(s: FlowState, s': FlowState, x: Invocation)
    requires s'.invocations == s.invocations + [x] && s'.budget == s.budget && x.result.None?
    ensures Checks(s') == Checks(s)
  {
    TotalsOfNewInvocation(s.invocations, x, "model_calls");
    TotalsOfNewInvocation(s.invocations, x, "tool_calls");
  }

  lemma AnswersExtend(final: Final, s: FlowState, s': FlowState, x: Invocation)
    requires s'.invocations == s.invocations + [x] && !IsTerminal(x.status) && x.result.None?
    ensures AnsweredBy(final, s) ==> AnsweredBy(final, s')
  {}

  /** Messages built by the strategy are not blank, so ending a live run with one succeeds. */
  lemma EndRun(seqOf: Id -> nat, definition: FlowDefinition, input: FlowInput, s: FlowState,
               how: Termination, error: string, now: Time)
    requires Inv(seqOf, s) && Chain(definition, input, s) && !IsTerminal(s.status) && !IsBlank(error)
    ensures var r := Terminate(s, how, error, now);
            && r.Ok? && Inv(seqOf, r.value) && Chain(definition, input, r.value)
            && r.value.status == how.RunStatus() && r.value.error == Some(error)
            && (s.active.None? ==> r.value.invocations == s.invocations)
            && r.value.budget == s.budget
  {
    if s.active.Some? {
      ActiveIsLast(seqOf, s);
      assert InvocationOk(seqOf, s, |s.invocations| - 1);
    }
    TerminateKeepsInvariant(seqOf, s, how, error, now);
    ApplySucceeds(seqOf, CmdTerminate(how, error), s, now);
    ChainContinues(definition, input, s, Terminate(s, how, error, now).value);
  }

  /** Settling the invocation that a transport belongs to. */
  lemma SettleTransport(seqOf: Id -> nat, definition: FlowDefinition, input: FlowInput, s: FlowState,
                        r: AgentResult, now: Time)
    requires Inv(seqOf, s) && Chain(definition, input, s) && s.status.Running? && s.active.Some?
    requires ValidPayload(r)
    ensures s.invocations != []
    ensures var n, t := |s.invocations|, SettleInvocation(s, r, now);
            && (t.Err? <==> !ResultMatches(s.invocations[n - 1], r)) && (t.Err? ==> t.error == InvalidValue)
            && (t.Ok? ==>
                  && Inv(seqOf, t.value) && Chain(definition, input, t.value)
                  && |t.value.invocations| == n && LastResult(t.value) == Some(r)
                  && t.value.invocations[n - 1].status == ToRunStatus(r.status)
                  && (forall k :: 0 <= k < n - 1 ==> t.value.invocations[k] == s.invocations[k])
                  && t.value.invocations[n - 1].input == s.invocations[n - 1].input
                  && t.value.status == (if r.status.ResWaiting? then Waiting else Running)
                  && t.value.active.Some? == r.status.ResWaiting?
                  && t.value.budget == s.budget)
  {
    ActiveIsLast(seqOf, s);
    var n := |s.invocations|;
    assert InvocationOk(seqOf, s, n - 1);
    var t := SettleInvocation(s, r, now);
    if t.Ok? {
      SettleKeepsInvariant(seqOf, s, r, now);
      ReplaceLast(s.invocations, SettleOne(s.invocations[n - 1], r, now).value);
      ApplySucceeds(seqOf, CmdSettle(r), s, now);
      ChainContinues(definition, input, s, t.value);
    }
  }

  /** Settling a run of agents that may wait with one of their replies. */
  lemma SettledAnswers(seqOf: Id -> nat, definition: FlowDefinition, input: FlowInput, s: FlowState,
                       r: AgentResult, now: Time, final: Final)
    requires Inv(seqOf, s) && Chain(definition, input, s) && s.status.Running? && s.active.Some?
    requires s.invocations != [] && s.invocations[|s.invocations| - 1].sequence >= 1
    requires AnsweredBy(final, s) && Answers(final, Returned(r), s.invocations[|s.invocations| - 1])
    ensures SettleInvocation(s, r, now).Ok? && AnsweredBy(final, SettleInvocation(s, r, now).value)
  {
    SettleTransport(seqOf, definition, input, s, r, now);
    var n, t := |s.invocations|, SettleInvocation(s, r, now).value;
    assert t.invocations[n - 1].result == LastResult(t);
    forall k | 0 <= k < n && t.invocations[k].result.Some? ensures Honest(t.invocations[k].result.value) {
      if k < n - 1 { assert t.invocations[k] == s.invocations[k]; }
    }
    forall k | 0 <= k < n && IsTerminal(t.invocations[k].status)
      ensures t.invocations[k].result.Some?
      ensures ContentOf(t.invocations[k].result.value) == final(k, t.invocations[k].input)
    {
      if k < n - 1 { assert IsTerminal(s.invocations[k].status); }
    }
  }

  /** Without limits nothing is ever reached. */
  lemma UnlimitedIsWithin(seqOf: Id -> nat, s: FlowState)
    requires Inv(seqOf, s) && Unlimited(s.budget)
    ensures Within(s) && Below(s) && s.deadlineAt.None?
  {}

  /** The invoker's replies are those of agents that may wait. */
  ghost predicate WorldAnswers(final: Final, world: (nat, Invocation) -> Reply) {
    forall n: nat, inv: Invocation :: inv.sequence >= 1 ==> Answers(final, world(n, inv), inv)
  }

  /** Without cumulative limits, only the invocation limit can stop the loop. */
  lemma NoViolationButInvocations(seqOf: Id -> nat, s: FlowState, now: Time)
    requires Inv(seqOf, s) && Consumable(s) && ViolationBefore(s, now, true).Some?
    ensures Unlimited(s.budget) ==>
      ViolationBefore(s, now, true).value.kind == Invocations && |s.invocations| == s.budget.maxInvocations
  {
    if Unlimited(s.budget) {
      UnlimitedIsWithin(seqOf, s);
      BeforeTransportMeaning(s, now, true);
    }
  }

  lemma LastIsAnswered(seqOf: Id -> nat, definition: FlowDefinition, input: FlowInput, s: FlowState)
    requires Inv(seqOf, s) && Chain(definition, input, s) && Between(s)
    requires |s.invocations| == |definition.agents| > 0
    ensures LastResult(s).Some?
  {
    assert InvocationOk(seqOf, s, |s.invocations| - 1);
  }

  /** Starting a new run. */
  lemma BeginRun(seqOf: Id -> nat, definition: FlowDefinition, input: FlowInput, s: FlowState, now: Time)
    requires Inv(seqOf, s) && Chain(definition, input, s) && s.status.Created?
    ensures var t := Lifecycle.Start(s, now);
            && t.Ok? && Inv(seqOf, t.value) && Chain(definition, input, t.value)
            && t.value.invocations == [] && t.value.status.Running? && t.value.active.None?
            && t.value.budget == s.budget && t.value.output == s.output && Within(t.value)
  {
    ApplyKeepsInvariant(seqOf, CmdStart, s, now);
  }

  /** Completing a run whose agents have all completed. */
  lemma Conclude(seqOf: Id -> nat, definition: FlowDefinition, input: FlowInput, s: FlowState,
                 output: string, now: Time)
    requires Inv(seqOf, s) && Chain(definition, input, s) && Between(s) && Within(s) && s.invocations != []
    ensures var t := Complete(s, output, now);
            && t.Ok? && Inv(seqOf, t.value) && Chain(definition, input, t.value) && Within(t.value)
            && t.value.invocations == s.invocations && t.value.status.Completed?
            && t.value.output == Some(output) && t.value.budget == s.budget
  {
    ApplyKeepsInvariant(seqOf, CmdComplete(output), s, now);
    ApplySucceeds(seqOf, CmdComplete(output), s, now);
    ChainContinues(definition, input, s, Complete(s, output, now).value);
    assert Checks(Complete(s, output, now).value) == Checks(s);
  }

  /** Claiming the waiting invocation changes no result, hence no total. */
  lemma ResumeTransport(seqOf: Id -> nat, definition: FlowDefinition, input: FlowInput, s: FlowState,
                        id: Id, now: Time, final: Final)
    requires Inv(seqOf, s) && Chain(definition, input, s) && Below(s) && ResumeInvocation(s, id, now).Ok?
    ensures var t := ResumeInvocation(s, id, now).value;
            && Inv(seqOf, t) && Chain(definition, input, t) && Below(t)
            && t.status.Running? && t.active.Some? && |t.invocations| == |s.invocations| > 0
            && t.output == s.output && t.budget == s.budget
            && (AnsweredBy(final, s) ==> AnsweredBy(final, t))
  {
    var t := ResumeInvocation(s, id, now).value;
    var n := |s.invocations|;
    ActiveIsLast(seqOf, s);
    ResumeKeepsInvariant(seqOf, s, id, now);
    ApplySucceeds(seqOf, CmdResume(id), s, now);
    ChainContinues(definition, input, s, t);
    ReplaceLast(s.invocations, ResumeOne(s.invocations[n - 1], now).value);
    TotalsOfResults(s.invocations, t.invocations, "model_calls");
    TotalsOfResults(s.invocations, t.invocations, "tool_calls");
    assert Checks(t) == Checks(s);
  }

  /** Without limits and with honest agents, a resume is let through. */
  lemma QuietPasses(seqOf: Id -> nat, final: Final, s: FlowState, now: Time)
    requires Inv(seqOf, s)
    ensures AnsweredBy(final, s) && Unlimited(s.budget) ==> BeforeTransport(s, now, false) == Some(None)
  {
    if AnsweredBy(final, s) && Unlimited(s.budget) {
      HonestSums(s.invocations);
      UnlimitedIsWithin(seqOf, s);
      BeforeTransportMeaning(s, now, false);
    }
  }

  /** The active invocation can be claimed exactly when the run waits for it. */
  lemma WaitingCanResume(seqOf: Id -> nat, s: FlowState, now: Time)
    requires Inv(seqOf, s)
    ensures s.status.Waiting? ==> s.active.Some?
    ensures s.active.Some? ==>
              && s.invocations != []
              && (ResumeInvocation(s, s.invocations[|s.invocations| - 1].id, now).Ok? <==> s.status.Waiting?)
  {
    if s.active.Some? { ActiveIsLast(seqOf, s); }
  }

  lemma AllButLastCompleted(definition: FlowDefinition, input: FlowInput, s: FlowState)
    requires Chain(definition, input, s)
    ensures forall k :: 0 <= k < |s.invocations| - 1 ==> s.invocations[k].status.Completed?
  {
    forall k | 0 <= k < |s.invocations| - 1 ensures s.invocations[k].status.Completed? {
      assert Link(definition, input, s.invocations, k + 1);
    }
  }

  // ---------------------------------------------------------------- agents that may wait first

  /** A result without the identity of the invocation that it belongs to. */
  datatype Content = Content(
    status: ResultStatus, output: Option<string>, usage: Usage, artifacts: seq<Id>,
    error: Option<string>, metadata: map<string, Json>)

  function ContentOf(r: AgentResult): Content {
    Content(r.status, r.output, r.usage, r.artifacts, r.error, r.metadata)
  }

  /** What each agent finally answers to its input, however often it waits before. */
  type Final = (nat, InvocationInput) -> Content

  /** Counts that an agent can have made. */
  predicate Honest(r: AgentResult) {
    ResultCount(Some(r), "model_calls") >= 0 && ResultCount(Some(r), "tool_calls") >= 0
  }

  /** An agent that did not complete and whose error is blank but not empty. */
  predicate Unexplained(r: AgentResult) {
    r.status !in {ResCompleted, ResWaiting} && IsBlank(OutcomeError(r))
  }

  ghost predicate AllHonest(invs: seq<Invocation>) {
    forall k :: 0 <= k < |invs| && invs[k].result.Some? ==> Honest(invs[k].result.value)
  }

  lemma {:induction false} HonestSums(invs: seq<Invocation>)
    requires AllHonest(invs)
    ensures SumCount(invs, "model_calls") >= 0 && SumCount(invs, "tool_calls") >= 0
  {
    if invs != [] {
      var n := |invs| - 1;
      HonestSums(invs[..n]);
      assert invs[n].result.Some? ==> Honest(invs[n].result.value);
    }
  }

  /** A reply of such an agent: it waits, or it gives its final answer. */
  ghost predicate Answers(final: Final, reply: Reply, inv: Invocation)
    requires inv.sequence >= 1
  {
    && reply.Returned? && ResultMatches(inv, reply.result) && ValidPayload(reply.result)
    && Honest(reply.result) && !Unexplained(reply.result)
    && (reply.result.status.ResWaiting? || ContentOf(reply.result) == final(inv.sequence - 1, inv.input))
  }

  ghost predicate AnsweredBy(final: Final, s: FlowState) {
    && AllHonest(s.invocations)
    && forall k :: 0 <= k < |s.invocations| && IsTerminal(s.invocations[k].status) ==>
         s.invocations[k].result.Some? && ContentOf(s.invocations[k].result.value) == final(k, s.invocations[k].input)
  }

  predicate Unlimited(b: FlowBudget) {
    b.maxInputTokens.None? && b.maxOutputTokens.None? && b.maxTotalTokens.None?
    && b.maxModelCalls.None? && b.maxToolCalls.None? && b.timeout.None?
  }

  /** The end that the agents' answers call for: all completed, stopped by the invocation limit, or
      ended as the last agent ended. */
  ghost predicate Concluded(definition: FlowDefinition, s: FlowState) {
    var n := |s.invocations|;
    var last := LastResult(s);
    if n == 0 || s.invocations[n - 1].status.Completed? then
      if n < |definition.agents| then
        && n == s.budget.maxInvocations && s.status.LimitReached?
        && s.error == Some(LimitMessage(Invocations)) && s.output.None?
      else
        && s.status.Completed? && last.Some? && s.output == Some(OrElse(last.value.output, ""))
        && s.error.None?
    else
      && IsErrorStatus(s.invocations[n - 1].status) && s.status == s.invocations[n - 1].status
      && last.Some? && s.error == Some(OutcomeError(last.value)) && s.output.None?
  }

  /** Two runs of the same flow over the same agents agree on every invocation that both have, up
      to identity and time. */
  lemma {:induction false} SameInputs(definition: FlowDefinition, input: FlowInput, final: Final,
                                      s: FlowState, t: FlowState, k: nat)
    requires Chain(definition, input, s) && AnsweredBy(final, s)
    requires Chain(definition, input, t) && AnsweredBy(final, t)
    requires forall i :: 0 <= i < |s.invocations| ==> ValidateResult(s.invocations[i])
    requires forall i :: 0 <= i < |t.invocations| ==> ValidateResult(t.invocations[i])
    requires k < |s.invocations| && k < |t.invocations|
    ensures s.invocations[k].agentKey == t.invocations[k].agentKey == definition.agents[k].key
    ensures s.invocations[k].input == t.invocations[k].input
    ensures IsTerminal(s.invocations[k].status) && IsTerminal(t.invocations[k].status) ==>
              && s.invocations[k].status == t.invocations[k].status
              && s.invocations[k].result.Some? && t.invocations[k].result.Some?
              && ContentOf(s.invocations[k].result.value) == ContentOf(t.invocations[k].result.value)
  {
    assert Link(definition, input, s.invocations, k) && Link(definition, input, t.invocations, k);
    if k > 0 {
      SameInputs(definition, input, final, s, t, k - 1);
    }
  }

  /** Waiting does not show in the outcome: two concluded runs of the same flow, whose agents give
      the same final answers after any number of waits each, have the same agents in the same
      order with the same inputs and answers, and the same status, output and error. */
  lemma WaitingIsTransparent(seqOf: Id -> nat, seqOf': Id -> nat, definition: FlowDefinition, input: FlowInput,
                             final: Final, s: FlowState, t: FlowState)
    requires Inv(seqOf, s) && Chain(definition, input, s) && AnsweredBy(final, s) && Concluded(definition, s)
    requires Inv(seqOf', t) && Chain(definition, input, t) && AnsweredBy(final, t) && Concluded(definition, t)
    requires s.budget == t.budget
    ensures |s.invocations| == |t.invocations|
    ensures forall k :: 0 <= k < |s.invocations| ==>
              && s.invocations[k].agentKey == t.invocations[k].agentKey == definition.agents[k].key
              && s.invocations[k].input == t.invocations[k].input
              && s.invocations[k].result.Some? && t.invocations[k].result.Some?
              && ContentOf(s.invocations[k].result.value) == ContentOf(t.invocations[k].result.value)
    ensures s.status == t.status && s.output == t.output && s.error == t.error
  {
    AllAnswered(seqOf, definition, input, s);
    AllAnswered(seqOf', definition, input, t);
    forall k | 0 <= k < |s.invocations| && k < |t.invocations|
      ensures s.invocations[k].agentKey == t.invocations[k].agentKey == definition.agents[k].key
      ensures s.invocations[k].input == t.invocations[k].input
      ensures s.invocations[k].status == t.invocations[k].status
      ensures ContentOf(s.invocations[k].result.value) == ContentOf(t.invocations[k].result.value)
    {
      SameInputs(definition, input, final, s, t, k);
    }
    SameEnd(definition, s, t);
  }

  /** In a concluded run every invocation has ended with a result of its own agent. */
  lemma AllAnswered(seqOf: Id -> nat, definition: FlowDefinition, input: FlowInput, s: FlowState)
    requires Inv(seqOf, s) && Chain(definition, input, s) && Concluded(definition, s)
    ensures forall k :: 0 <= k < |s.invocations| ==>
              && ValidateResult(s.invocations[k]) && IsTerminal(s.invocations[k].status)
              && s.invocations[k].result.Some?
              && s.invocations[k].result.value.agentKey == s.invocations[k].agentKey
    ensures forall k :: 0 <= k < |s.invocations| - 1 ==> s.invocations[k].status.Completed?
  {
    forall k | 0 <= k < |s.invocations|
      ensures ValidateResult(s.invocations[k]) && IsTerminal(s.invocations[k].status)
    {
      assert InvocationOk(seqOf, s, k);
    }
    AllButLastCompleted(definition, input, s);
  }

  /** What a concluded run shows: the last output when every declared agent has completed, the invocation
      limit when the others were not allowed, and otherwise the status and the words of the agent that did
      not complete. */
  lemma ConcludedMeans(seqOf: Id -> nat, definition: FlowDefinition, input: FlowInput, s: FlowState)
    requires Inv(seqOf, s) && Chain(definition, input, s) && Concluded(definition, s) && definition.agents != []
    ensures s.status.Completed? <==> AllCompleted(definition, s)
    ensures s.status.Completed? ==>
              var last := s.invocations[|s.invocations| - 1].result;
              last.Some? && s.output == Some(if last.value.output.Some? then last.value.output.value else "")
    ensures !s.status.Completed? ==> s.output.None? && s.error.Some?
    ensures !s.status.Completed? && (s.invocations == [] || s.invocations[|s.invocations| - 1].status.Completed?) ==>
              s.status.LimitReached? && |s.invocations| == s.budget.maxInvocations < |definition.agents|
    ensures s.invocations != [] && !s.invocations[|s.invocations| - 1].status.Completed? ==>
              var last := s.invocations[|s.invocations| - 1];
              s.status == last.status && last.result.Some? && s.error == last.result.value.error
  {
    AllAnswered(seqOf, definition, input, s);
    if s.invocations != [] { assert InvocationOk(seqOf, s, |s.invocations| - 1); }
  }

  /** Equal statuses and answers, as far as both runs go, lead to the same length and end. */
  lemma SameEnd(definition: FlowDefinition, s: FlowState, t: FlowState)
    requires Concluded(definition, s) && Concluded(definition, t) && s.budget == t.budget
    requires |s.invocations| <= s.budget.maxInvocations && |t.invocations| <= t.budget.maxInvocations
    requires |s.invocations| <= |definition.agents| && |t.invocations| <= |definition.agents|
    requires forall k :: 0 <= k < |s.invocations| - 1 ==> s.invocations[k].status.Completed?
    requires forall k :: 0 <= k < |t.invocations| - 1 ==> t.invocations[k].status.Completed?
    requires forall k :: 0 <= k < |s.invocations| ==> s.invocations[k].result.Some?
    requires forall k :: 0 <= k < |t.invocations| ==> t.invocations[k].result.Some?
    requires forall k :: 0 <= k < |s.invocations| && k < |t.invocations| ==>
      && s.invocations[k].status == t.invocations[k].status
      && s.invocations[k].agentKey == t.invocations[k].agentKey
      && s.invocations[k].result.value.agentKey == s.invocations[k].agentKey
      && t.invocations[k].result.value.agentKey == t.invocations[k].agentKey
      && ContentOf(s.invocations[k].result.value) == ContentOf(t.invocations[k].result.value)
    ensures |s.invocations| == |t.invocations|
    ensures s.status == t.status && s.output == t.output && s.error == t.error
  {
    var n, m := |s.invocations|, |t.invocations|;
    if 0 < n == m {
      assert OutcomeError(s.invocations[n - 1].result.value) == OutcomeError(t.invocations[n - 1].result.value);
    }
  }

  ghost predicate AllCompleted(definition: FlowDefinition, s: FlowState) {
    && |s.invocations| == |definition.agents|
    && forall k :: 0 <= k < |s.invocations| ==> s.invocations[k].status.Completed?
  }

  /** The run's output is the last agent's, and empty when that agent gave none. */
  ghost predicate ShowsLastOutput(s: FlowState) {
    var last := LastResult(s);
    last.Some? && s.output == Some(if last.value.output.Some? then last.value.output.value else "")
  }

  /** What makes a call raise, seen from the state it leaves and the last reply it got: totals that
      cannot be built, a cancelled task, a timeout that nobody configured, or an agent that ended
      without a reason. */
  ghost predicate Escapes(s: FlowState, reply: Option<Reply>) {
    || (!IsTerminal(s.status) && !Consumable(s))
    || reply == Some(TaskCancelled)
    || (reply == Some(TimedOut) && s.budget.timeout.None?)
    || (s.status.Running? && reply.Some? && reply.value.Returned? && Unexplained(reply.value.result))
  }

  /** Nothing has been asked yet, or the last agent asked has completed. */
  ghost predicate Done(reply: Option<Reply>) {
    reply.Some? ==> reply.value.Returned? && reply.value.result.status.ResCompleted?
  }

  /** The invoker may answer its n-th transport by waiting. */
  ghost predicate MayWait(world: (nat, Invocation) -> Reply, n: int) {
    n >= 0 && exists inv :: world(n, inv).Returned? && world(n, inv).result.status.ResWaiting?
  }

  // ---------------------------------------------------------------- the strategy

  class SequentialFlow {
    const definition: FlowDefinition
    ghost const input: FlowInput
    /** The UUID drawn for the k-th invocation. */
    const ids: nat -> Id
    var state: FlowState
    var transports: nat
    /** The stored run at the moment of each transport. */
    ghost var log: seq<FlowState>
    /** The last reply that the current call got. */
    ghost var reply: Option<Reply>
    /** The invocation that was last transported. */
    ghost var asked: Invocation

    ghost predicate Valid(seqOf: Id -> nat)
      reads this
    {
      && Inv(seqOf, state) && Chain(definition, input, state)
      && UniqueKeys(definition) && definition.agents != [] && state.budget == definition.budget
      && (forall k: nat :: seqOf(ids(k)) == k)
      && transports == |log|
      && (forall i :: 0 <= i < |log| ==> Below(log[i]))
      && (if state.status.Completed? then
            Within(state) && AllCompleted(definition, state) && ShowsLastOutput(state)
          else state.output.None?)
    }

    /** A run that waits was last answered by waiting. */
    ghost predicate WaitsFor(world: (nat, Invocation) -> Reply)
      reads this
    {
      state.status.Waiting? ==>
        && transports > 0 && world(transports - 1, asked).Returned?
        && world(transports - 1, asked).result.status.ResWaiting?
    }

    constructor (definition: FlowDefinition, ghost input: FlowInput, ids: nat -> Id, runId: Id, now: Time,
                 ghost seqOf: Id -> nat)
      requires UniqueKeys(definition) && definition.agents != []
      requires forall k: nat :: seqOf(ids(k)) == k
      ensures Valid(seqOf) && state == Create(definition, runId, now) && log == []
      ensures this.definition == definition && this.input == input && this.ids == ids
    {
      this.definition, this.input, this.ids := definition, input, ids;
      state := Create(definition, runId, now);
      transports, log, reply := 0, [], None;
    }

    /** What follows a transport that returned a result. `proceed` says that the agent completed and
        the next one may start; otherwise the call is over. */
    method AbsorbResult(r: AgentResult, operation: string, now: Time, ghost seqOf: Id -> nat, ghost final: Final)
      returns (proceed: bool, out: Outcome)
      requires Valid(seqOf) && state.status.Running? && state.active.Some? && ValidPayload(r)
      modifies this`state
      ensures old(state.invocations) != []
      ensures Valid(seqOf) && |state.invocations| == |old(state.invocations)|
      ensures proceed ==> Between(state) && Within(state) && LastResult(state) == Some(r) && r.status.ResCompleted?
      ensures !proceed && out.Finished? ==> state.status.Waiting? || IsErrorStatus(state.status)
      ensures !proceed ==> !state.status.Completed? && (out.Escaped? <==> Escapes(state, Some(Returned(r))))
      ensures state.status.Waiting? ==> r.status.ResWaiting?
      ensures old(AnsweredBy(final, state)) && Unlimited(definition.budget)
              && Answers(final, Returned(r), old(state.invocations[|state.invocations| - 1])) ==>
                && AnsweredBy(final, state)
                && (proceed || (out.Finished? && (state.status.Waiting? || Concluded(definition, state))))
    {
      ActiveIsLast(seqOf, state);
      var settled := Settle(r, now, seqOf, final);
      if settled {
        if AnsweredBy(final, state) { HonestSums(state.invocations); }
        proceed, out := Judge(r, now, seqOf);
      } else {
        FailTransport(operation + " returned an invalid result", "ValueError", now, seqOf);
        proceed, out := false, Finished;
      }
    }

    /** Records the result, unless it belongs to another invocation. */
    method Settle(r: AgentResult, now: Time, ghost seqOf: Id -> nat, ghost final: Final) returns (ok: bool)
      requires Valid(seqOf) && state.status.Running? && state.active.Some? && ValidPayload(r)
      requires state.invocations != []
      modifies this`state
      ensures Valid(seqOf) && |state.invocations| == |old(state.invocations)|
      ensures ok <==> ResultMatches(old(state.invocations[|state.invocations| - 1]), r)
      ensures !ok ==> state == old(state)
      ensures ok ==>
                && LastResult(state) == Some(r)
                && state.invocations[|state.invocations| - 1].status == ToRunStatus(r.status)
                && state.status == (if r.status.ResWaiting? then Waiting else Running)
                && state.active.Some? == r.status.ResWaiting?
      ensures old(AnsweredBy(final, state))
              && Answers(final, Returned(r), old(state.invocations[|state.invocations| - 1])) ==>
                ok && AnsweredBy(final, state)
    {
      SettleTransport(seqOf, definition, input, state, r, now);
      if AnsweredBy(final, state) && Answers(final, Returned(r), state.invocations[|state.invocations| - 1]) {
        SettledAnswers(seqOf, definition, input, state, r, now, final);
      }
      var settled := SettleInvocation(state, r, now);
      if settled.Err? { return false; }
      state := settled.value;
      return true;
    }

    /** `after_transport` and `_handle_outcome` on a run that was just settled. */
    method Judge(r: AgentResult, now: Time, ghost seqOf: Id -> nat) returns (proceed: bool, out: Outcome)
      requires Valid(seqOf) && LastResult(state) == Some(r) && state.invocations != []
      requires state.invocations[|state.invocations| - 1].status == ToRunStatus(r.status)
      requires state.status == (if r.status.ResWaiting? then Waiting else Running)
      requires state.active.Some? == r.status.ResWaiting?
      modifies this`state
      ensures Valid(seqOf) && |state.invocations| == |old(state.invocations)|
      ensures proceed ==> Between(state) && Within(state)
      ensures match AfterTransport(old(state), now)
              case None => !proceed && out.Escaped? && state == old(state)
              case Some(Some(v)) =>
                !proceed && out.Finished? && state.status.LimitReached? && state.error == Some(LimitMessage(v.kind))
              case Some(None) =>
                if r.status in {ResCompleted, ResWaiting} then
                  state == old(state) && proceed == r.status.ResCompleted? && out.Finished?
                else if IsBlank(OutcomeError(r)) then !proceed && out.Escaped? && state == old(state)
                else !proceed && out.Finished? && state.status == ToRunStatus(r.status)
                     && state.error == Some(OutcomeError(r))
      ensures !proceed && out.Finished? ==> state.status.Waiting? || IsErrorStatus(state.status)
      ensures !proceed ==> !state.status.Completed? && (out.Escaped? <==> Escapes(state, Some(Returned(r))))
      ensures state.status.Waiting? ==> r.status.ResWaiting?
      ensures Unlimited(definition.budget) ==>
                && state.invocations == old(state.invocations)
                && (proceed || out.Escaped? || state.status.Waiting? || Concluded(definition, state))
    {
      AllButLastCompleted(definition, input, state);
      AfterTransportMeaning(state, now);
      if Unlimited(definition.budget) { UnlimitedIsWithin(seqOf, state); }
      var checked := AfterTransport(state, now);
      if checked.None? { return false, Escaped; }
      var violation := checked.value;
      if violation.Some? {
        End(ByLimit, LimitMessage(violation.value.kind), now, seqOf);
        return false, Finished;
      }
      if r.status.ResCompleted? { return true, Finished; }
      if r.status.ResWaiting? { return false, Finished; }
      if IsBlank(OutcomeError(r)) { return false, Escaped; }
      End(EndingOf(r.status), OutcomeError(r), now, seqOf);
      return false, Finished;
    }

    /** What follows any transport, new or resumed. */
    method Absorb(reply: Reply, operation: string, now: Time, ghost seqOf: Id -> nat, ghost final: Final)
      returns (proceed: bool, out: Outcome)
      requires Valid(seqOf) && state.status.Running? && state.active.Some?
      requires reply.Returned? ==> ValidPayload(reply.result)
      modifies this`state
      ensures old(state.invocations) != []
      ensures Valid(seqOf) && |state.invocations| == |old(state.invocations)|
      ensures proceed ==> Between(state) && Within(state) && reply.Returned? && LastResult(state) == Some(reply.result)
      ensures reply.Raised? ==> out.Finished? && state.status.Failed?
      ensures reply.TimedOut? && out.Finished? ==> state.status.LimitReached?
      ensures reply.TaskCancelled? ==> out.Escaped? && state.status.Interrupted?
      ensures proceed ==> Done(Some(reply))
      ensures !proceed && out.Finished? ==> state.status.Waiting? || IsErrorStatus(state.status)
      ensures !proceed ==> !state.status.Completed? && (out.Escaped? <==> Escapes(state, Some(reply)))
      ensures state.status.Waiting? ==> reply.Returned? && reply.result.status.ResWaiting?
      ensures old(AnsweredBy(final, state)) && Unlimited(definition.budget)
              && Answers(final, reply, old(state.invocations[|state.invocations| - 1])) ==>
                && AnsweredBy(final, state)
                && (proceed || (out.Finished? && (state.status.Waiting? || Concluded(definition, state))))
    {
      ActiveIsLast(seqOf, state);
      match reply
      case TimedOut =>
        // the source builds the consumption and asserts that a timeout was configured
        if state.budget.timeout.None? || !Consumable(state) { return false, Escaped; }
        End(ByLimit, LimitMessage(Timeout), now, seqOf);
        return false, Finished;
      case TaskCancelled =>
        End(ByInterrupt, CancelMessage(operation), now, seqOf);
        return false, Escaped;
      case Raised(message) =>
        FailTransport(operation, message, now, seqOf);
        return false, Finished;
      case Returned(r) =>
        proceed, out := AbsorbResult(r, operation, now, seqOf, final);
    }

    /** `_transport_failure` */
    method FailTransport(operation: string, error: string, now: Time, ghost seqOf: Id -> nat)
      requires Valid(seqOf) && !IsTerminal(state.status) && state.invocations != []
      modifies this`state
      ensures Valid(seqOf) && state.status.Failed? && |state.invocations| == |old(state.invocations)|
    {
      End(ByFailure, FailureMessage(state.invocations[|state.invocations| - 1].agentKey, operation, error), now, seqOf);
    }

    /** Ends the run with a message that is not blank. */
    method End(how: Termination, error: string, now: Time, ghost seqOf: Id -> nat)
      requires Valid(seqOf) && !IsTerminal(state.status)
      requires !IsBlank(error)
      modifies this`state
      ensures Valid(seqOf) && state.status == how.RunStatus() && state.error == Some(error)
      ensures |state.invocations| == |old(state.invocations)|
      ensures old(state.active).None? ==> state.invocations == old(state.invocations)
    {
      EndRun(seqOf, definition, input, state, how, error, now);
      ApplySucceeds(seqOf, CmdTerminate(how, error), state, now);
      state := Terminate(state, how, error, now).value;
    }

    /** Begins the next agent, calls its transport and settles it. */
    method CallInvoke(flow: FlowInput, previous: Option<AgentResult>, world: (nat, Invocation) -> Reply,
                      clock: nat -> Time, now: Time, ghost seqOf: Id -> nat, ghost final: Final)
      returns (proceed: bool, out: Outcome, result: AgentResult)
      requires Valid(seqOf) && Between(state) && Below(state) && flow == input && previous == LastResult(state)
      requires |state.invocations| < |definition.agents| && |state.invocations| < state.budget.maxInvocations
      requires forall n, inv :: world(n, inv).Returned? ==> ValidPayload(world(n, inv).result)
      modifies this
      ensures Valid(seqOf) && old(log) <= log
      ensures transports == old(transports) + 1 && |state.invocations| == |old(state.invocations)| + 1
      ensures proceed ==> Between(state) && Within(state) && LastResult(state) == Some(result) && Done(reply)
      ensures !proceed && out.Finished? ==> state.status.Waiting? || IsErrorStatus(state.status)
      ensures !proceed ==> (out.Escaped? <==> Escapes(state, reply))
      ensures reply.Some? && WaitsFor(world)
      ensures old(AnsweredBy(final, state)) && Unlimited(definition.budget) && WorldAnswers(final, world) ==>
                && AnsweredBy(final, state)
                && (proceed || (out.Finished? && (state.status.Waiting? || Concluded(definition, state))))
    {
      BeginAgent(flow, previous, now, seqOf, final);
      proceed, out, result := Transport("invoke", world, clock, seqOf, final);
    }

    /** Commits the invocation of the next agent. */
    method BeginAgent(flow: FlowInput, previous: Option<AgentResult>, now: Time,
                      ghost seqOf: Id -> nat, ghost final: Final)
      requires Valid(seqOf) && Between(state) && Below(state) && flow == input && previous == LastResult(state)
      requires |state.invocations| < |definition.agents| && |state.invocations| < state.budget.maxInvocations
      modifies this`state
      ensures Valid(seqOf) && Below(state) && state.status.Running? && state.active.Some?
      ensures |state.invocations| == |old(state.invocations)| + 1
      ensures old(AnsweredBy(final, state)) ==> AnsweredBy(final, state)
    {
      var id := ids(|state.invocations| + 1);
      BeginNext(seqOf, definition, input, state, id, now, final);
      state := BeginInvocation(state, NextRequest(definition, flow, state, previous, id), definition, now).value;
    }

    /** Hands the active invocation to the invoker. */
    method Ask(world: (nat, Invocation) -> Reply, ghost seqOf: Id -> nat) returns (answer: Reply)
      requires Valid(seqOf) && Below(state) && state.active.Some?
      modifies this`reply, this`asked, this`log, this`transports
      ensures Valid(seqOf) && log == old(log) + [state] && transports == old(transports) + 1
      ensures state.invocations != [] && asked == state.invocations[|state.invocations| - 1] && asked.sequence >= 1
      ensures answer == world(old(transports), asked) && reply == Some(answer)
    {
      ActiveIsLast(seqOf, state);
      var invocation := state.invocations[|state.invocations| - 1];
      answer := world(transports, invocation);
      reply, asked := Some(answer), invocation;
      log := log + [state];
      transports := transports + 1;
    }

    /** Calls the transport of the active invocation and settles it. */
    method Transport(operation: string, world: (nat, Invocation) -> Reply, clock: nat -> Time,
                     ghost seqOf: Id -> nat, ghost final: Final)
      returns (proceed: bool, out: Outcome, result: AgentResult)
      requires Valid(seqOf) && Below(state) && state.status.Running? && state.active.Some?
      requires forall n, inv :: world(n, inv).Returned? ==> ValidPayload(world(n, inv).result)
      modifies this
      ensures Valid(seqOf) && old(log) <= log && transports == old(transports) + 1
      ensures |state.invocations| == |old(state.invocations)|
      ensures proceed ==> Between(state) && Within(state) && LastResult(state) == Some(result) && Done(reply)
      ensures !proceed && out.Finished? ==> state.status.Waiting? || IsErrorStatus(state.status)
      ensures !proceed ==> (out.Escaped? <==> Escapes(state, reply))
      ensures reply.Some? && WaitsFor(world)
      ensures old(AnsweredBy(final, state)) && Unlimited(definition.budget) && WorldAnswers(final, world) ==>
                && AnsweredBy(final, state)
                && (proceed || (out.Finished? && (state.status.Waiting? || Concluded(definition, state))))
    {
      var answer := Ask(world, seqOf);
      proceed, out := Absorb(answer, operation, clock(2 * transports - 1), seqOf, final);
      result := if answer.Returned? then answer.result
                else AgentResult(0, 0, "", ResWaiting, None, NO_USAGE, [], None, None, map[]);
    }

    /** The check before a new invocation: it passes, or the run ends at the limit. */
    method StopAtLimit(now: Time, ghost seqOf: Id -> nat) returns (stopped: bool, out: Outcome)
      requires Valid(seqOf) && Between(state) && |state.invocations| < |definition.agents|
      modifies this`state
      ensures Valid(seqOf) && state.invocations == old(state.invocations)
      ensures !stopped ==>
                state == old(state) && Below(state) && |state.invocations| < state.budget.maxInvocations
      ensures stopped <==> BeforeTransport(old(state), now, true) != Some(None)
      ensures stopped ==> if out.Escaped? then state == old(state) else state.status.LimitReached?
      ensures stopped ==> (out.Escaped? <==> !Consumable(old(state)))
      ensures stopped && out.Finished? && Unlimited(definition.budget) ==> Concluded(definition, state)
    {
      BeforeTransportMeaning(state, now, true);
      var checked := BeforeTransport(state, now, true);
      if checked.None? { return true, Escaped; }
      var violation := checked.value;
      if violation.None? { return false, Finished; }
      NoViolationButInvocations(seqOf, state, now);
      End(ByLimit, LimitMessage(violation.value.kind), now, seqOf);
      return true, Finished;
    }

    /** All agents have completed: the last one's output is the Flow's. */
    method Finish(previous: AgentResult, now: Time, ghost seqOf: Id -> nat)
      requires Valid(seqOf) && Between(state) && Within(state) && |state.invocations| == |definition.agents|
      requires LastResult(state) == Some(previous)
      modifies this`state
      ensures Valid(seqOf) && state.invocations == old(state.invocations)
      ensures state.status.Completed? && Concluded(definition, state)
    {
      var output := OrElse(previous.output, "");
      Conclude(seqOf, definition, input, state, output, now);
      state := Complete(state, output, now).value;
    }

    /** The loop's body: the limit check, then the transport of the next agent. */
    method NextAgent(flow: FlowInput, previous: Option<AgentResult>, world: (nat, Invocation) -> Reply,
                     clock: nat -> Time, ghost seqOf: Id -> nat, ghost final: Final)
      returns (proceed: bool, out: Outcome, result: AgentResult)
      requires Valid(seqOf) && Between(state) && flow == input && previous == LastResult(state) && Done(reply)
      requires |state.invocations| < |definition.agents|
      requires forall n, inv :: world(n, inv).Returned? ==> ValidPayload(world(n, inv).result)
      modifies this
      ensures Valid(seqOf) && old(log) <= log
      ensures transports - old(transports) == |state.invocations| - |old(state.invocations)| <= 1
      ensures old(reply).Some? ==> reply.Some?
      ensures proceed ==>
                && |state.invocations| == |old(state.invocations)| + 1
                && Between(state) && Within(state) && LastResult(state) == Some(result) && Done(reply)
      ensures !proceed && out.Finished? ==> state.status.Waiting? || IsTerminal(state.status)
      ensures !proceed ==> (out.Escaped? <==> Escapes(state, reply))
      ensures WaitsFor(world)
      ensures Unlimited(definition.budget) && WorldAnswers(final, world) && old(AnsweredBy(final, state)) ==>
                && AnsweredBy(final, state)
                && (proceed || (out.Finished? && (state.status.Waiting? || Concluded(definition, state))))
    {
      var now := clock(2 * transports);
      if AnsweredBy(final, state) { HonestSums(state.invocations); }
      var stopped;
      stopped, out := StopAtLimit(now, seqOf);
      if stopped {
        return false, out, AgentResult(0, 0, "", ResWaiting, None, NO_USAGE, [], None, None, map[]);
      }
      proceed, out, result := CallInvoke(flow, previous, world, clock, now, seqOf, final);
    }

    /** `_advance`: the loop over the agents that have not been invoked yet. */
    method Advance(flow: FlowInput, first: Option<AgentResult>, world: (nat, Invocation) -> Reply,
                   clock: nat -> Time, ghost seqOf: Id -> nat, ghost final: Final)
      returns (out: Outcome)
      requires Valid(seqOf) && Between(state) && Within(state)
      requires flow == input && first == LastResult(state) && Done(reply)
      requires forall n, inv :: world(n, inv).Returned? ==> ValidPayload(world(n, inv).result)
      modifies this
      ensures Valid(seqOf) && old(log) <= log
      ensures old(reply).Some? ==> reply.Some?
      ensures old(transports) <= transports <= old(transports) + |definition.agents| - |old(state.invocations)|
      ensures out.Finished? ==> state.status.Waiting? || IsTerminal(state.status)
      ensures out.Escaped? <==> Escapes(state, reply)
      ensures WaitsFor(world)
      ensures old(AnsweredBy(final, state)) && Unlimited(definition.budget) && WorldAnswers(final, world) ==>
                && AnsweredBy(final, state)
                && out.Finished? && (state.status.Waiting? || Concluded(definition, state))
    {
      var stopped, last := InvokeRemaining(flow, first, world, clock, seqOf, final);
      if stopped.Some? { return stopped.value; }
      LastIsAnswered(seqOf, definition, input, state);
      Finish(last.value, clock(2 * transports), seqOf);
      return Finished;
    }

    /** The loop of `_advance`: it stops early with the outcome of the call, or all agents have completed. */
    method InvokeRemaining(flow: FlowInput, first: Option<AgentResult>, world: (nat, Invocation) -> Reply,
                           clock: nat -> Time, ghost seqOf: Id -> nat, ghost final: Final)
      returns (stopped: Option<Outcome>, previous: Option<AgentResult>)
      requires Valid(seqOf) && Between(state) && Within(state)
      requires flow == input && first == LastResult(state) && Done(reply)
      requires forall n, inv :: world(n, inv).Returned? ==> ValidPayload(world(n, inv).result)
      modifies this
      ensures Valid(seqOf) && old(log) <= log && (old(reply).Some? ==> reply.Some?)
      ensures transports - old(transports) == |state.invocations| - |old(state.invocations)| >= 0
      ensures stopped.None? ==>
                && Between(state) && Within(state) && |state.invocations| == |definition.agents|
                && previous == LastResult(state) && Done(reply)
      ensures stopped == Some(Finished) ==> state.status.Waiting? || IsTerminal(state.status)
      ensures stopped.Some? ==> (stopped.value.Escaped? <==> Escapes(state, reply))
      ensures WaitsFor(world)
      ensures old(AnsweredBy(final, state)) && Unlimited(definition.budget) && WorldAnswers(final, world) ==>
                && AnsweredBy(final, state)
                && (stopped.Some? ==>
                      stopped.value.Finished? && (state.status.Waiting? || Concluded(definition, state)))
    {
      previous := first;
      ghost var quiet := AnsweredBy(final, state) && Unlimited(definition.budget) && WorldAnswers(final, world);
      while |state.invocations| < |definition.agents|
        invariant Valid(seqOf) && Between(state) && Within(state)
        invariant previous == LastResult(state) && old(log) <= log && Done(reply)
        invariant old(reply).Some? ==> reply.Some?
        invariant transports - old(transports) == |state.invocations| - |old(state.invocations)| >= 0
        invariant quiet ==> AnsweredBy(final, state)
        decreases |definition.agents| - |state.invocations|
      {
        var proceed, ended, result := NextAgent(flow, previous, world, clock, seqOf, final);
        if !proceed { return Some(ended), previous; }
        previous := Some(result);
      }
      return None, previous;
    }

    /** `run`: create (the constructor), start, advance. */
    method Start(flow: FlowInput, world: (nat, Invocation) -> Reply, clock: nat -> Time, now: Time,
                 ghost seqOf: Id -> nat, ghost final: Final)
      returns (out: Outcome)
      requires Valid(seqOf) && state.status.Created? && flow == input
      requires forall n, inv :: world(n, inv).Returned? ==> ValidPayload(world(n, inv).result)
      modifies this
      ensures Valid(seqOf) && old(log) <= log
      ensures out.Finished? ==> state.status.Waiting? || IsTerminal(state.status)
      ensures out.Escaped? <==> Escapes(state, reply)
      ensures WaitsFor(world)
      ensures Unlimited(definition.budget) && WorldAnswers(final, world) ==>
                && AnsweredBy(final, state)
                && out.Finished? && (state.status.Waiting? || Concluded(definition, state))
    {
      BeginRun(seqOf, definition, input, state, now);
      reply := None;
      state := Lifecycle.Start(state, now).value;
      out := Advance(flow, None, world, clock, seqOf, final);
    }

    /** The check before a resume: it passes, or the run ends at the limit. */
    method StopResumeAtLimit(now: Time, ghost seqOf: Id -> nat) returns (stopped: bool, out: Outcome)
      requires Valid(seqOf)
      modifies this`state
      ensures Valid(seqOf)
      ensures stopped <==> BeforeTransport(old(state), now, false) != Some(None)
      ensures !stopped || out.Escaped? || old(IsTerminal(state.status)) ==> state == old(state)
      ensures !stopped ==> Below(state)
      ensures stopped && out.Finished? ==>
                IsTerminal(state.status) && (state == old(state) || state.status.LimitReached?)
      ensures stopped ==> (out.Escaped? <==> !Consumable(old(state)))
      ensures stopped && Unlimited(definition.budget) ==> out.Escaped?
    {
      if Unlimited(definition.budget) { UnlimitedIsWithin(seqOf, state); }
      BeforeTransportMeaning(state, now, false);
      var checked := BeforeTransport(state, now, false);
      if checked.None? { return true, Escaped; }
      var violation := checked.value;
      if violation.None? { return false, Finished; }
      if !IsTerminal(state.status) { End(ByLimit, LimitMessage(violation.value.kind), now, seqOf); }
      return true, Finished;
    }

    /** `resume` and `confirm`: claim the waiting invocation, call the resume transport, go on. */
    method ResumeWaiting(world: (nat, Invocation) -> Reply, clock: nat -> Time, now: Time,
                         ghost seqOf: Id -> nat, ghost final: Final)
      returns (out: Outcome)
      requires Valid(seqOf)
      requires forall n, inv :: world(n, inv).Returned? ==> ValidPayload(world(n, inv).result)
      modifies this
      ensures Valid(seqOf) && old(log) <= log
      ensures old(IsTerminal(state.status)) ==> state == old(state) && log == old(log)
      ensures old(BeforeTransport(state, now, false)) != Some(None) ==>
                log == old(log) && (state == old(state) || state.status.LimitReached?)
      ensures out.Finished? ==> state.status.Waiting? || IsTerminal(state.status)
      ensures reply.Some? <==> old(state.status.Waiting? && BeforeTransport(state, now, false) == Some(None))
      ensures reply.Some? ==> (out.Escaped? <==> Escapes(state, reply)) && transports > old(transports)
      ensures reply.Some? ==> WaitsFor(world)
      ensures reply.None? ==>
                (out.Escaped? <==> old(!Consumable(state) || BeforeTransport(state, now, false) == Some(None)))
      ensures old(AnsweredBy(final, state)) && old(state.status.Waiting?)
              && Unlimited(definition.budget) && WorldAnswers(final, world) ==>
                && reply.Some?
                && AnsweredBy(final, state)
                && out.Finished? && (state.status.Waiting? || Concluded(definition, state))
    {
      reply := None;
      QuietPasses(seqOf, final, state, now);
      var stopped;
      stopped, out := StopResumeAtLimit(now, seqOf);
      if !stopped { out := ResumeIfWaiting(world, clock, now, seqOf, final); }
    }

    /** What follows when no limit is reached. */
    method ResumeIfWaiting(world: (nat, Invocation) -> Reply, clock: nat -> Time, now: Time,
                           ghost seqOf: Id -> nat, ghost final: Final)
      returns (out: Outcome)
      requires Valid(seqOf) && Below(state) && reply.None?
      requires forall n, inv :: world(n, inv).Returned? ==> ValidPayload(world(n, inv).result)
      modifies this
      ensures Valid(seqOf) && old(log) <= log
      ensures reply.Some? <==> old(state.status.Waiting?)
      ensures reply.None? ==> out.Escaped? && state == old(state) && log == old(log)
      ensures reply.Some? ==> (out.Escaped? <==> Escapes(state, reply)) && transports > old(transports)
      ensures reply.Some? && out.Finished? ==> state.status.Waiting? || IsTerminal(state.status)
      ensures reply.Some? ==> WaitsFor(world)
      ensures reply.Some? && old(AnsweredBy(final, state)) && Unlimited(definition.budget)
              && WorldAnswers(final, world) ==>
                && AnsweredBy(final, state)
                && out.Finished? && (state.status.Waiting? || Concluded(definition, state))
    {
      WaitingCanResume(seqOf, state, now);
      if state.active.None? { return Escaped; }
      var waiting := state.invocations[|state.invocations| - 1];
      if ResumeInvocation(state, waiting.id, now).Err? { return Escaped; }
      out := ContinueWaiting(waiting, world, clock, now, seqOf, final);
    }

    /** From the claim of the waiting invocation to the end of the call. */
    method ContinueWaiting(waiting: Invocation, world: (nat, Invocation) -> Reply, clock: nat -> Time, now: Time,
                           ghost seqOf: Id -> nat, ghost final: Final)
      returns (out: Outcome)
      requires Valid(seqOf) && Below(state) && ResumeInvocation(state, waiting.id, now).Ok?
      requires state.invocations != [] && waiting == state.invocations[|state.invocations| - 1]
      requires forall n, inv :: world(n, inv).Returned? ==> ValidPayload(world(n, inv).result)
      modifies this
      ensures Valid(seqOf) && old(log) <= log && reply.Some? && transports > old(transports)
      ensures out.Finished? ==> state.status.Waiting? || IsTerminal(state.status)
      ensures out.Escaped? <==> Escapes(state, reply)
      ensures WaitsFor(world)
      ensures old(AnsweredBy(final, state)) && Unlimited(definition.budget) && WorldAnswers(final, world) ==>
                && AnsweredBy(final, state)
                && out.Finished? && (state.status.Waiting? || Concluded(definition, state))
    {
      assert Link(definition, input, state.invocations, |state.invocations| - 1);
      var proceed, ended, result := CallResume(waiting.id, world, clock, now, seqOf, final);
      if !proceed { return ended; }
      out := Advance(FlowInput(waiting.input.prompt, waiting.input.attachments), Some(result), world, clock,
                     seqOf, final);
    }

    /** Commits the claim of the waiting invocation, calls the resume transport and settles it. */
    method CallResume(id: Id, world: (nat, Invocation) -> Reply, clock: nat -> Time, now: Time,
                      ghost seqOf: Id -> nat, ghost final: Final)
      returns (proceed: bool, out: Outcome, result: AgentResult)
      requires Valid(seqOf) && Below(state) && ResumeInvocation(state, id, now).Ok?
      requires forall n, inv :: world(n, inv).Returned? ==> ValidPayload(world(n, inv).result)
      modifies this
      ensures Valid(seqOf) && old(log) <= log && transports == old(transports) + 1
      ensures proceed ==> Between(state) && Within(state) && LastResult(state) == Some(result) && Done(reply)
      ensures !proceed && out.Finished? ==> state.status.Waiting? || IsErrorStatus(state.status)
      ensures !proceed ==> (out.Escaped? <==> Escapes(state, reply))
      ensures reply.Some? && WaitsFor(world)
      ensures old(AnsweredBy(final, state)) && Unlimited(definition.budget) && WorldAnswers(final, world) ==>
                && AnsweredBy(final, state)
                && (proceed || (out.Finished? && (state.status.Waiting? || Concluded(definition, state))))
    {
      ResumeTransport(seqOf, definition, input, state, id, now, final);
      state := ResumeInvocation(state, id, now).value;
      proceed, out, result := Transport("resume", world, clock, seqOf, final);
    }

    /** A whole run: started, and resumed as long as it waits. With agents that answer, that is not
        for ever, and it ends as their answers call for. */
    method RunToEnd(flow: FlowInput, world: (nat, Invocation) -> Reply, clock: nat -> Time,
                    ghost seqOf: Id -> nat, ghost final: Final, ghost patience: nat)
      requires Valid(seqOf) && state.status.Created? && flow == input && Unlimited(definition.budget)
      requires WorldAnswers(final, world)
      requires forall n, inv :: world(n, inv).Returned? ==> ValidPayload(world(n, inv).result)
      requires forall n :: n >= patience ==> !MayWait(world, n)
      modifies this
      ensures Valid(seqOf) && AnsweredBy(final, state) && Concluded(definition, state)
    {
      var out := Start(flow, world, clock, clock(0), seqOf, final);
      while state.status.Waiting?
        invariant Valid(seqOf) && AnsweredBy(final, state)
        invariant WaitsFor(world) && (!state.status.Waiting? ==> Concluded(definition, state))
        decreases patience - transports
      {
        assert MayWait(world, transports - 1);
        out := ResumeWaiting(world, clock, clock(2 * transports), seqOf, final);
      }
    }
  }

  /** Suspend and resume do not show: one flow run twice, over agents that give the same final answers
      and wait whenever and as often as they like before, ends with the same agents in the same order,
      the same prompts, attachments, handoffs and answers, and the same status, output and error. */
  method RunsAgree(definition: FlowDefinition, input: FlowInput, ghost final: Final,
                   world: (nat, Invocation) -> Reply, clock: nat -> Time, ids: nat -> Id, runId: Id,
                   world': (nat, Invocation) -> Reply, clock': nat -> Time, ids': nat -> Id, runId': Id,
                   ghost seqOf: Id -> nat, ghost seqOf': Id -> nat, ghost patience: nat)
    returns (s: FlowState, t: FlowState)
    requires UniqueKeys(definition) && definition.agents != [] && Unlimited(definition.budget)
    requires (forall k: nat :: seqOf(ids(k)) == k) && (forall k: nat :: seqOf'(ids'(k)) == k)
    requires WorldAnswers(final, world) && WorldAnswers(final, world')
    requires forall n, inv :: world(n, inv).Returned? ==> ValidPayload(world(n, inv).result)
    requires forall n, inv :: world'(n, inv).Returned? ==> ValidPayload(world'(n, inv).result)
    requires forall n :: n >= patience ==> !MayWait(world, n) && !MayWait(world', n)
    ensures Concluded(definition, s) && Concluded(definition, t)
    ensures |s.invocations| == |t.invocations| <= |definition.agents|
    ensures forall k :: 0 <= k < |s.invocations| ==>
              && s.invocations[k].agentKey == t.invocations[k].agentKey == definition.agents[k].key
              && s.invocations[k].input == t.invocations[k].input
              && s.invocations[k].result.Some? && t.invocations[k].result.Some?
              && ContentOf(s.invocations[k].result.value) == ContentOf(t.invocations[k].result.value)
    ensures s.status == t.status && s.output == t.output && s.error == t.error
  {
    s := RunFlow(definition, input, final, world, clock, ids, runId, seqOf, patience);
    t := RunFlow(definition, input, final, world', clock', ids', runId', seqOf', patience);
    WaitingIsTransparent(seqOf, seqOf', definition, input, final, s, t);
  }

  method RunFlow(definition: FlowDefinition, input: FlowInput, ghost final: Final,
                 world: (nat, Invocation) -> Reply, clock: nat -> Time, ids: nat -> Id, runId: Id,
                 ghost seqOf: Id -> nat, ghost patience: nat)
    returns (s: FlowState)
    requires UniqueKeys(definition) && definition.agents != [] && Unlimited(definition.budget)
    requires forall k: nat :: seqOf(ids(k)) == k
    requires WorldAnswers(final, world)
    requires forall n, inv :: world(n, inv).Returned? ==> ValidPayload(world(n, inv).result)
    requires forall n :: n >= patience ==> !MayWait(world, n)
    ensures Inv(seqOf, s) && Chain(definition, input, s) && s.budget == definition.budget
    ensures AnsweredBy(final, s) && Concluded(definition, s)
  {
    var flow := new SequentialFlow(definition, input, ids, runId, clock(0), seqOf);
    flow.RunToEnd(input, world, clock, seqOf, final, patience);
    s := flow.state;
  }

  /** What `Valid` means for a reader: in every state between calls the invocations are a prefix of
      the declared agents and within both bounds, every transport started below every cumulative
      limit, and a completed run is within all of them. */
  lemma EveryStateIsWithinBudget(flow: SequentialFlow, seqOf: Id -> nat)
    requires flow.Valid(seqOf)
    ensures |flow.state.invocations| <= |flow.definition.agents|
    ensures |flow.state.invocations| <= flow.definition.budget.maxInvocations
    ensures forall k :: 0 <= k < |flow.state.invocations| ==>
              flow.state.invocations[k].agentKey == flow.definition.agents[k].key
    ensures forall i :: 0 <= i < |flow.log| ==> Below(flow.log[i])
    ensures flow.state.status.Completed? ==>
              Within(flow.state) && AllCompleted(flow.definition, flow.state)
    ensures flow.state.status.Completed? ==>
              var last := flow.state.invocations[|flow.state.invocations| - 1].result;
              last.Some? && flow.state.output == Some(if last.value.output.Some? then last.value.output.value else "")
  {
    forall k | 0 <= k < |flow.state.invocations|
      ensures flow.state.invocations[k].agentKey == flow.definition.agents[k].key
    {
      assert Link(flow.definition, flow.input, flow.state.invocations, k);
    }
  }

  /** And for what every agent was given in it. */
  lemma EveryAgentIsHandedTheEarlierResult(flow: SequentialFlow, seqOf: Id -> nat, k: nat)
    requires flow.Valid(seqOf) && k < |flow.state.invocations|
    ensures var given := flow.state.invocations[k].input;
            && given.prompt == flow.input.prompt && given.attachments == flow.input.attachments
            && (k == 0 ==> given.handoff.None?)
            && (k > 0 ==>
                  && given.handoff.Some? && flow.state.invocations[k - 1].result.Some?
                  && var r, h := flow.state.invocations[k - 1].result.value, given.handoff.value;
                     && h.sourceAgentKey == flow.definition.agents[k - 1].key
                     && h.data == r.metadata && h.artifacts == r.artifacts
                     && h.summary == if r.output.Some? && r.output.value != "" then r.output.value
                                     else "Agent completed without textual output.")
  {
    AgentsAreHandedTheEarlierResult(seqOf, flow.definition, flow.input, flow.state, k);
  }
}
