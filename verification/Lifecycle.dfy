/** The immutable Flow aggregate: `FlowRunState`, `AgentInvocation` and their transitions.

    Transitions are built with `model_copy`, which never re-runs the pydantic validators, so the
    validators appear here as predicates that the transitions have to be shown to keep. */
module Lifecycle {
  import opened Common

  datatype RunStatus =
    | Created | Running | Waiting
    | Completed | Failed | Cancelled | Interrupted | LimitReached

  datatype ResultStatus =
    | ResCompleted | ResFailed | ResCancelled | ResInterrupted | ResLimitReached | ResWaiting

  function ToRunStatus(status: ResultStatus): RunStatus {
    match status
    case ResCompleted => Completed
    case ResFailed => Failed
    case ResCancelled => Cancelled
    case ResInterrupted => Interrupted
    case ResLimitReached => LimitReached
    case ResWaiting => Waiting
  }

  predicate IsTerminal(status: RunStatus) {
    status in {Completed, Failed, Cancelled, Interrupted, LimitReached}
  }

  predicate IsErrorStatus(status: RunStatus) {
    IsTerminal(status) && status != Completed
  }

  /** The four ways a Flow Run is ended with an error. */
  datatype Termination = ByFailure | ByCancel | ByInterrupt | ByLimit {
    function RunStatus(): RunStatus {
      match this
      case ByFailure => Failed
      case ByCancel => Cancelled
      case ByInterrupt => Interrupted
      case ByLimit => LimitReached
    }

    function ResultStatus(): ResultStatus {
      match this
      case ByFailure => ResFailed
      case ByCancel => ResCancelled
      case ByInterrupt => ResInterrupted
      case ByLimit => ResLimitReached
    }
  }

  datatype Usage = Usage(input: nat, output: nat) {
    function Plus(other: Usage): Usage {
      Usage(input + other.input, output + other.output)
    }
    function Total(): nat { input + output }
  }

  const NO_USAGE := Usage(0, 0)

  /** A metadata value: an integer that counts, or anything else. */
  datatype Json = JsonInt(n: int) | JsonOther(text: string)

  datatype AgentResult = AgentResult(
    flowRunId: Id,
    invocationId: Id,
    agentKey: string,
    status: ResultStatus,
    output: Option<string>,
    usage: Usage,
    artifacts: seq<Id>,
    pendingInput: Option<string>,
    error: Option<string>,
    metadata: map<string, Json>)

  /** `AgentInvocationResult.validate_status_payload` */
  ghost predicate ValidPayload(r: AgentResult) {
    && Distinct(r.artifacts)
    && (r.status.ResWaiting? <==> r.pendingInput.Some?)
    && (r.status !in {ResCompleted, ResWaiting} ==> r.error.Some? && r.error.value != "")
    && (r.status.ResCompleted? ==> r.error.None?)
  }

  /** Identity of a definition: id, version and fingerprint. */
  datatype DefinitionRef = DefinitionRef(id: string, version: string, fingerprint: string)

  datatype FlowAgent = FlowAgent(key: string, definition: DefinitionRef)

  datatype FlowBudget = FlowBudget(
    maxInvocations: nat,
    maxInputTokens: Option<nat>,
    maxOutputTokens: Option<nat>,
    maxTotalTokens: Option<nat>,
    maxModelCalls: Option<nat>,
    maxToolCalls: Option<nat>,
    timeout: Option<nat>)

  datatype FlowDefinition = FlowDefinition(
    ref: DefinitionRef, agents: seq<FlowAgent>, budget: FlowBudget)

  datatype Handoff = Handoff(
    sourceAgentKey: string, summary: string, data: map<string, Json>, artifacts: seq<Id>)

  datatype InvocationInput = InvocationInput(
    prompt: string, handoff: Option<Handoff>, attachments: seq<Id>)

  datatype Request = Request(
    flowRunId: Id, invocationId: Id, sequence: nat, agentKey: string,
    definition: DefinitionRef, input: InvocationInput)

  datatype Invocation = Invocation(
    id: Id,
    flowRunId: Id,
    sequence: nat,
    agentKey: string,
    definition: DefinitionRef,
    input: InvocationInput,
    status: RunStatus,
    result: Option<AgentResult>,
    createdAt: Time,
    updatedAt: Time)

  datatype FlowState = FlowState(
    runId: Id,
    definition: DefinitionRef,
    budget: FlowBudget,
    deadlineAt: Option<Time>,
    revision: nat,
    status: RunStatus,
    invocations: seq<Invocation>,
    active: Option<Id>,
    output: Option<string>,
    error: Option<string>,
    createdAt: Time,
    updatedAt: Time)

  datatype FlowError = InvalidTransition | InvalidValue | UnknownAgent

  // ---------------------------------------------------------------- AgentInvocation

  predicate ResultMatches(inv: Invocation, r: AgentResult) {
    r.flowRunId == inv.flowRunId && r.invocationId == inv.id && r.agentKey == inv.agentKey
  }

  /** `AgentInvocation.validate_result` */
  predicate ValidateResult(inv: Invocation) {
    match inv.status
    case Created => inv.result.None?
    case Running =>
      inv.result.Some? ==> inv.result.value.status.ResWaiting? && ResultMatches(inv, inv.result.value)
    case _ =>
      && inv.result.Some?
      && ResultMatches(inv, inv.result.value)
      && inv.status == ToRunStatus(inv.result.value.status)
  }

  function InvocationUsage(inv: Invocation): Usage {
    if inv.result.Some? then inv.result.value.usage else NO_USAGE
  }

  function SettleOne(inv: Invocation, r: AgentResult, now: Time): Result<Invocation, FlowError> {
    if inv.status !in {Running, Waiting} then Err(InvalidTransition)
    else if !ResultMatches(inv, r) then Err(InvalidValue)
    else Ok(inv.(status := ToRunStatus(r.status), result := Some(r), updatedAt := now))
  }

  function ResumeOne(inv: Invocation, now: Time): Result<Invocation, FlowError> {
    if inv.status != Waiting then Err(InvalidTransition)
    else Ok(inv.(status := Running, updatedAt := now))
  }

  /** Termination keeps usage and artifacts of the last result; output and metadata are lost. */
  function TerminateOne(inv: Invocation, how: Termination, error: string, now: Time)
    : Result<Invocation, FlowError>
  {
    if IsBlank(error) then Err(InvalidValue)
    else if inv.status !in {Created, Running, Waiting} then Err(InvalidTransition)
    else
      var r := AgentResult(
        inv.flowRunId, inv.id, inv.agentKey, how.ResultStatus(), None, InvocationUsage(inv),
        if inv.result.Some? then inv.result.value.artifacts else [], None, Some(error), map[]);
      Ok(inv.(status := how.RunStatus(), result := Some(r), updatedAt := now))
  }

  // ---------------------------------------------------------------- FlowRunState

  function Find(invs: seq<Invocation>, id: Id): Option<Invocation> {
    if invs == [] then None
    else if invs[0].id == id then Some(invs[0])
    else Find(invs[1..], id)
  }

  function Active(s: FlowState): Option<Invocation> {
    if s.active.None? then None else Find(s.invocations, s.active.value)
  }

  function Replace(invs: seq<Invocation>, x: Invocation): seq<Invocation> {
    seq(|invs|, i requires 0 <= i < |invs| => if invs[i].id == x.id then x else invs[i])
  }

  ghost predicate UniqueIds(invs: seq<Invocation>) {
    forall i, j :: 0 <= i < j < |invs| ==> invs[i].id != invs[j].id
  }

  /** `FlowRunState.validate_state` */
  ghost predicate ValidateState(s: FlowState) {
    && UniqueIds(s.invocations)
    && (forall i :: 0 <= i < |s.invocations| ==> s.invocations[i].sequence == i + 1)
    && |s.invocations| <= s.budget.maxInvocations
    && (s.budget.timeout.None? <==> s.deadlineAt.None?)
    && (forall i :: 0 <= i < |s.invocations| ==> s.invocations[i].flowRunId == s.runId)
    && (s.active.Some? ==> Active(s).Some?)
    && (s.status.Created? ==> s.invocations == [])
    && (s.status.Waiting? ==> Active(s).Some? && Active(s).value.status.Waiting?)
    && (s.status.Running? && Active(s).Some? ==> Active(s).value.status.Running?)
    && (IsTerminal(s.status) ==> Active(s).None?)
    && (s.status.Completed? ==> s.output.Some? && s.error.None?)
    && (IsErrorStatus(s.status) ==> s.error.Some? && s.error.value != "")
  }

  function SumUsage(invs: seq<Invocation>): Usage {
    if invs == [] then NO_USAGE
    else SumUsage(invs[..|invs| - 1]).Plus(InvocationUsage(invs[|invs| - 1]))
  }

  /** `_result_count` */
  function ResultCount(r: Option<AgentResult>, key: string): int {
    if r.Some? && key in r.value.metadata && r.value.metadata[key].JsonInt?
    then r.value.metadata[key].n else 0
  }

  function SumCount(invs: seq<Invocation>, key: string): int {
    if invs == [] then 0
    else SumCount(invs[..|invs| - 1], key) + ResultCount(invs[|invs| - 1].result, key)
  }

  function Create(definition: FlowDefinition, runId: Id, now: Time): FlowState {
    FlowState(
      runId, definition.ref, definition.budget,
      if definition.budget.timeout.Some? then Some(now + definition.budget.timeout.value) else None,
      1, Created, [], None, None, None, now, now)
  }

  function Evolve(s: FlowState, now: Time): FlowState {
    s.(revision := s.revision + 1, updatedAt := now)
  }

  function Start(s: FlowState, now: Time): Result<FlowState, FlowError> {
    if s.status != Created then Err(InvalidTransition)
    else Ok(Evolve(s, now).(status := Running))
  }

  /** `FlowDefinition.agent` */
  function AgentDefinition(agents: seq<FlowAgent>, key: string): Option<DefinitionRef> {
    if agents == [] then None
    else if agents[0].key == key then Some(agents[0].definition)
    else AgentDefinition(agents[1..], key)
  }

  function NewInvocation(s: FlowState, req: Request, now: Time): Invocation {
    Invocation(req.invocationId, s.runId, req.sequence, req.agentKey, req.definition, req.input,
               Running, None, now, now)
  }

  function BeginInvocation(s: FlowState, req: Request, definition: FlowDefinition, now: Time)
    : Result<FlowState, FlowError>
  {
    if s.status != Running then Err(InvalidTransition)
    else if s.active.Some? then Err(InvalidTransition)
    else if definition.ref != s.definition then Err(InvalidValue)
    else if req.flowRunId != s.runId then Err(InvalidValue)
    else if req.sequence != |s.invocations| + 1 then Err(InvalidValue)
    else if |s.invocations| + 1 > s.budget.maxInvocations then Err(InvalidTransition)
    else
      var agent := AgentDefinition(definition.agents, req.agentKey);
      if agent.None? then Err(UnknownAgent)
      else if agent.value != req.definition then Err(InvalidValue)
      else Ok(Evolve(s, now).(invocations := s.invocations + [NewInvocation(s, req, now)],
                              active := Some(req.invocationId)))
  }

  function SettleInvocation(s: FlowState, r: AgentResult, now: Time): Result<FlowState, FlowError> {
    if s.status !in {Running, Waiting} then Err(InvalidTransition)
    else if Active(s).None? then Err(InvalidTransition)
    else match SettleOne(Active(s).value, r, now)
      case Err(e) => Err(e)
      case Ok(settled) =>
        var waiting := settled.status == Waiting;
        Ok(Evolve(s, now).(status := if waiting then Waiting else Running,
                           invocations := Replace(s.invocations, settled),
                           active := if waiting then Some(settled.id) else None))
  }

  function ResumeInvocation(s: FlowState, id: Id, now: Time): Result<FlowState, FlowError> {
    if s.status != Waiting then Err(InvalidTransition)
    else if Active(s).None? then Err(InvalidTransition)
    else if Active(s).value.id != id then Err(InvalidValue)
    else match ResumeOne(Active(s).value, now)
      case Err(e) => Err(e)
      case Ok(resumed) =>
        Ok(Evolve(s, now).(status := Running, invocations := Replace(s.invocations, resumed)))
  }

  function Complete(s: FlowState, output: string, now: Time): Result<FlowState, FlowError> {
    if s.status != Running then Err(InvalidTransition)
    else if s.active.Some? then Err(InvalidTransition)
    else if s.invocations == [] then Err(InvalidTransition)
    else if exists i :: 0 <= i < |s.invocations| && s.invocations[i].status != Completed
      then Err(InvalidTransition)
    else Ok(Evolve(s, now).(status := Completed, output := Some(output), error := None))
  }

  function Terminate(s: FlowState, how: Termination, error: string, now: Time)
    : Result<FlowState, FlowError>
  {
    if IsTerminal(s.status) then Err(InvalidTransition)
    else if IsBlank(error) then Err(InvalidValue)
    else if Active(s).None? then
      Ok(Evolve(s, now).(status := how.RunStatus(), active := None, error := Some(error)))
    else match TerminateOne(Active(s).value, how, error, now)
      case Err(e) => Err(e)
      case Ok(ended) =>
        Ok(Evolve(s, now).(status := how.RunStatus(), invocations := Replace(s.invocations, ended),
                           active := None, error := Some(error)))
  }

  /** One call on the aggregate. */
  datatype Command =
    | CmdStart
    | CmdBegin(request: Request, definition: FlowDefinition)
    | CmdSettle(result: AgentResult)
    | CmdResume(invocationId: Id)
    | CmdComplete(output: string)
    | CmdTerminate(how: Termination, error: string)

  function Apply(c: Command, s: FlowState, now: Time): Result<FlowState, FlowError> {
    match c
    case CmdStart => Start(s, now)
    case CmdBegin(request, definition) => BeginInvocation(s, request, definition, now)
    case CmdSettle(result) => SettleInvocation(s, result, now)
    case CmdResume(id) => ResumeInvocation(s, id, now)
    case CmdComplete(output) => Complete(s, output, now)
    case CmdTerminate(how, error) => Terminate(s, how, error, now)
  }

  // ---------------------------------------------------------------- invariant

  /** What callers guarantee. Results have passed their own validator. An invocation id is a UUID
      made for one request, so it determines the sequence number that the request carries;
      resending the same request is allowed. */
  ghost predicate Authentic(seqOf: Id -> nat, c: Command) {
    && (c.CmdSettle? ==> ValidPayload(c.result))
    && (c.CmdBegin? ==> seqOf(c.request.invocationId) == c.request.sequence)
  }

  /** The validators, plus what they do not say: the active invocation is the last one and every
      other invocation has ended. */
  ghost predicate Inv(seqOf: Id -> nat, s: FlowState) {
    && ValidateState(s)
    && s.revision >= 1
    && (s.active.Some? ==>
          s.invocations != [] && s.invocations[|s.invocations| - 1].id == s.active.value)
    && (forall i :: 0 <= i < |s.invocations| ==> InvocationOk(seqOf, s, i))
  }

  ghost predicate InvocationOk(seqOf: Id -> nat, s: FlowState, i: nat)
    requires i < |s.invocations|
  {
    var inv := s.invocations[i];
    && seqOf(inv.id) == i + 1
    && ValidateResult(inv)
    && (inv.result.Some? ==> ValidPayload(inv.result.value))
    && (IsTerminal(inv.status) <==> Some(inv.id) != s.active)
  }

  lemma {:induction false} FindLast(invs: seq<Invocation>)
    requires invs != [] && UniqueIds(invs)
    ensures Find(invs, invs[|invs| - 1].id) == Some(invs[|invs| - 1])
  {
    if |invs| > 1 {
      FindLast(invs[1..]);
    }
  }

  /** Under the invariant, `active_invocation` is `invocations[-1]`. */
  lemma ActiveIsLast(seqOf: Id -> nat, s: FlowState)
    requires Inv(seqOf, s) && s.active.Some?
    ensures s.invocations != []
    ensures Active(s) == Some(s.invocations[|s.invocations| - 1])
  {
    FindLast(s.invocations);
  }

  /** Replacing the last invocation touches nothing else. */
  lemma ReplaceLast(invs: seq<Invocation>, x: Invocation)
    requires invs != [] && UniqueIds(invs) && x.id == invs[|invs| - 1].id
    ensures Replace(invs, x) == invs[..|invs| - 1] + [x]
  {}

  lemma BlankIsNotEmpty(error: string)
    requires !IsBlank(error)
    ensures error != ""
  {}

  /** The shape shared by settle, resume and terminate: the active invocation is replaced. */
  lemma ReplaceKeepsInvariant(seqOf: Id -> nat, s: FlowState, x: Invocation, s': FlowState)
    requires Inv(seqOf, s) && s.active.Some?
    requires x.id == s.active.value && s'.invocations == Replace(s.invocations, x)
    requires x.(status := Running, result := None, updatedAt := 0)
          == s.invocations[|s.invocations| - 1].(status := Running, result := None, updatedAt := 0)
    requires ValidateResult(x) && (x.result.Some? ==> ValidPayload(x.result.value))
    requires s'.active == (if IsTerminal(x.status) then None else Some(x.id))
    requires s'.revision >= 1 && s'.runId == s.runId && s'.budget == s.budget && s'.deadlineAt == s.deadlineAt
    requires s'.status == x.status || (s'.status.Running? && IsTerminal(x.status))
    requires s'.status.Completed? ==> s'.output.Some? && s'.error.None?
    requires IsErrorStatus(s'.status) ==> s'.error.Some? && s'.error.value != ""
    requires !s'.status.Created?
    ensures Inv(seqOf, s')
  {
    var n := |s.invocations|;
    ReplaceLast(s.invocations, x);
    assert forall i :: 0 <= i < n - 1 ==> s'.invocations[i] == s.invocations[i];
    assert UniqueIds(s'.invocations);
    FindLast(s'.invocations);
    forall i | 0 <= i < n ensures InvocationOk(seqOf, s', i) {
      assert InvocationOk(seqOf, s, i);
    }
  }

  lemma BeginKeepsInvariant(seqOf: Id -> nat, s: FlowState, req: Request, definition: FlowDefinition, now: Time)
    requires Inv(seqOf, s) && seqOf(req.invocationId) == req.sequence
    requires BeginInvocation(s, req, definition, now).Ok?
    ensures Inv(seqOf, BeginInvocation(s, req, definition, now).value)
  {
    var s' := BeginInvocation(s, req, definition, now).value;
    var n := |s.invocations|;
    forall i | 0 <= i < n ensures InvocationOk(seqOf, s', i) && s'.invocations[i].id != req.invocationId {
      assert InvocationOk(seqOf, s, i);
    }
    assert InvocationOk(seqOf, s', n);
    FindLast(s'.invocations);
  }

  lemma SettleKeepsInvariant(seqOf: Id -> nat, s: FlowState, r: AgentResult, now: Time)
    requires Inv(seqOf, s) && ValidPayload(r) && SettleInvocation(s, r, now).Ok?
    ensures Inv(seqOf, SettleInvocation(s, r, now).value)
  {
    ActiveIsLast(seqOf, s);
    assert InvocationOk(seqOf, s, |s.invocations| - 1);
    ReplaceKeepsInvariant(seqOf, s, SettleOne(Active(s).value, r, now).value,
                          SettleInvocation(s, r, now).value);
  }

  lemma ResumeKeepsInvariant(seqOf: Id -> nat, s: FlowState, id: Id, now: Time)
    requires Inv(seqOf, s) && ResumeInvocation(s, id, now).Ok?
    ensures Inv(seqOf, ResumeInvocation(s, id, now).value)
  {
    ActiveIsLast(seqOf, s);
    assert InvocationOk(seqOf, s, |s.invocations| - 1);
    ReplaceKeepsInvariant(seqOf, s, ResumeOne(Active(s).value, now).value,
                          ResumeInvocation(s, id, now).value);
  }

  /** Only ending fields change: the invocations of a run without an active one stay put. */
  lemma InactiveKeepsInvariant(seqOf: Id -> nat, s: FlowState, s': FlowState)
    requires Inv(seqOf, s) && s.active.None? && s'.active.None?
    requires s'.invocations == s.invocations && s'.revision >= 1
    requires s'.runId == s.runId && s'.budget == s.budget && s'.deadlineAt == s.deadlineAt
    requires s'.status.Completed? ==> s'.output.Some? && s'.error.None?
    requires IsErrorStatus(s'.status) ==> s'.error.Some? && s'.error.value != ""
    requires !s'.status.Created? && !s'.status.Waiting?
    ensures Inv(seqOf, s')
  {
    forall i | 0 <= i < |s'.invocations| ensures InvocationOk(seqOf, s', i) {
      assert InvocationOk(seqOf, s, i);
    }
  }

  lemma TerminateKeepsInvariant(seqOf: Id -> nat, s: FlowState, how: Termination, error: string, now: Time)
    requires Inv(seqOf, s) && Terminate(s, how, error, now).Ok?
    ensures Inv(seqOf, Terminate(s, how, error, now).value)
  {
    var s' := Terminate(s, how, error, now).value;
    BlankIsNotEmpty(error);
    if s.active.Some? {
      ActiveIsLast(seqOf, s);
      assert InvocationOk(seqOf, s, |s.invocations| - 1);
      ReplaceKeepsInvariant(seqOf, s, TerminateOne(Active(s).value, how, error, now).value, s');
    } else {
      InactiveKeepsInvariant(seqOf, s, s');
    }
  }

  /** Every transition keeps the validators that it skips. */
  lemma ApplyKeepsInvariant(seqOf: Id -> nat, c: Command, s: FlowState, now: Time)
    requires Inv(seqOf, s) && Authentic(seqOf, c)
    ensures Apply(c, s, now).Ok? ==> Inv(seqOf, Apply(c, s, now).value)
  {
    if Apply(c, s, now).Ok? {
      match c
      case CmdStart => InactiveKeepsInvariant(seqOf, s, Start(s, now).value);
      case CmdBegin(request, definition) => BeginKeepsInvariant(seqOf, s, request, definition, now);
      case CmdSettle(result) => SettleKeepsInvariant(seqOf, s, result, now);
      case CmdResume(id) => ResumeKeepsInvariant(seqOf, s, id, now);
      case CmdComplete(output) => InactiveKeepsInvariant(seqOf, s, Complete(s, output, now).value);
      case CmdTerminate(how, error) => TerminateKeepsInvariant(seqOf, s, how, error, now);
    }
  }

  /** What a legal successor may change: the revision rises by one, identity and past invocations
      stay, ended invocations are frozen, and a terminal run has no successor. */
  ghost predicate Succeeds(s: FlowState, s': FlowState) {
    var n := |s.invocations|;
    && !IsTerminal(s.status)
    && s'.revision == s.revision + 1
    && s'.runId == s.runId && s'.definition == s.definition && s'.budget == s.budget
    && s'.deadlineAt == s.deadlineAt && s'.createdAt == s.createdAt
    && n <= |s'.invocations| <= n + 1
    && (forall i :: 0 <= i < n ==> Continues(s.invocations[i], s'.invocations[i]))
  }

  ghost predicate Continues(a: Invocation, b: Invocation) {
    && b.(status := a.status, result := a.result, updatedAt := a.updatedAt) == a
    && (IsTerminal(a.status) ==> a == b)
  }

  lemma ApplySucceeds(seqOf: Id -> nat, c: Command, s: FlowState, now: Time)
    requires Inv(seqOf, s) && Apply(c, s, now).Ok?
    ensures Succeeds(s, Apply(c, s, now).value)
  {
    if s.active.Some? {
      ActiveIsLast(seqOf, s);
    }
    forall i | 0 <= i < |s.invocations|
      ensures Continues(s.invocations[i], Apply(c, s, now).value.invocations[i])
    {
      assert InvocationOk(seqOf, s, i);
    }
  }

  // ---------------------------------------------------------------- what each transition leads to

  /** A run is started once. */
  lemma StartLeadsTo(s: FlowState, now: Time)
    ensures var r := Start(s, now);
            && (r.Ok? <==> s.status.Created?)
            && (r.Ok? ==> r.value == s.(status := Running, revision := s.revision + 1, updatedAt := now))
  {}

  lemma {:induction false} AgentDefinitionIsFirst(agents: seq<FlowAgent>, key: string, definition: DefinitionRef)
    requires forall i, j :: 0 <= i < j < |agents| ==> agents[i].key != agents[j].key
    ensures AgentDefinition(agents, key) == Some(definition) <==> FlowAgent(key, definition) in agents
  {
    if agents != [] {
      AgentDefinitionIsFirst(agents[1..], key, definition);
      assert agents == [agents[0]] + agents[1..];
    }
  }

  /** The next agent begins exactly when the run is under way with nobody active, and the request is the next
      one of this run, within its limit, for an agent of its own definition. */
  lemma BeginLeadsTo(s: FlowState, req: Request, definition: FlowDefinition, now: Time)
    requires forall i, j :: 0 <= i < j < |definition.agents| ==> definition.agents[i].key != definition.agents[j].key
    ensures var r, n := BeginInvocation(s, req, definition, now), |s.invocations|;
            && (r.Ok? <==>
                  && s.status.Running? && s.active.None? && definition.ref == s.definition
                  && req.flowRunId == s.runId && req.sequence == n + 1 && n < s.budget.maxInvocations
                  && FlowAgent(req.agentKey, req.definition) in definition.agents)
            && (r.Ok? ==>
                  && r.value.status.Running? && r.value.active == Some(req.invocationId)
                  && r.value.invocations == s.invocations + [
                       Invocation(req.invocationId, s.runId, n + 1, req.agentKey, req.definition, req.input,
                                  Running, None, now, now)])
  {
    AgentDefinitionIsFirst(definition.agents, req.agentKey, req.definition);
  }

  /** A result is taken exactly from the active agent of this run, running or waiting; the run waits with it or
      goes on without it. */
  lemma SettleLeadsTo(seqOf: Id -> nat, s: FlowState, result: AgentResult, now: Time)
    requires Inv(seqOf, s)
    ensures var r, n := SettleInvocation(s, result, now), |s.invocations|;
            && (r.Ok? <==>
                  && s.active == Some(result.invocationId) && result.flowRunId == s.runId
                  && result.agentKey == s.invocations[n - 1].agentKey)
            && (r.Ok? ==>
                  && r.value.invocations == s.invocations[..n - 1] + [
                       s.invocations[n - 1].(status := ToRunStatus(result.status), result := Some(result),
                                             updatedAt := now)]
                  && r.value.status == (if result.status.ResWaiting? then Waiting else Running)
                  && r.value.active == (if result.status.ResWaiting? then s.active else None))
  {
    if s.active.Some? {
      ActiveIsLast(seqOf, s);
      assert InvocationOk(seqOf, s, |s.invocations| - 1);
      if SettleInvocation(s, result, now).Ok? {
        ReplaceLast(s.invocations, SettleOne(Active(s).value, result, now).value);
      }
    }
  }

  /** Exactly the invocation that a run waits for is resumed. */
  lemma ResumeLeadsTo(seqOf: Id -> nat, s: FlowState, id: Id, now: Time)
    requires Inv(seqOf, s)
    ensures var r, n := ResumeInvocation(s, id, now), |s.invocations|;
            && (r.Ok? <==> s.status.Waiting? && s.active == Some(id))
            && (r.Ok? ==>
                  && n > 0 && r.value.status.Running? && r.value.active == s.active
                  && r.value.invocations
                     == s.invocations[..n - 1] + [s.invocations[n - 1].(status := Running, updatedAt := now)])
  {
    if s.active.Some? {
      ActiveIsLast(seqOf, s);
      if ResumeInvocation(s, id, now).Ok? {
        ReplaceLast(s.invocations, ResumeOne(Active(s).value, now).value);
      }
    }
  }

  /** A run completes exactly when it has agents behind it, nobody active, and all of them completed. */
  lemma CompleteLeadsTo(seqOf: Id -> nat, s: FlowState, output: string, now: Time)
    requires Inv(seqOf, s)
    ensures var r := Complete(s, output, now);
            && (r.Ok? <==>
                  && s.status.Running? && s.active.None? && s.invocations != []
                  && forall i :: 0 <= i < |s.invocations| ==> s.invocations[i].status.Completed?)
            && (r.Ok? ==>
                  && r.value.status.Completed? && r.value.output == Some(output)
                  && r.value.invocations == s.invocations)
  {}

  /** Any run that has not ended can be ended, given a reason; its active agent ends in the same way with the
      same reason. */
  lemma TerminateLeadsTo(seqOf: Id -> nat, s: FlowState, how: Termination, error: string, now: Time)
    requires Inv(seqOf, s)
    ensures var r, n := Terminate(s, how, error, now), |s.invocations|;
            && (r.Ok? <==> !IsTerminal(s.status) && !IsBlank(error))
            && (r.Ok? ==>
                  && r.value.status == how.RunStatus() && r.value.error == Some(error) && r.value.active.None?
                  && (s.active.None? ==> r.value.invocations == s.invocations)
                  && (s.active.Some? ==>
                        && n > 0 && |r.value.invocations| == n
                        && r.value.invocations[..n - 1] == s.invocations[..n - 1]
                        && var last := r.value.invocations[n - 1];
                           && last.status == how.RunStatus() && last.result.Some?
                           && last.result.value.error == Some(error) && last.result.value.output.None?))
  {
    if s.active.Some? {
      ActiveIsLast(seqOf, s);
      assert InvocationOk(seqOf, s, |s.invocations| - 1);
      if Terminate(s, how, error, now).Ok? {
        ReplaceLast(s.invocations, TerminateOne(Active(s).value, how, error, now).value);
      }
    }
  }

  /** A new run satisfies the invariant. */
  lemma CreateIsValid(seqOf: Id -> nat, definition: FlowDefinition, runId: Id, now: Time)
    ensures Inv(seqOf, Create(definition, runId, now))
  {}

  lemma {:induction false} FindPrefix(invs: seq<Invocation>, x: Invocation, id: Id)
    ensures Find(invs + [x], id)
         == if Find(invs, id).Some? then Find(invs, id) else if x.id == id then Some(x) else None
  {
    if invs != [] {
      assert (invs + [x])[1..] == invs[1..] + [x];
      FindPrefix(invs[1..], x, id);
    }
  }

  lemma {:induction false} FindIsSound(invs: seq<Invocation>, id: Id)
    ensures Find(invs, id).Some? <==> exists i :: 0 <= i < |invs| && invs[i].id == id
    ensures Find(invs, id).Some? ==> Find(invs, id).value in invs
  {
    if invs != [] {
      FindIsSound(invs[1..], id);
      if invs[0].id != id {
        assert forall i :: 0 < i < |invs| ==> invs[i] == invs[1..][i - 1];
      }
    }
  }

  /** `begin_invocation` never looks at earlier invocation ids. An accepted begin leaves a valid
      state if and only if the id is new. */
  lemma BeginIsValidIffFresh(seqOf: Id -> nat, s: FlowState, req: Request, definition: FlowDefinition, now: Time)
    requires Inv(seqOf, s) && BeginInvocation(s, req, definition, now).Ok?
    ensures ValidateState(BeginInvocation(s, req, definition, now).value)
       <==> forall i :: 0 <= i < |s.invocations| ==> s.invocations[i].id != req.invocationId
  {
    var s' := BeginInvocation(s, req, definition, now).value;
    var n := |s.invocations|;
    if i :| 0 <= i < n && s.invocations[i].id == req.invocationId {
      assert s'.invocations[i].id == s'.invocations[n].id;
    } else {
      FindPrefix(s.invocations, NewInvocation(s, req, now), req.invocationId);
      FindIsSound(s.invocations, req.invocationId);
    }
  }

  /** A reused id: the second begin is accepted and the state it returns fails its validator. */
  lemma ReusedInvocationIdIsAccepted() returns (s: FlowState, req: Request, definition: FlowDefinition)
    ensures ValidateState(s)
    ensures BeginInvocation(s, req, definition, 0).Ok?
    ensures !ValidateState(BeginInvocation(s, req, definition, 0).value)
  {
    var ref := DefinitionRef("flow", "1", "f");
    var budget := FlowBudget(20, None, None, None, None, None, None);
    var input := InvocationInput("p", None, []);
    definition := FlowDefinition(ref, [FlowAgent("a", ref)], budget);
    var r := AgentResult(1, 7, "a", ResCompleted, None, NO_USAGE, [], None, None, map[]);
    var inv := Invocation(7, 1, 1, "a", ref, input, Completed, Some(r), 0, 0);
    s := FlowState(1, ref, budget, None, 4, Running, [inv], None, None, None, 0, 0);
    req := Request(1, 7, 2, "a", ref, input);
    var s' := BeginInvocation(s, req, definition, 0).value;
    assert s'.invocations[0].id == s'.invocations[1].id;
  }

  function Artifacts(inv: Invocation): seq<Id> {
    if inv.result.Some? then inv.result.value.artifacts else []
  }

  /** What ending a run does to its invocations: only the active one is replaced, by one with the same
      usage and artifacts and no counts. */
  lemma EndedInvocations(seqOf: Id -> nat, s: FlowState, how: Termination, error: string, now: Time)
    requires Inv(seqOf, s) && Terminate(s, how, error, now).Ok?
    ensures var invs, n := Terminate(s, how, error, now).value.invocations, |s.invocations|;
            if s.active.None? then Active(s).None? && invs == s.invocations
            else
              && n > 0 && |invs| == n && invs[..n - 1] == s.invocations[..n - 1]
              && Active(s) == Some(s.invocations[n - 1])
              && InvocationUsage(invs[n - 1]) == InvocationUsage(s.invocations[n - 1])
              && Artifacts(invs[n - 1]) == Artifacts(s.invocations[n - 1])
              && invs[n - 1].result.Some? && invs[n - 1].result.value.metadata == map[]
  {
    if s.active.Some? {
      ActiveIsLast(seqOf, s);
      ReplaceLast(s.invocations, TerminateOne(Active(s).value, how, error, now).value);
    }
  }

  /** Ending a run loses no reported tokens and no artifacts. */
  lemma TerminateKeepsUsage(seqOf: Id -> nat, s: FlowState, how: Termination, error: string, now: Time)
    requires Inv(seqOf, s) && Terminate(s, how, error, now).Ok?
    ensures var invs := Terminate(s, how, error, now).value.invocations;
            && SumUsage(invs) == SumUsage(s.invocations)
            && |invs| == |s.invocations|
            && (forall i :: 0 <= i < |invs| ==> Artifacts(invs[i]) == Artifacts(s.invocations[i]))
  {
    EndedInvocations(seqOf, s, how, error, now);
    SameButLast(s.invocations, Terminate(s, how, error, now).value.invocations);
  }

  lemma {:induction false} SameButLast(a: seq<Invocation>, b: seq<Invocation>)
    requires |a| == |b|
    requires a != [] ==>
      && a[..|a| - 1] == b[..|b| - 1] && InvocationUsage(a[|a| - 1]) == InvocationUsage(b[|b| - 1])
      && Artifacts(a[|a| - 1]) == Artifacts(b[|b| - 1])
    ensures SumUsage(a) == SumUsage(b)
    ensures forall i :: 0 <= i < |a| ==> Artifacts(a[i]) == Artifacts(b[i])
  {
    forall i | 0 <= i < |a| ensures Artifacts(a[i]) == Artifacts(b[i]) {
      if i < |a| - 1 { assert a[i] == a[..|a| - 1][i] == b[..|b| - 1][i] == b[i]; }
    }
  }

  /** Model and tool call counts live in the result's metadata, which is dropped: they survive exactly
      when the ended invocation had reported none. */
  lemma {:induction false} TerminateKeepsCountsIff(
    seqOf: Id -> nat, s: FlowState, how: Termination, error: string, now: Time, key: string)
    requires Inv(seqOf, s) && Terminate(s, how, error, now).Ok?
    ensures SumCount(Terminate(s, how, error, now).value.invocations, key) == SumCount(s.invocations, key)
       <==> (Active(s).Some? ==> ResultCount(Active(s).value.result, key) == 0)
  {
    EndedInvocations(seqOf, s, how, error, now);
    var invs, n := Terminate(s, how, error, now).value.invocations, |s.invocations|;
    if s.active.Some? {
      assert SumCount(invs, key) == SumCount(invs[..n - 1], key) + ResultCount(invs[n - 1].result, key);
    }
  }

  /** A waiting agent has reported three model calls; ending the run leaves none. */
  lemma TerminationLosesCounts() returns (s: FlowState)
    ensures Inv(id => if id == 7 then 1 else 0, s) && Terminate(s, ByCancel, "stop", 0).Ok?
    ensures SumCount(s.invocations, "model_calls") == 3
    ensures SumCount(Terminate(s, ByCancel, "stop", 0).value.invocations, "model_calls") == 0
  {
    var ref := DefinitionRef("flow", "1", "f");
    var budget := FlowBudget(20, None, None, None, None, None, None);
    var r := AgentResult(1, 7, "a", ResWaiting, None, NO_USAGE, [], Some("?"), None, map["model_calls" := JsonInt(3)]);
    var inv := Invocation(7, 1, 1, "a", ref, InvocationInput("p", None, []), Waiting, Some(r), 0, 0);
    s := FlowState(1, ref, budget, None, 4, Waiting, [inv], Some(7), None, None, 0, 0);
    assert InvocationOk(id => if id == 7 then 1 else 0, s, 0);
    assert Find(s.invocations, 7) == Some(inv);
    assert "stop"[0] == 's';
    var ended := TerminateOne(inv, ByCancel, "stop", 0).value;
    assert Replace(s.invocations, ended) == [ended];
    assert [inv][..0] == [] && [ended][..0] == [];
    assert SumCount([inv], "model_calls") == SumCount([], "model_calls") + 3;
    assert SumCount([ended], "model_calls") == SumCount([], "model_calls") + 0;
  }
}
