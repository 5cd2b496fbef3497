/** The model-tool strategy inside the run loop: tool batches that suspend and resume, with the
    default supervisor. */
module ToolLoop {
  import opened Common
  import opened Supervision

  datatype Message = Other(text: string) | ToolMessage(callId: string, result: ToolResult)

  type Observation = (ToolCall, ToolResult)

  datatype Batch = Batch(
    waiting: ToolCall, remaining: seq<ToolCall>, observations: seq<Observation>, response: seq<ToolCall>)

  datatype PendingInput = PendingInput(callId: string, request: Option<Id>)

  datatype Confirmation = Confirmation(request: Id, approve: bool)

  function Calls(observations: seq<Observation>): seq<ToolCall> {
    seq(|observations|, i requires 0 <= i < |observations| => observations[i].0)
  }

  /** The tool messages that an uninterrupted batch with these answers appends. */
  function MessagesOf(observations: seq<Observation>): seq<Message> {
    seq(|observations|, i requires 0 <= i < |observations| =>
      ToolMessage(observations[i].0.id, observations[i].1))
  }

  ghost predicate DistinctIds(calls: seq<ToolCall>) {
    forall i, j :: 0 <= i < j < |calls| ==> calls[i].id != calls[j].id
  }

  /** `_find_tool_result`: the latest message of this call. */
  function FindResult(messages: seq<Message>, callId: string): Option<ToolResult> {
    if messages == [] then None
    else
      var last := messages[|messages| - 1];
      if last.ToolMessage? && last.callId == callId then Some(last.result)
      else FindResult(messages[..|messages| - 1], callId)
  }

  /** What the supervisor tells the model when it denies a call, and when nothing but failures comes back. */
  const NEW_STRATEGY := Other("choose a new strategy")
  const NEW_APPROACH := Other("change the approach")

  /** A batch in progress: its calls, and where the counter and the messages stood. */
  datatype Progress = Progress(calls: seq<ToolCall>, count: nat, mark: nat)

  /** A batch that ran to its end: the calls of the model's response, what was observed, how far the
      tool counter moved and which messages were appended. */
  datatype Finished = Finished(
    response: seq<ToolCall>, observations: seq<Observation>, counted: int, appended: seq<Message>)

  /** The outcome of a batch that was never interrupted and got the same answers. */
  ghost predicate LikeUninterrupted(f: Finished) {
    && Calls(f.observations) == f.response
    && f.appended == MessagesOf(f.observations)
    && (DistinctIds(f.response) ==> f.counted == |f.response|)
  }

  /** The answers from `first` on are what the tools said when asked one after the other. */
  ghost predicate Heard(
    observations: seq<Observation>, first: nat, asked: nat, confirmed: Option<string>, world: World)
  {
    && first <= |observations|
    && forall k :: first <= k < |observations| ==>
         observations[k].1
           == world.tools(asked + k - first, observations[k].0, confirmed == Some(observations[k].0.id))
  }

  /** What resuming appends; an approved call is answered by its tool instead. */
  function Reply(callId: string, input: Option<string>, approved: bool): seq<Message> {
    if input.Some? then [ToolMessage(callId, Answer(true, input.value))]
    else if approved then []
    else [ToolMessage(callId, Answer(false, "tool_confirmation_rejected"))]
  }

  /** What becomes of a suspended batch when it is continued: an approved call runs with the rest, an
      answered one is done. */
  function ResumeEnd(l: Limits, k: Counters, b: Batch, approved: bool, world: World): BatchEnd {
    if approved then BatchEndOf(l, k, [b.waiting] + b.remaining, Some(b.waiting.id), world)
    else BatchEndOf(l, k, b.remaining, None, world)
  }

  /** The run loop from a moment at which the batch `b` is suspended. */
  function ResumeFate(l: Limits, steps: nat, k: Counters, b: Batch, approved: bool, world: World): Fate {
    var k1 := k.(checks := k.checks + 1);
    if world.cancelled(k.checks) then Fate(Cancelled, steps, k1, [])
    else if steps >= l.maxSteps then Fate(LimitReached, steps, k1, [])
    else FateAfter(l, steps, ResumeEnd(l, k1, b, approved, world), b.response, world)
  }

  function Responses(finished: seq<Finished>): seq<seq<ToolCall>> {
    seq(|finished|, i requires 0 <= i < |finished| => finished[i].response)
  }

  function After(done: seq<seq<ToolCall>>, f: Fate): Fate {
    f.(finished := done + f.finished)
  }

  class AgentRun {
    const limits: Limits
    var state: RunState
    var messages: seq<Message>
    var stepCount: nat
    var toolCallCount: nat
    var suspended: Option<Batch>
    var pending: Option<PendingInput>
    var decision: Option<Confirmation>
    // supervision data
    var fingerprint: Option<(string, string)>
    var duplicates: nat
    var failures: nat
    // how often tools and cancellation flag have been asked
    var executions: nat
    var checks: nat
    ghost var progress: Option<Progress>
    ghost var finished: seq<Finished>

    /** Limits hold in every state, and every finished batch is as if never interrupted. */
    ghost predicate Bounded()
      reads this
    {
      && stepCount <= limits.maxSteps && toolCallCount <= limits.maxToolCalls
      && (forall i :: 0 <= i < |finished| ==> LikeUninterrupted(finished[i]))
    }

    /** The batch accounts for the first calls by `observations`: same calls, their messages, and
        one count each, plus `extra` for a call that was counted and has no answer yet. */
    ghost predicate Accounts(observations: seq<Observation>, rest: seq<ToolCall>, extra: nat)
      reads this
    {
      && progress.Some? && progress.value.mark <= |messages|
      && Calls(observations) + rest == progress.value.calls
      && (DistinctIds(progress.value.calls) ==>
            toolCallCount == progress.value.count + |observations| + extra)
    }

    ghost predicate Tail(expected: seq<Message>)
      reads this
    {
      progress.Some? && progress.value.mark <= |messages| && messages[progress.value.mark..] == expected
    }

    predicate Approved()
      reads this
    {
      decision.Some? && decision.value.approve
    }

    /** A suspended batch can be continued. */
    ghost predicate Resumable()
      reads this
    {
      && (state.Waiting? ==> suspended.Some?)
      && (state.Created? ==> suspended.None?)
      && (suspended.None? ==> decision.None?)
      && (suspended.Some? && (state.Waiting? || state.Running?) ==>
        var b := suspended.value;
        && Accounts(b.observations, [b.waiting] + b.remaining, 1)
        && b.response == progress.value.calls
        && (state.Waiting? ==> pending.Some? && pending.value.callId == b.waiting.id && decision.None?)
        && (if state.Waiting? || Approved() then Tail(MessagesOf(b.observations))
            else exists r :: Tail(MessagesOf(b.observations) + [ToolMessage(b.waiting.id, r)])))
    }

    /** The end of a batch: recorded as finished, put aside, or given up. */
    ghost predicate Ended(end: BatchEnd, response: seq<ToolCall>, before: seq<Finished>)
      reads this
    {
      && Now() == end.counters
      && match end
         case Passed(_) =>
           && state.Running? && suspended.None? && |finished| == |before| + 1 && finished[..|before|] == before
           && finished[|before|].response == response
         case Suspended(waiting, remaining, wait, _) =>
           && suspended.Some? && suspended.value.waiting == waiting && suspended.value.remaining == remaining
           && suspended.value.response == response && finished == before
           && state == (if BadPrompt(wait) then Failed else Waiting)
           && (state.Waiting? ==> wait.Wait? && pending == Some(PendingInput(waiting.id, wait.request)))
         case Stopped(st, _) =>
           state == st && st in {Running, Cancelled, LimitReached} && suspended.None? && finished == before
    }

    /** Why a run is where it is: every way of leaving `Running` has its cause in the world or in the
        limits. */
    ghost predicate Reason(world: World)
      reads this
    {
      match state
      case Created => true
      case Running => true
      case Waiting => suspended.Some?
      case Completed => world.model(stepCount) == Some([])
      case Failed => world.model(stepCount).None? || (suspended.Some? && !GoodPrompts(world))
      case Cancelled => checks > 0 && world.cancelled(checks - 1)
      case LimitReached => stepCount >= limits.maxSteps || toolCallCount >= limits.maxToolCalls
    }

    function Now(): Counters
      reads this
    {
      Counters(toolCallCount, fingerprint, duplicates, failures, executions, checks)
    }

    ghost predicate Valid()
      reads this
    {
      Bounded() && Resumable()
    }

    constructor (limits: Limits, initial: seq<Message>)
      ensures Valid() && state == Created && stepCount == 0 && finished == [] && suspended.None?
      ensures this.limits == limits && Now() == Counters(0, None, 0, 0, 0, 0)
    {
      this.limits := limits;
      state, messages, stepCount, toolCallCount := Created, initial, 0, 0;
      suspended, pending, decision := None, None, None;
      fingerprint, duplicates, failures := None, 0, 0;
      executions, checks := 0, 0;
      progress, finished := None, [];
    }

    /** `ExecutionBudget` first, then `DuplicateToolCallDetector`. */
    method BeforeTool(call: ToolCall) returns (d: Decision)
      modifies this`fingerprint, this`duplicates
      ensures d.Stop? <==> toolCallCount >= limits.maxToolCalls
      ensures d.Stop? ==> Now() == old(Now())
      ensures !d.Stop? ==>
                && Now() == old(Now()).(fingerprint := Some(Fingerprint(call)), duplicates := old(Repeats(Now(), call)))
                && (d.Redirect? <==> old(Repeats(Now(), call)) >= limits.duplicateThreshold)
    {
      if toolCallCount >= limits.maxToolCalls { return Stop; }
      duplicates := if fingerprint == Some((call.name, call.arguments)) then duplicates + 1 else 1;
      fingerprint := Some((call.name, call.arguments));
      d := if duplicates >= limits.duplicateThreshold then Redirect else Continue;
    }

    /** `NoProgressDetector` */
    method AfterTool(result: ToolResult) returns (d: Decision)
      modifies this`failures
      ensures failures == FailuresAfter(old(failures), result)
      ensures d == if Succeeded(result) || failures < limits.maxFailures then Continue else Redirect
    {
      if result.Answer? && result.success { failures := 0; return Continue; }
      failures := failures + 1;
      d := if failures >= limits.maxFailures then Redirect else Continue;
    }

    method CancelIfRequested(world: World) returns (cancelled: bool)
      requires state.Running?
      modifies this`state, this`checks
      ensures cancelled == world.cancelled(old(checks)) && checks == old(checks) + 1
      ensures state == if cancelled then Cancelled else old(state)
    {
      cancelled := world.cancelled(checks);
      checks := checks + 1;
      if cancelled { state := Cancelled; }
    }

    /** What comes before a call is executed: cancellation, supervision and counting. A call whose
        confirmation was just given has been counted already. `go` says that it may run. */
    method Admit(call: ToolCall, given: bool, world: World) returns (go: bool)
      requires Bounded() && state.Running?
      modifies this`state, this`checks, this`fingerprint, this`duplicates, this`toolCallCount, this`messages
      ensures Bounded() && old(messages) <= messages && Reason(world)
      ensures go <==> Admitted(limits, old(Now()), call, given, world)
      ensures go ==>
                state.Running? && messages == old(messages) && Now() == AfterAdmission(old(Now()), call, given)
      ensures state == if world.cancelled(old(checks)) then Cancelled
                       else if !given && old(toolCallCount) >= limits.maxToolCalls then LimitReached else Running
      ensures Now() == if state.Running? then AfterAdmission(old(Now()), call, given)
                       else old(Now()).(checks := old(checks) + 1)
      ensures !go && state.Running? ==>
                messages == old(messages)
                            + [ToolMessage(call.id, Answer(false, "supervisor_intervention")), NEW_STRATEGY]
      ensures state in {Cancelled, LimitReached} ==> messages == old(messages)
    {
      var cancelled := CancelIfRequested(world);
      if cancelled { return false; }
      if given { return true; }
      var d := BeforeTool(call);
      if d.Stop? { state := LimitReached; return false; }
      toolCallCount := toolCallCount + 1;
      if d.Continue? { return true; }
      messages := messages
        + [ToolMessage(call.id, Answer(false, "supervisor_intervention")), NEW_STRATEGY];
      return false;
    }

    /** Suspends at a waiting call: the rest of the batch is put aside. */
    method Suspend(b: Batch, prompt: Option<string>, request: Option<Id>)
      requires Bounded() && state.Running? && decision.None?
      requires Accounts(b.observations, [b.waiting] + b.remaining, 1) && Tail(MessagesOf(b.observations))
      requires b.response == progress.value.calls
      modifies this`suspended, this`state, this`pending
      ensures Valid() && suspended == Some(b)
      ensures state == if prompt.None? || IsBlank(prompt.value) then Failed else Waiting
      ensures state.Waiting? ==> pending == Some(PendingInput(b.waiting.id, request))
    {
      suspended := Some(b);
      if prompt.None? || IsBlank(prompt.value) { state := Failed; return; }
      pending := Some(PendingInput(b.waiting.id, request));
      state := Waiting;
    }

    /** What follows an answer: it is recorded, reported to the supervisor, and a cancellation is
        honoured. `go` says that the batch goes on. */
    method Record(call: ToolCall, result: ToolResult, world: World) returns (go: bool)
      requires Bounded() && state.Running?
      modifies this`messages, this`failures, this`state, this`checks
      ensures Bounded() && state in {Running, Cancelled} && old(messages) <= messages && Reason(world)
      ensures go <==> MayGoOn(limits, old(Now()), result, world)
      ensures go ==> state.Running? && messages == old(messages) + [ToolMessage(call.id, result)]
      ensures !go && state.Running? ==> messages == old(messages) + [ToolMessage(call.id, result), NEW_APPROACH]
      ensures result.Answer? ==>
                match EndOfAnswer(limits, old(Now()), result, world)
                case Answered(_, k) => go && Now() == k
                case Asking(_, _) => false
                case Halted(st, k) => !go && state == st && Now() == k
    {
      messages := messages + [ToolMessage(call.id, result)];
      var d := AfterTool(result);
      if d.Redirect? {
        messages := messages + [NEW_APPROACH];
        return false;
      }
      var cancelled := CancelIfRequested(world);
      return !cancelled;
    }

    /** A batch is under way: `collected` has been observed, `rest` is to come, `extra` calls are counted
        without an answer. */
    ghost predicate Underway(collected: seq<Observation>, rest: seq<ToolCall>, extra: nat, response: seq<ToolCall>)
      reads this
    {
      && Bounded() && state.Running? && suspended.None? && decision.None?
      && Accounts(collected, rest, extra) && Tail(MessagesOf(collected)) && response == progress.value.calls
    }

    /** The batch will not be finished. */
    ghost method GiveUp()
      requires Bounded() && suspended.None? && decision.None? && state in {Running, Cancelled, LimitReached}
      modifies this`progress
      ensures Valid()
    {
      progress := None;
    }

    /** What a call leaves behind, when nothing but it has happened. */
    ghost predicate CallDone(end: CallEnd, result: Option<ToolResult>, call: ToolCall, rest: seq<ToolCall>,
                             collected: seq<Observation>, response: seq<ToolCall>)
      reads this
    {
      match end
      case Answered(answer, k) =>
        result == Some(answer) && Now() == k && Underway(collected + [(call, answer)], rest, 0, response)
      case Asking(wait, k) => result.None? && Valid() && Ended(Suspended(call, rest, wait, k), response, finished)
      case Halted(st, k) => result.None? && Valid() && Ended(Stopped(st, k), response, finished)
    }

    /** An admitted call is executed, and its answer recorded. */
    method Perform(call: ToolCall, given: bool, rest: seq<ToolCall>, collected: seq<Observation>,
                   response: seq<ToolCall>, world: World) returns (result: Option<ToolResult>)
      requires Underway(collected, [call] + rest, 1, response)
      modifies this
      ensures stepCount == old(stepCount) && finished == old(finished) && old(messages) <= messages
      ensures result.Some? ==> progress == old(progress) && result.value == world.tools(old(executions), call, given)
      ensures CallDone(EndOfAnswer(limits, old(Now()).(executions := old(executions) + 1),
                                   world.tools(old(executions), call, given), world),
                       result, call, rest, collected, response)
      ensures Reason(world)
    {
      var answer := world.tools(executions, call, given);
      executions := executions + 1;
      if answer.Wait? {
        Suspend(Batch(call, rest, collected, response), answer.prompt, answer.request);
        return None;
      }
      Observe(collected, call, answer);
      assert Calls(collected) + ([call] + rest) == Calls(collected + [(call, answer)]) + rest;
      var go := Record(call, answer, world);
      if !go { GiveUp(); return None; }
      result := Some(answer);
    }

    /** One call of a batch, with `rest` still to come: answered, or the batch stops here. */
    method RunCall(call: ToolCall, given: bool, rest: seq<ToolCall>, collected: seq<Observation>,
                   response: seq<ToolCall>, world: World) returns (result: Option<ToolResult>)
      requires Underway(collected, [call] + rest, if given then 1 else 0, response)
      modifies this
      ensures stepCount == old(stepCount) && finished == old(finished) && old(messages) <= messages
      ensures result.Some? ==> progress == old(progress) && result.value == world.tools(old(executions), call, given)
      ensures CallDone(CallEndOf(limits, old(Now()), call, given, world), result, call, rest, collected, response)
      ensures Reason(world)
    {
      var go := AdmitInBatch(call, given, rest, collected, response, world);
      if !go { return None; }
      result := Perform(call, given, rest, collected, response, world);
    }

    /** The admission of a call, seen from its batch. */
    method AdmitInBatch(call: ToolCall, given: bool, ghost rest: seq<ToolCall>, ghost collected: seq<Observation>,
                        ghost response: seq<ToolCall>, world: World) returns (go: bool)
      requires Underway(collected, [call] + rest, if given then 1 else 0, response)
      modifies this`state, this`checks, this`fingerprint, this`duplicates, this`toolCallCount, this`messages,
               this`progress
      ensures old(messages) <= messages && Reason(world)
      ensures go <==> Admitted(limits, old(Now()), call, given, world)
      ensures go ==>
                && Underway(collected, [call] + rest, 1, response) && progress == old(progress)
                && Now() == AfterAdmission(old(Now()), call, given)
      ensures !go ==>
                var end := CallEndOf(limits, old(Now()), call, given, world);
                end.Halted? && Valid() && Ended(Stopped(end.state, end.counters), response, finished)
    {
      go := Admit(call, given, world);
      if !go { GiveUp(); }
    }

    /** `_execute_tool_batch`. What becomes of the batch follows from the counters, the limits and the
        world; when it is finished, the new observations are the tools' own answers. */
    method ExecuteToolBatch(calls: seq<ToolCall>, response: seq<ToolCall>, observations: seq<Observation>,
                            confirmed: Option<string>, world: World)
      requires Underway(observations, calls, if confirmed.Some? then 1 else 0, response)
      requires confirmed.Some? ==> calls != [] && calls[0].id == confirmed.value
      modifies this
      ensures Valid() && stepCount == old(stepCount) && old(messages) <= messages
      ensures Ended(BatchEndOf(limits, old(Now()), calls, confirmed, world), response, old(finished))
      ensures |finished| > |old(finished)| ==>
                var seen := finished[|old(finished)|].observations;
                && |seen| == |observations| + |calls| && seen[..|observations|] == observations
                && Heard(seen, |observations|, old(executions), confirmed, world)
      ensures Reason(world)
    {
      var collected := RunCalls(calls, response, observations, confirmed, world);
      if collected.Some? { Finish(collected.value, response); }
    }

    /** Before call `index` of a batch that had `observations` and will come to `goal`. */
    ghost predicate Looping(calls: seq<ToolCall>, index: nat, collected: seq<Observation>,
                            observations: seq<Observation>, confirmed: Option<string>, response: seq<ToolCall>,
                            asked: nat, goal: BatchEnd, world: World)
      requires index <= |calls|
      reads this
    {
      && Underway(collected, calls[index..], if confirmed.Some? && index == 0 then 1 else 0, response)
      && Calls(observations) + calls == response
      && |collected| == |observations| + index && collected[..|observations|] == observations
      && executions == asked + index && Heard(collected, |observations|, asked, confirmed, world)
      && BatchEndOf(limits, Now(), calls[index..], confirmed, world) == goal
    }

    method RunNext(calls: seq<ToolCall>, index: nat, collected: seq<Observation>, ghost observations: seq<Observation>,
                   confirmed: Option<string>, response: seq<ToolCall>, ghost asked: nat, ghost goal: BatchEnd,
                   world: World)
      returns (result: Option<ToolResult>)
      requires index < |calls|
      requires Looping(calls, index, collected, observations, confirmed, response, asked, goal, world)
      requires confirmed.Some? ==> calls[0].id == confirmed.value
      modifies this
      ensures stepCount == old(stepCount) && finished == old(finished) && old(messages) <= messages
      ensures result.Some? ==>
                Looping(calls, index + 1, collected + [(calls[index], result.value)], observations, confirmed, response,
                        asked, goal, world)
      ensures result.None? ==> !goal.Passed? && Valid() && Ended(goal, response, finished)
      ensures Reason(world)
    {
      var call := calls[index];
      var given := confirmed == Some(call.id);
      assert [call] + calls[index + 1..] == calls[index..];
      if index > 0 && given { SameIdTwice(observations, calls, index); }
      EndFromNext(limits, Now(), calls, index, confirmed, world);
      result := RunCall(call, given, calls[index + 1..], collected, response, world);
      if result.Some? { HeardGrows(collected, |observations|, asked, confirmed, world, call, result.value); }
    }

    /** The calls of a batch, one after the other. */
    method RunCalls(calls: seq<ToolCall>, response: seq<ToolCall>, observations: seq<Observation>,
                    confirmed: Option<string>, world: World) returns (all: Option<seq<Observation>>)
      requires Underway(observations, calls, if confirmed.Some? then 1 else 0, response)
      requires confirmed.Some? ==> calls != [] && calls[0].id == confirmed.value
      modifies this
      ensures stepCount == old(stepCount) && finished == old(finished) && old(messages) <= messages
      ensures all.Some? <==> BatchEndOf(limits, old(Now()), calls, confirmed, world).Passed?
      ensures all.Some? ==>
                && Underway(all.value, [], 0, response)
                && Now() == BatchEndOf(limits, old(Now()), calls, confirmed, world).counters
                && |all.value| == |observations| + |calls| && all.value[..|observations|] == observations
                && Heard(all.value, |observations|, old(executions), confirmed, world)
      ensures all.None? ==>
                Valid() && Ended(BatchEndOf(limits, old(Now()), calls, confirmed, world), response, finished)
      ensures Reason(world)
    {
      var collected := observations;
      var index := 0;
      ghost var goal := BatchEndOf(limits, Now(), calls, confirmed, world);
      assert calls[0..] == calls;
      while index < |calls|
        invariant 0 <= index <= |calls|
        invariant Looping(calls, index, collected, observations, confirmed, response, old(executions), goal, world)
        invariant stepCount == old(stepCount) && finished == old(finished) && old(messages) <= messages
      {
        var result := RunNext(calls, index, collected, observations, confirmed, response, old(executions), goal, world);
        if result.None? { return None; }
        collected, index := collected + [(calls[index], result.value)], index + 1;
      }
      assert calls[index..] == [];
      return Some(collected);
    }

    /** The whole batch has been observed. */
    method Finish(collected: seq<Observation>, response: seq<ToolCall>)
      requires Bounded() && Accounts(collected, [], 0) && Tail(MessagesOf(collected))
      requires response == progress.value.calls
      modifies this`progress, this`finished
      ensures Bounded() && finished == old(finished) + [Finished(response, collected,
        toolCallCount - old(progress).value.count, old(messages[progress.value.mark..]))]
    {
      assert Calls(collected) == response;
      finished := finished
        + [Finished(response, collected, toolCallCount - progress.value.count, messages[progress.value.mark..])];
      progress := None;
    }

    /** `_resume_action_batch`; `found` says that there was a batch to resume. It goes on where it stopped,
        with the human's answer, or what the approved tool says, as the answer of the waiting call. */
    method ResumeActionBatch(world: World) returns (found: bool)
      requires Valid() && state.Running?
      modifies this
      ensures Valid() && stepCount == old(stepCount) && old(messages) <= messages
      ensures found == old(suspended.Some?)
      ensures found ==>
                Ended(ResumeEnd(limits, old(Now()), old(suspended).value, old(Approved()), world),
                      old(suspended).value.response, old(finished))
      ensures found && |finished| > |old(finished)| ==>
                var b, seen := old(suspended).value, finished[|old(finished)|].observations;
                && |seen| > |b.observations| && seen[..|b.observations|] == b.observations
                && Some(seen[|b.observations|].1)
                   == (if old(Approved()) then Some(world.tools(old(executions), b.waiting, true))
                       else FindResult(old(messages), b.waiting.id))
      ensures !found ==>
                && state == old(state) && suspended.None? && finished == old(finished)
                && Now() == old(Now()) && messages == old(messages)
      ensures Reason(world)
    {
      if suspended.None? { return false; }
      found := true;
      if Approved() { ContinueApproved(world); } else { ContinueAnswered(world); }
    }

    /** The waiting call was approved and is executed. */
    method ContinueApproved(world: World)
      requires Valid() && state.Running? && suspended.Some? && Approved()
      modifies this
      ensures Valid() && stepCount == old(stepCount) && old(messages) <= messages
      ensures Ended(ResumeEnd(limits, old(Now()), old(suspended).value, true, world),
                    old(suspended).value.response, old(finished))
      ensures |finished| > |old(finished)| ==>
                var b, seen := old(suspended).value, finished[|old(finished)|].observations;
                && |seen| > |b.observations| && seen[..|b.observations|] == b.observations
                && seen[|b.observations|] == (b.waiting, world.tools(old(executions), b.waiting, true))
      ensures Reason(world)
    {
      var b := suspended.value;
      ghost var n := |finished|;
      suspended, decision := None, None;
      ExecuteToolBatch([b.waiting] + b.remaining, b.response, b.observations, Some(b.waiting.id), world);
      if |finished| > n {
        assert LikeUninterrupted(finished[n]);
        assert Calls(finished[n].observations)[|b.observations|] == b.response[|b.observations|] == b.waiting;
      }
    }

    /** The waiting call has its answer among the messages. */
    method ContinueAnswered(world: World)
      requires Valid() && state.Running? && suspended.Some? && !Approved()
      modifies this
      ensures Valid() && stepCount == old(stepCount) && old(messages) <= messages
      ensures Ended(BatchEndOf(limits, old(Now()), old(suspended).value.remaining, None, world),
                    old(suspended).value.response, old(finished))
      ensures |finished| > |old(finished)| ==>
                var b, seen := old(suspended).value, finished[|old(finished)|].observations;
                && |seen| > |b.observations| && seen[..|b.observations|] == b.observations
                && Some(seen[|b.observations|].1) == FindResult(old(messages), b.waiting.id)
      ensures Reason(world)
    {
      AnswerIsThere();
      var b := suspended.value;
      var result := FindResult(messages, b.waiting.id);
      var observations := b.observations + [(b.waiting, result.value)];
      suspended, decision := None, None;
      if b.remaining != [] {
        ExecuteToolBatch(b.remaining, b.response, observations, None, world);
      } else {
        Finish(observations, b.response);
      }
    }

    /** The answer to the waiting call is the last message; with it the call is observed. */
    lemma AnswerIsThere()
      requires Valid() && state.Running? && suspended.Some? && !Approved()
      ensures var b, r := suspended.value, FindResult(messages, suspended.value.waiting.id);
              && r.Some? && Accounts(b.observations + [(b.waiting, r.value)], b.remaining, 0)
              && Tail(MessagesOf(b.observations + [(b.waiting, r.value)]))
    {
      var b, tail := suspended.value, messages[progress.value.mark..];
      var r :| Tail(MessagesOf(b.observations) + [ToolMessage(b.waiting.id, r)]);
      assert messages[|messages| - 1] == tail[|tail| - 1];
      Observe(b.observations, b.waiting, r);
      assert Calls(b.observations) + ([b.waiting] + b.remaining)
          == Calls(b.observations + [(b.waiting, r)]) + b.remaining;
    }

    /** One turn of the strategy: a suspended batch goes on, or the model is asked once. */
    method Advance(world: World)
      requires Valid() && state.Running? && stepCount < limits.maxSteps
      modifies this
      ensures Valid() && !state.Created? && old(messages) <= messages && old(finished) <= finished
      ensures stepCount == old(stepCount) + if old(suspended.Some?) then 0 else 1
      ensures state.Running? ==> suspended.None?
      ensures old(suspended).Some? ==>
                Ended(ResumeEnd(limits, old(Now()), old(suspended).value, old(Approved()), world),
                      old(suspended).value.response, old(finished))
      ensures old(suspended).None? ==> AnswersModel(world.model(stepCount), old(Now()), world, old(finished))
      ensures Reason(world)
    {
      var found := ResumeActionBatch(world);
      if !found { AskModel(world); }
    }

    /** One model step. */
    method AskModel(world: World)
      requires Valid() && state.Running? && suspended.None? && stepCount < limits.maxSteps
      modifies this
      ensures Valid() && !state.Created? && old(messages) <= messages && old(finished) <= finished
      ensures stepCount == old(stepCount) + 1 && (state.Running? ==> suspended.None?)
      ensures AnswersModel(world.model(stepCount), old(Now()), world, old(finished))
      ensures Reason(world)
    {
      stepCount := stepCount + 1;
      var response := world.model(stepCount);
      if response.None? { state := Failed; return; }
      messages := messages + [Other("assistant")];
      var cancelled := CancelIfRequested(world);
      if cancelled { return; }
      if response.value == [] { state := Completed; return; }
      StartBatch(response.value, world);
    }

    /** A new batch: nothing observed yet. */
    method StartBatch(calls: seq<ToolCall>, world: World)
      requires Valid() && state.Running? && suspended.None?
      modifies this
      ensures Valid() && stepCount == old(stepCount) && old(messages) <= messages && Reason(world)
      ensures Ended(BatchEndOf(limits, old(Now()), calls, None, world), calls, old(finished))
    {
      progress := Some(Progress(calls, toolCallCount, |messages|));
      assert messages[|messages|..] == MessagesOf([]);
      assert Calls([]) + calls == calls;
      ExecuteToolBatch(calls, calls, [], None, world);
    }

    /** What a response of the model leads to. */
    ghost predicate AnswersModel(response: Option<seq<ToolCall>>, k: Counters, world: World, before: seq<Finished>)
      reads this
    {
      var k1 := k.(checks := k.checks + 1);
      match response
      case None => state.Failed? && finished == before && Now() == k
      case Some(calls) =>
        if world.cancelled(k.checks) then state.Cancelled? && finished == before && Now() == k1
        else if calls == [] then state.Completed? && finished == before && Now() == k1
        else Ended(BatchEndOf(limits, k1, calls, None, world), calls, before)
    }

    /** How the run will end in this world, if nobody but the run loop touches it. */
    ghost function Outlook(world: World): Fate
      reads this
    {
      if !state.Running? then Fate(state, stepCount, Now(), [])
      else if suspended.Some? then ResumeFate(limits, stepCount, Now(), suspended.value, Approved(), world)
      else RunFate(limits, stepCount, Now(), world)
    }

    /** A batch has ended: the outlook is what follows from that. */
    lemma {:induction false} OutlookAfter(end: BatchEnd, response: seq<ToolCall>, before: seq<Finished>, world: World)
      requires Ended(end, response, before)
      ensures before <= finished
      ensures FateAfter(limits, stepCount, end, response, world)
           == After(Responses(finished[|before|..]), Outlook(world))
    {
      if end.Passed? {
        assert finished[|before|..] == [finished[|before|]];
        assert Responses(finished[|before|..]) == [response];
      } else {
        assert finished[|before|..] == [] && Responses([]) == [];
      }
    }

    method Begin()
      requires Valid() && state.Created?
      modifies this`state
      ensures Valid() && state.Running?
    {
      state := Running;
    }

    /** One round of the run loop: cancellation, then the step limit, then the strategy. Where a batch is
        suspended it is continued exactly when nobody has cancelled and the step limit is not reached. */
    method Turn(world: World)
      requires Valid() && state.Running?
      modifies this
      ensures Valid() && !state.Created? && old(messages) <= messages && old(finished) <= finished
      ensures Measure() < old(Measure()) && Reason(world)
      ensures old(suspended).Some? ==>
                Resumed(old(Now()), old(stepCount), old(suspended).value, old(Approved()), world, old(finished))
      ensures old(Outlook(world)) == After(Responses(finished[|old(finished)|..]), Outlook(world))
    {
      assert finished[|finished|..] == [] && Responses([]) == [];
      var cancelled := CancelIfRequested(world);
      if cancelled { return; }
      if stepCount >= limits.maxSteps { state := LimitReached; return; }
      if suspended.Some? { AdvanceSuspended(world); } else { AdvanceUnsuspended(world); }
    }

    /** `Advance` where a batch is suspended. */
    method AdvanceSuspended(world: World)
      requires Valid() && state.Running? && stepCount < limits.maxSteps && suspended.Some?
      modifies this
      ensures Valid() && !state.Created? && old(messages) <= messages && old(finished) <= finished && Reason(world)
      ensures stepCount == old(stepCount) && (state.Running? ==> suspended.None?)
      ensures Ended(ResumeEnd(limits, old(Now()), old(suspended).value, old(Approved()), world),
                    old(suspended).value.response, old(finished))
      ensures FateAfter(limits, old(stepCount),
                        ResumeEnd(limits, old(Now()), old(suspended).value, old(Approved()), world),
                        old(suspended).value.response, world)
           == After(Responses(finished[|old(finished)|..]), Outlook(world))
    {
      ghost var end := ResumeEnd(limits, Now(), suspended.value, Approved(), world);
      ghost var response, before := suspended.value.response, finished;
      Advance(world);
      OutlookAfter(end, response, before, world);
    }

    /** `Advance` where none is. */
    method AdvanceUnsuspended(world: World)
      requires Valid() && state.Running? && stepCount < limits.maxSteps && suspended.None?
      modifies this
      ensures Valid() && !state.Created? && old(messages) <= messages && old(finished) <= finished && Reason(world)
      ensures stepCount == old(stepCount) + 1 && (state.Running? ==> suspended.None?)
      ensures AskFate(limits, old(stepCount), old(Now()), world)
           == After(Responses(finished[|old(finished)|..]), Outlook(world))
    {
      ghost var before, k1 := finished, Now().(checks := checks + 1);
      ghost var cancelled := world.cancelled(checks);
      assert finished[|finished|..] == [] && Responses([]) == [];
      Advance(world);
      ghost var response := world.model(stepCount);
      if response.Some? && !cancelled && response.value != [] {
        OutlookAfter(BatchEndOf(limits, k1, response.value, None, world), response.value, before, world);
      }
    }

    ghost function Measure(): nat
      reads this
    {
      if state.Running? && stepCount <= limits.maxSteps
      then 2 * (limits.maxSteps - stepCount) + 1 + (if suspended.Some? then 1 else 0) else 0
    }

    /** What became of the suspended batch `b`: dropped, with nothing executed, or continued. */
    ghost predicate Resumed(k: Counters, steps: nat, b: Batch, approved: bool, world: World, before: seq<Finished>)
      reads this
    {
      if world.cancelled(k.checks) || steps >= limits.maxSteps
      then
        && state == (if world.cancelled(k.checks) then Cancelled else LimitReached)
        && suspended == Some(b) && finished == before && executions == k.executions
      else Ended(ResumeEnd(limits, k.(checks := k.checks + 1), b, approved, world), b.response, before)
    }

    /** What is left of that when the run loop has ended. */
    ghost predicate ResumedBefore(k: Counters, steps: nat, b: Batch, approved: bool, world: World,
                                  before: seq<Finished>)
      reads this
    {
      var end := ResumeEnd(limits, k.(checks := k.checks + 1), b, approved, world);
      if world.cancelled(k.checks) || steps >= limits.maxSteps || end.Suspended?
      then Resumed(k, steps, b, approved, world, before)
      else end.Passed? ==> |finished| > |before| && before <= finished && finished[|before|].response == b.response
    }

    /** The run loop of `AgentRuntime.execute`: it ends, within the limits, with the state, steps, counters
        and finished batches that the world and the limits determine. A batch that was suspended is
        continued if and only if nobody has cancelled and the step limit is not reached; otherwise its
        remaining calls, an approved one included, are never executed. */
    method Execute(world: World)
      requires Valid() && (state.Created? || state.Running?)
      modifies this
      ensures Valid() && state !in {Created, Running} && old(messages) <= messages && old(finished) <= finished
      ensures Reason(world)
      ensures old(suspended).Some? ==>
                ResumedBefore(old(Now()), old(stepCount), old(suspended).value, old(Approved()), world, old(finished))
      ensures Fate(state, stepCount, Now(), Responses(finished[|old(finished)|..]))
           == if old(suspended).Some?
              then ResumeFate(limits, old(stepCount), old(Now()), old(suspended).value, old(Approved()), world)
              else RunFate(limits, old(stepCount), old(Now()), world)
    {
      if state.Created? { Begin(); }
      // only the first round can find a suspended batch
      if suspended.Some? { Turn(world); }
      ghost var before := finished;
      Loop(world);
      AfterBoth(old(finished), before, finished, Fate(state, stepCount, Now(), []));
    }

    /** One round, seen from the start of the loop. */
    method Round(world: World, ghost first: seq<Finished>, ghost total: Fate)
      requires Valid() && state.Running? && first <= finished
      requires total == After(Responses(finished[|first|..]), Outlook(world))
      modifies this
      ensures Valid() && !state.Created? && old(messages) <= messages && first <= finished && Reason(world)
      ensures Measure() < old(Measure())
      ensures total == After(Responses(finished[|first|..]), Outlook(world))
    {
      ghost var before := finished;
      Turn(world);
      AfterBoth(first, before, finished, Outlook(world));
    }

    method Loop(world: World)
      requires Valid() && !state.Created? && Reason(world)
      modifies this
      ensures Valid() && state !in {Created, Running} && old(messages) <= messages && old(finished) <= finished
      ensures Reason(world)
      ensures !old(state.Running?) ==>
                && state == old(state) && suspended == old(suspended) && finished == old(finished)
                && Now() == old(Now()) && pending == old(pending)
      ensures old(Outlook(world)) == After(Responses(finished[|old(finished)|..]), Fate(state, stepCount, Now(), []))
    {
      ghost var total := Outlook(world);
      assert finished[|finished|..] == [] && Responses([]) == [];
      while state.Running?
        invariant Valid() && !state.Created? && old(messages) <= messages && old(finished) <= finished && Reason(world)
        invariant !old(state.Running?) ==>
                    && state == old(state) && suspended == old(suspended) && finished == old(finished)
                    && Now() == old(Now()) && pending == old(pending)
        invariant total == After(Responses(finished[|old(finished)|..]), Outlook(world))
        decreases Measure()
      {
        Round(world, old(finished), total);
      }
    }

    /** `_prepare_resume`: human input, or a decision about the pending confirmation. */
    method PrepareResume(input: Option<string>, confirmation: Option<Confirmation>) returns (ok: bool)
      requires Valid() && state.Waiting?
      modifies this
      ensures Valid() && stepCount == old(stepCount) && Now() == old(Now())
      ensures suspended == old(suspended) && finished == old(finished) && old(pending).Some?
      ensures old(pending).value.request.Some? ==>
                (ok <==> input.None? && confirmation.Some?
                         && confirmation.value.request == old(pending).value.request.value)
      ensures old(pending).value.request.None? ==>
                (ok <==> confirmation.None? && input.Some? && !IsBlank(input.value))
      ensures ok ==> state.Running? && decision == confirmation
      ensures ok ==> messages == old(messages) + Reply(old(pending).value.callId, input, Approved())
      ensures ok && !Approved() ==>
                FindResult(messages, old(pending).value.callId)
                == Some(Reply(old(pending).value.callId, input, false)[0].result)
      ensures !ok ==> state.Waiting? && messages == old(messages) && pending == old(pending)
    {
      if pending.None? { return false; }
      if pending.value.request.Some? {
        if input.Some? || confirmation.None? || confirmation.value.request != pending.value.request.value {
          return false;
        }
        if confirmation.value.approve {
          Approve(confirmation.value);
        } else {
          AnswerPending(Answer(false, "tool_confirmation_rejected"), confirmation);
        }
      } else {
        if confirmation.Some? || input.None? || IsBlank(input.value) { return false; }
        AnswerPending(Answer(true, input.value), None);
      }
      return true;
    }

    /** The waiting call gets its answer; a decision that comes with it is a rejection. */
    method AnswerPending(answer: ToolResult, rejection: Option<Confirmation>)
      requires Valid() && state.Waiting? && (rejection.Some? ==> !rejection.value.approve)
      modifies this`decision, this`messages, this`pending, this`state
      ensures Valid() && state.Running? && decision == rejection && old(pending).Some?
      ensures messages == old(messages) + [ToolMessage(old(pending).value.callId, answer)]
      ensures FindResult(messages, old(pending).value.callId) == Some(answer)
    {
      ghost var before, b := messages[progress.value.mark..], suspended.value;
      decision := rejection;
      messages := messages + [ToolMessage(pending.value.callId, answer)];
      assert messages[progress.value.mark..] == before + [ToolMessage(b.waiting.id, answer)];
      assert Tail(MessagesOf(b.observations) + [ToolMessage(b.waiting.id, answer)]);
      pending, state := None, Running;
    }

    method Approve(approval: Confirmation)
      requires Valid() && state.Waiting? && approval.approve
      modifies this`decision, this`pending, this`state
      ensures Valid() && state.Running? && decision == Some(approval)
    {
      decision, pending, state := Some(approval), None, Running;
    }
  }

  lemma Observe(collected: seq<Observation>, call: ToolCall, result: ToolResult)
    ensures Calls(collected + [(call, result)]) == Calls(collected) + [call]
    ensures MessagesOf(collected + [(call, result)]) == MessagesOf(collected) + [ToolMessage(call.id, result)]
  {}

  lemma HeardGrows(observations: seq<Observation>, first: nat, asked: nat, confirmed: Option<string>, world: World,
                   call: ToolCall, result: ToolResult)
    requires Heard(observations, first, asked, confirmed, world)
    requires result == world.tools(asked + |observations| - first, call, confirmed == Some(call.id))
    ensures Heard(observations + [(call, result)], first, asked, confirmed, world)
  {}

  lemma {:induction false} EndFromNext(
    l: Limits, k: Counters, calls: seq<ToolCall>, index: nat, confirmed: Option<string>, world: World)
    requires index < |calls|
    ensures BatchEndOf(l, k, calls[index..], confirmed, world)
         == match CallEndOf(l, k, calls[index], confirmed == Some(calls[index].id), world)
            case Answered(_, k') => BatchEndOf(l, k', calls[index + 1..], confirmed, world)
            case Asking(wait, k') => Suspended(calls[index], calls[index + 1..], wait, k')
            case Halted(state, k') => Stopped(state, k')
  {
    assert calls[index..][0] == calls[index] && calls[index..][1..] == calls[index + 1..];
  }

  lemma AfterBoth(first: seq<Finished>, before: seq<Finished>, now: seq<Finished>, f: Fate)
    requires first <= before <= now
    ensures After(Responses(before[|first|..]), After(Responses(now[|before|..]), f))
         == After(Responses(now[|first|..]), f)
  {
    ResponsesGrow(first, before, now);
    assert Responses(before[|first|..]) + (Responses(now[|before|..]) + f.finished)
        == Responses(before[|first|..]) + Responses(now[|before|..]) + f.finished;
  }

  lemma ResponsesGrow(first: seq<Finished>, before: seq<Finished>, now: seq<Finished>)
    requires first <= before <= now
    ensures Responses(now[|first|..]) == Responses(before[|first|..]) + Responses(now[|before|..])
  {}

  lemma SameIdTwice(observations: seq<Observation>, calls: seq<ToolCall>, index: nat)
    requires 0 < index < |calls| && calls[index].id == calls[0].id
    ensures !DistinctIds(Calls(observations) + calls)
  {
    var all := Calls(observations) + calls;
    assert all[|observations|].id == all[|observations| + index].id;
  }

  /** Tools that wait say for what. */
  ghost predicate GoodPrompts(world: World) {
    forall n, call, given :: world.tools(n, call, given).Wait? ==>
      world.tools(n, call, given).prompt.Some? && !IsBlank(world.tools(n, call, given).prompt.value)
  }

  /** What `Valid` means for a reader, at any moment of any run, however often it was suspended: both
      limits hold, and a finished batch with distinct call ids observed exactly the model's calls,
      in order, with one message and one count each. */
  lemma FinishedBatchesAreWhole(run: AgentRun, k: nat)
    requires run.Valid() && k < |run.finished| && DistinctIds(run.finished[k].response)
    ensures run.stepCount <= run.limits.maxSteps && run.toolCallCount <= run.limits.maxToolCalls
    ensures var f := run.finished[k];
            && f.counted == |f.response| == |f.observations| == |f.appended|
            && forall i :: 0 <= i < |f.response| ==>
                 f.observations[i].0 == f.response[i]
                 && f.appended[i] == ToolMessage(f.response[i].id, f.observations[i].1)
  {
    var f := run.finished[k];
    assert LikeUninterrupted(f);
    assert forall i :: 0 <= i < |f.response| ==> Calls(f.observations)[i] == f.response[i];
  }

  /** One call, asked for in the only step that is allowed. */
  function OneCall(): ToolCall {
    ToolCall("1", "ask", "")
  }

  function OneStep(answer: ToolResult): World {
    World(n => Some([OneCall()]), (n: nat, call: ToolCall, given: bool) => answer, n => false)
  }

  method FirstStep(answer: ToolResult) returns (run: AgentRun)
    requires answer == Wait(Some("?"), None) || answer == Answer(true, "yes")
    ensures fresh(run) && run.Valid() && run.stepCount == run.limits.maxSteps == 1
    ensures answer.Wait? ==> run.state.Waiting? && run.suspended.Some? && run.finished == []
    ensures answer.Answer? ==> run.state.Running? && |run.finished| == 1
  {
    var l, c, world := Limits(1, 9, 9, 9), OneCall(), OneStep(answer);
    run := new AgentRun(l, []);
    run.Begin();
    ghost var k := run.Now().(checks := 1);
    EndFromNext(l, k, [c], 0, None, world);
    assert [c][0..] == [c] && [c][1..] == [];
    assert "?"[0] == '?';
    run.Advance(world);
  }

  /** A batch suspended in the last step that is allowed: the human answers, the run is resumed, and the
      batch is dropped at the step limit. Had the tool answered itself, the batch would be finished. */
  method DroppedAtTheStepLimit() returns (interrupted: AgentRun, straight: AgentRun)
    ensures fresh(interrupted) && interrupted.state.LimitReached? && interrupted.suspended.Some?
    ensures interrupted.finished == []
    ensures fresh(straight) && |straight.finished| == 1
  {
    straight := FirstStep(Answer(true, "yes"));
    interrupted := FirstStep(Wait(Some("?"), None));
    var pending := interrupted.pending.value;
    assert "yes"[0] == 'y';
    var ok;
    if pending.request.Some? {
      ok := interrupted.PrepareResume(None, Some(Confirmation(pending.request.value, true)));
    } else {
      ok := interrupted.PrepareResume(Some("yes"), None);
    }
    interrupted.Execute(OneStep(Wait(Some("?"), None)));
  }

  // ---------------------------------------------------------------- a shared call id

  /** A tool that needs approval, and another call of the batch with the same id to a tool that needs none. */
  function Pay(): ToolCall {
    ToolCall("1", "pay", "")
  }

  function Look(): ToolCall {
    ToolCall("1", "look", "")
  }

  /** Paying waits until it is approved, and denies an approval of anything else; looking just answers. */
  function Shop(): World {
    World(n => Some([Pay(), Look()]),
          (n: nat, call: ToolCall, given: bool) =>
            if call.name != "pay" then Answer(true, "seen")
            else if !given then Wait(Some("?"), Some(0))
            else if call == Pay() then Answer(true, "paid") else Answer(false, "tool_confirmation_mismatch"),
          n => false)
  }

  /** The limits allow one tool call. */
  function OneTool(): Limits {
    Limits(2, 1, 9, 9)
  }

  lemma ShopFates(checks: nat, checks': nat)
    ensures var k := Counters(1, Some(Fingerprint(Pay())), 1, 0, 1, checks + 1);
            && BatchEndOf(OneTool(), Counters(0, None, 0, 0, 0, checks), [Pay(), Look()], None, Shop())
               == Suspended(Pay(), [Look()], Wait(Some("?"), Some(0)), k)
            && BatchEndOf(OneTool(), k.(checks := checks'), [Pay(), Look()], Some("1"), Shop())
               == Passed(k.(executions := 3, checks := checks' + 4))
            && BatchEndOf(OneTool(), k.(checks := checks'), [Look()], None, Shop()).Stopped?
  {
    assert "pay" != "look" by { assert "pay"[0] != "look"[0]; }
    assert [Pay(), Look()][1..] == [Look()] && [Look()][1..] == [];
    var k := Counters(1, Some(Fingerprint(Pay())), 1, 0, 1, checks');
    var one := CallEndOf(OneTool(), k, Pay(), true, Shop());
    assert one == Answered(Answer(true, "paid"), k.(executions := 2, checks := checks' + 2));
    var two := CallEndOf(OneTool(), one.counters, Look(), true, Shop());
    assert two == Answered(Answer(true, "seen"), k.(executions := 3, checks := checks' + 4));
    assert BatchEndOf(OneTool(), two.counters, [], Some("1"), Shop()) == Passed(two.counters);
    assert BatchEndOf(OneTool(), one.counters, [Look()], Some("1"), Shop()) == Passed(two.counters);
  }

  /** The only tool call that is allowed waits for approval. */
  method WaitToPay() returns (run: AgentRun)
    ensures fresh(run) && run.Valid() && run.limits == OneTool() && run.state.Waiting? && run.stepCount == 1
    ensures run.finished == [] && run.pending == Some(PendingInput("1", Some(0))) && run.suspended.Some?
    ensures run.suspended.value.waiting == Pay() && run.suspended.value.remaining == [Look()]
    ensures run.suspended.value.response == [Pay(), Look()]
    ensures run.Now() == Counters(1, Some(Fingerprint(Pay())), 1, 0, 1, 2)
  {
    run := new AgentRun(OneTool(), []);
    run.Begin();
    ShopFates(1, 1);
    assert !IsBlank("?") by { assert "?"[0] == '?'; }
    run.Advance(Shop());
  }

  /** A run that may make one tool call. Paying waits and is counted; it is approved; then both calls run,
      though the limit is reached: the second one is neither counted nor shown to the supervisor, since it
      carries the id of the approved one. */
  method SharedIdEscapesTheLimit() returns (run: AgentRun)
    ensures fresh(run) && run.limits.maxToolCalls == run.toolCallCount == 1 && run.executions == 3
    ensures |run.finished| == 1 && Calls(run.finished[0].observations) == [Pay(), Look()]
    ensures run.fingerprint == Some(Fingerprint(Pay()))
  {
    run := WaitToPay();
    var ok := run.PrepareResume(None, Some(Confirmation(0, true)));
    ShopFates(1, 2);
    assert [Pay()] + [Look()] == [Pay(), Look()];
    run.Advance(Shop());
    assert LikeUninterrupted(run.finished[0]);
  }
}
