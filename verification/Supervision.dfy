/** The default supervisor, and what it makes of a batch of tool calls: which calls may run, and
    whether the batch is finished, waits for a human or is stopped. */
module Supervision {
  import opened Common

  datatype RunState = Created | Running | Waiting | Completed | Failed | Cancelled | LimitReached

  datatype ToolCall = ToolCall(id: string, name: string, arguments: string)

  /** A tool either answers, or waits for a human: for input, or for the confirmation of a request. */
  datatype ToolResult =
    | Answer(success: bool, content: string)
    | Wait(prompt: Option<string>, request: Option<Id>)

  datatype Decision = Continue | Redirect | Stop

  /** Provider, tools and cancellation flag, each asked by the number of times it was asked before. */
  datatype World = World(
    model: nat -> Option<seq<ToolCall>>,
    tools: (nat, ToolCall, bool) -> ToolResult,
    cancelled: nat -> bool)

  datatype Limits = Limits(maxSteps: nat, maxToolCalls: nat, duplicateThreshold: nat, maxFailures: nat)

  /** The supervision data, the tool counter, and how often tools and cancellation flag were asked. */
  datatype Counters = Counters(
    count: nat, fingerprint: Option<(string, string)>, duplicates: nat, failures: nat,
    executions: nat, checks: nat)

  function Fingerprint(call: ToolCall): (string, string) {
    (call.name, call.arguments)
  }

  // ---------------------------------------------------------------- the two detectors

  /** `DuplicateToolCallDetector`: identical calls in a row, this one included. */
  function Repeats(k: Counters, call: ToolCall): nat {
    (if k.fingerprint == Some(Fingerprint(call)) then k.duplicates else 0) + 1
  }

  /** `NoProgressDetector`: failures in a row, this one included. */
  function FailuresAfter(failures: nat, result: ToolResult): nat {
    if result.Answer? && result.success then 0 else failures + 1
  }

  function Watched(k: Counters, calls: seq<ToolCall>): Counters {
    if calls == [] then k else
      var before := Watched(k, calls[..|calls| - 1]);
      before.(fingerprint := Some(Fingerprint(calls[|calls| - 1])), duplicates := Repeats(before, calls[|calls| - 1]))
  }

  /** What `duplicates` means: it is the length of the run of identical calls at the end. */
  lemma {:induction false} DuplicatesCountTheStreak(k: Counters, calls: seq<ToolCall>)
    requires k.fingerprint.None? && calls != []
    ensures var n, d := |calls|, Watched(k, calls).duplicates;
            && 1 <= d <= n && Watched(k, calls).fingerprint == Some(Fingerprint(calls[n - 1]))
            && (forall i :: n - d <= i < n ==> Fingerprint(calls[i]) == Fingerprint(calls[n - 1]))
            && (d < n ==> Fingerprint(calls[n - d - 1]) != Fingerprint(calls[n - 1]))
  {
    if |calls| > 1 {
      DuplicatesCountTheStreak(k, calls[..|calls| - 1]);
    }
  }

  function FailuresOf(results: seq<ToolResult>): nat {
    if results == [] then 0 else FailuresAfter(FailuresOf(results[..|results| - 1]), results[|results| - 1])
  }

  predicate Succeeded(result: ToolResult) {
    result.Answer? && result.success
  }

  /** What `failures` means: it is the length of the run of unsuccessful results at the end. */
  lemma {:induction false} FailuresCountTheStreak(results: seq<ToolResult>)
    ensures var n, f := |results|, FailuresOf(results);
            && f <= n
            && (forall i :: n - f <= i < n ==> !Succeeded(results[i]))
            && (f < n ==> Succeeded(results[n - f - 1]))
  {
    if results != [] {
      FailuresCountTheStreak(results[..|results| - 1]);
    }
  }

  // ---------------------------------------------------------------- one call, one batch

  /** A call may run: nobody has cancelled, and it was just confirmed, or is within the limit and no
      repetition. */
  predicate Admitted(l: Limits, k: Counters, call: ToolCall, given: bool, world: World) {
    && !world.cancelled(k.checks)
    && (given || (k.count < l.maxToolCalls && Repeats(k, call) < l.duplicateThreshold))
  }

  function AfterAdmission(k: Counters, call: ToolCall, given: bool): Counters {
    if given then k.(checks := k.checks + 1)
    else Counters(k.count + 1, Some(Fingerprint(call)), Repeats(k, call), k.failures, k.executions, k.checks + 1)
  }

  /** The batch may go on after an answer: not too many failures, and still nobody has cancelled. */
  predicate MayGoOn(l: Limits, k: Counters, result: ToolResult, world: World) {
    (Succeeded(result) || FailuresAfter(k.failures, result) < l.maxFailures) && !world.cancelled(k.checks)
  }

  function AfterAnswer(k: Counters, result: ToolResult): Counters {
    k.(failures := FailuresAfter(k.failures, result), checks := k.checks + 1)
  }

  /** What becomes of one call, with the counters after it: it is answered, it waits for a human, or the
      batch is halted in some state of the run. `Running` means that the supervisor redirects it. */
  datatype CallEnd =
    | Answered(result: ToolResult, counters: Counters)
    | Asking(result: ToolResult, counters: Counters)
    | Halted(state: RunState, counters: Counters)

  function CallEndOf(l: Limits, k: Counters, call: ToolCall, given: bool, world: World): CallEnd {
    if world.cancelled(k.checks) then Halted(Cancelled, k.(checks := k.checks + 1))
    else if !given && k.count >= l.maxToolCalls then Halted(LimitReached, k.(checks := k.checks + 1))
    else if !Admitted(l, k, call, given, world) then Halted(Running, AfterAdmission(k, call, given))
    else
      EndOfAnswer(l, AfterAdmission(k, call, given).(executions := k.executions + 1),
                  world.tools(k.executions, call, given), world)
  }

  function EndOfAnswer(l: Limits, k: Counters, result: ToolResult, world: World): CallEnd {
    if result.Wait? then Asking(result, k)
    else if !Succeeded(result) && FailuresAfter(k.failures, result) >= l.maxFailures
      then Halted(Running, k.(failures := FailuresAfter(k.failures, result)))
    else if world.cancelled(k.checks) then Halted(Cancelled, AfterAnswer(k, result))
    else Answered(result, AfterAnswer(k, result))
  }

  datatype BatchEnd =
    | Passed(counters: Counters)
    | Suspended(waiting: ToolCall, remaining: seq<ToolCall>, wait: ToolResult, counters: Counters)
    | Stopped(state: RunState, counters: Counters)

  /** What becomes of a batch, from the counters, the limits and the world alone. */
  function BatchEndOf(l: Limits, k: Counters, calls: seq<ToolCall>, confirmed: Option<string>, world: World): BatchEnd
    decreases |calls|
  {
    if calls == [] then Passed(k)
    else
      match CallEndOf(l, k, calls[0], confirmed == Some(calls[0].id), world)
      case Answered(_, k') => BatchEndOf(l, k', calls[1..], confirmed, world)
      case Asking(wait, k') => Suspended(calls[0], calls[1..], wait, k')
      case Halted(state, k') => Stopped(state, k')
  }

  // ---------------------------------------------------------------- a whole run

  /** How a run ends: its state, steps and counters, and the responses whose batches were finished. */
  datatype Fate = Fate(state: RunState, steps: nat, counters: Counters, finished: seq<seq<ToolCall>>)

  predicate BadPrompt(wait: ToolResult) {
    wait.Answer? || wait.prompt.None? || IsBlank(wait.prompt.value)
  }

  /** The run loop from a moment at which no batch is suspended. */
  function RunFate(l: Limits, steps: nat, k: Counters, world: World): Fate
    decreases if l.maxSteps > steps then l.maxSteps - steps else 0, 0
  {
    var k1 := k.(checks := k.checks + 1);
    if world.cancelled(k.checks) then Fate(Cancelled, steps, k1, [])
    else if steps >= l.maxSteps then Fate(LimitReached, steps, k1, [])
    else AskFate(l, steps, k1, world)
  }

  /** From a model step on. */
  function AskFate(l: Limits, steps: nat, k: Counters, world: World): Fate
    requires steps < l.maxSteps
    decreases l.maxSteps - steps - 1, 2
  {
    match world.model(steps + 1)
    case None => Fate(Failed, steps + 1, k, [])
    case Some(calls) =>
      var k1 := k.(checks := k.checks + 1);
      if world.cancelled(k.checks) then Fate(Cancelled, steps + 1, k1, [])
      else if calls == [] then Fate(Completed, steps + 1, k1, [])
      else FateAfter(l, steps + 1, BatchEndOf(l, k1, calls, None, world), calls, world)
  }

  function FateAfter(l: Limits, steps: nat, end: BatchEnd, response: seq<ToolCall>, world: World): Fate
    decreases if l.maxSteps > steps then l.maxSteps - steps else 0, 1
  {
    match end
    case Passed(k) =>
      var f := RunFate(l, steps, k, world);
      f.(finished := [response] + f.finished)
    case Suspended(_, _, wait, k) => Fate(if BadPrompt(wait) then Failed else Waiting, steps, k, [])
    case Stopped(state, k) => if state.Running? then RunFate(l, steps, k, world) else Fate(state, steps, k, [])
  }

  /** A run goes through no more model steps than are allowed, and finishes at most one batch in each. */
  lemma {:induction false} FateIsBounded(l: Limits, steps: nat, k: Counters, world: World)
    requires steps <= l.maxSteps
    ensures var f := RunFate(l, steps, k, world);
            steps <= f.steps <= l.maxSteps && |f.finished| <= f.steps - steps && !f.state.Running? && !f.state.Created?
    decreases l.maxSteps - steps
  {
    var k1 := k.(checks := k.checks + 1);
    if !world.cancelled(k.checks) && steps < l.maxSteps {
      var k2 := k1.(checks := k1.checks + 1);
      assert RunFate(l, steps, k, world) == AskFate(l, steps, k1, world);
      if world.model(steps + 1).Some? && !world.cancelled(k1.checks) && world.model(steps + 1).value != [] {
        var calls := world.model(steps + 1).value;
        var end := BatchEndOf(l, k2, calls, None, world);
        assert AskFate(l, steps, k1, world) == FateAfter(l, steps + 1, end, calls, world);
        StoppedStates(l, k2, calls, None, world);
        FateIsBounded(l, steps + 1, end.counters, world);
      }
    }
  }

  lemma {:induction false} StoppedStates(
    l: Limits, k: Counters, calls: seq<ToolCall>, confirmed: Option<string>, world: World)
    ensures var end := BatchEndOf(l, k, calls, confirmed, world);
            end.Stopped? ==> end.state in {Running, Cancelled, LimitReached}
    decreases |calls|
  {
    if calls != [] {
      var one := CallEndOf(l, k, calls[0], confirmed == Some(calls[0].id), world);
      if one.Answered? { StoppedStates(l, one.counters, calls[1..], confirmed, world); }
    }
  }

  // ---------------------------------------------------------------- counting

  /** Calls that run under a confirmation of this id. */
  function Sharing(calls: seq<ToolCall>, confirmed: Option<string>): nat
    decreases |calls|
  {
    if calls == [] then 0 else (if confirmed == Some(calls[0].id) then 1 else 0) + Sharing(calls[1..], confirmed)
  }

  lemma {:induction false} CountedUnlessConfirmed(
    l: Limits, k: Counters, calls: seq<ToolCall>, confirmed: Option<string>, world: World)
    requires BatchEndOf(l, k, calls, confirmed, world).Passed?
    ensures var k' := BatchEndOf(l, k, calls, confirmed, world).counters;
            k'.count == k.count + |calls| - Sharing(calls, confirmed) && k'.executions == k.executions + |calls|
    decreases |calls|
  {
    if calls != [] {
      var one := CallEndOf(l, k, calls[0], confirmed == Some(calls[0].id), world);
      CountedUnlessConfirmed(l, one.counters, calls[1..], confirmed, world);
    }
  }

  lemma {:induction false} NobodyShares(calls: seq<ToolCall>, id: string)
    ensures Sharing(calls, Some(id)) == 0 <==> forall i :: 0 <= i < |calls| ==> calls[i].id != id
    decreases |calls|
  {
    if calls != [] {
      NobodyShares(calls[1..], id);
      assert forall i :: 0 < i < |calls| ==> calls[i] == calls[1..][i - 1];
    }
  }

  /** A confirmation is looked up by call id. When an approved call, which was counted when it was first
      asked for, and the rest of its batch pass, every remaining call has been counted if and only if none
      of them carries the same id. */
  lemma {:induction false} RemainingCallsAreCountedIff(
    l: Limits, k: Counters, approved: ToolCall, rest: seq<ToolCall>, world: World)
    requires BatchEndOf(l, k, [approved] + rest, Some(approved.id), world).Passed?
    ensures BatchEndOf(l, k, [approved] + rest, Some(approved.id), world).counters.count == k.count + |rest|
       <==> forall i :: 0 <= i < |rest| ==> rest[i].id != approved.id
  {
    CountedUnlessConfirmed(l, k, [approved] + rest, Some(approved.id), world);
    NobodyShares(rest, approved.id);
    assert ([approved] + rest)[1..] == rest;
  }

  /** With room under every limit and nobody cancelling, no batch is stopped. */
  lemma {:induction false} RoomyBatchesAreNotStopped(
    l: Limits, k: Counters, calls: seq<ToolCall>, confirmed: Option<string>, world: World)
    requires Calm(world)
    requires k.count + |calls| <= l.maxToolCalls
    requires k.duplicates + |calls| < l.duplicateThreshold && k.failures + |calls| < l.maxFailures
    ensures !BatchEndOf(l, k, calls, confirmed, world).Stopped?
    decreases |calls|
  {
    if calls != [] {
      var one := CallEndOf(l, k, calls[0], confirmed == Some(calls[0].id), world);
      if one.Answered? { RoomyBatchesAreNotStopped(l, one.counters, calls[1..], confirmed, world); }
    }
  }

  // ---------------------------------------------------------------- what ends a batch, call by call

  predicate Same(a: ToolCall, b: ToolCall) {
    a.name == b.name && a.arguments == b.arguments
  }

  /** The last `times` calls up to call `i` have the same name and arguments; calls before the batch are
      known through the last one and the number of its repetitions. */
  ghost predicate Repeated(k: Counters, calls: seq<ToolCall>, i: nat, times: nat)
    requires i < |calls|
  {
    || (times <= i + 1 && forall j :: i - times < j <= i ==> Same(calls[j], calls[i]))
    || (&& k.fingerprint == Some((calls[i].name, calls[i].arguments)) && times <= k.duplicates + i + 1
        && forall j :: 0 <= j <= i ==> Same(calls[j], calls[i]))
  }

  /** What the tool answers to call `i` when all calls before it have been executed. */
  function AnswerTo(k: Counters, calls: seq<ToolCall>, world: World, i: nat): ToolResult
    requires i < |calls|
  {
    world.tools(k.executions + i, calls[i], false)
  }

  /** The last `times` answers up to call `i` are failures, and the last one is, whatever `times`. */
  ghost predicate Failing(k: Counters, calls: seq<ToolCall>, world: World, i: nat, times: nat)
    requires i < |calls|
  {
    && !Succeeded(AnswerTo(k, calls, world, i))
    && (|| (times <= i + 1 && forall j :: i - times < j <= i ==> !Succeeded(AnswerTo(k, calls, world, j)))
        || (times <= k.failures + i + 1 && forall j :: 0 <= j <= i ==> !Succeeded(AnswerTo(k, calls, world, j))))
  }

  /** What can happen at a call: nothing, the batch is stopped before or after it is executed, or it asks. */
  datatype Trouble = NoTrouble | StopsBefore(state: RunState) | Asks | StopsAfter(state: RunState)

  /** In a batch that has come as far as call `i`: two cancellation checks, one execution and one count for
      every call before it. */
  ghost function TroubleAt(l: Limits, k: Counters, calls: seq<ToolCall>, world: World, i: nat): Trouble
    requires i < |calls|
  {
    if world.cancelled(k.checks + 2 * i) then StopsBefore(Cancelled)
    else if k.count + i >= l.maxToolCalls then StopsBefore(LimitReached)
    else if Repeated(k, calls, i, l.duplicateThreshold) then StopsBefore(Running)
    else if AnswerTo(k, calls, world, i).Wait? then Asks
    else if Failing(k, calls, world, i, l.maxFailures) then StopsAfter(Running)
    else if world.cancelled(k.checks + 2 * i + 1) then StopsAfter(Cancelled)
    else NoTrouble
  }

  /** Seen from the second call, the first one is part of what came before. */
  lemma RepeatedShifts(k: Counters, k': Counters, calls: seq<ToolCall>, i: nat, times: nat)
    requires i + 1 < |calls|
    requires k'.fingerprint == Some(Fingerprint(calls[0])) && k'.duplicates == Repeats(k, calls[0])
    ensures Repeated(k, calls, i + 1, times) <==> Repeated(k', calls[1..], i, times)
  {
    var rest := calls[1..];
    assert forall j :: 0 <= j <= i ==> rest[j] == calls[j + 1];
    if Repeated(k, calls, i + 1, times) && times > i + 1 {
      assert Same(calls[0], calls[i + 1]);
    }
    if Repeated(k', rest, i, times) {
      forall j | 0 < j <= i + 1 && (i + 1 - times < j || times > i + 1) ensures Same(calls[j], calls[i + 1]) {
        assert calls[j] == rest[j - 1];
      }
    }
  }

  lemma FailingShifts(k: Counters, k': Counters, calls: seq<ToolCall>, world: World, i: nat, times: nat)
    requires i + 1 < |calls| && k'.executions == k.executions + 1
    requires k'.failures == FailuresAfter(k.failures, AnswerTo(k, calls, world, 0))
    ensures Failing(k, calls, world, i + 1, times) <==> Failing(k', calls[1..], world, i, times)
  {
    var rest := calls[1..];
    assert forall j :: 0 <= j <= i ==> AnswerTo(k', rest, world, j) == AnswerTo(k, calls, world, j + 1);
    if Failing(k, calls, world, i + 1, times) && times > i + 1 {
      assert !Succeeded(AnswerTo(k, calls, world, 0));
    }
    if Failing(k', rest, world, i, times) {
      forall j | 0 < j <= i + 1 && (i + 1 - times < j || times > i + 1)
        ensures !Succeeded(AnswerTo(k, calls, world, j))
      {
        assert AnswerTo(k, calls, world, j) == AnswerTo(k', rest, world, j - 1);
      }
    }
  }

  lemma TroubleShifts(l: Limits, k: Counters, calls: seq<ToolCall>, world: World, i: nat)
    requires i + 1 < |calls| && CallEndOf(l, k, calls[0], false, world).Answered?
    ensures TroubleAt(l, k, calls, world, i + 1)
         == TroubleAt(l, CallEndOf(l, k, calls[0], false, world).counters, calls[1..], world, i)
  {
    var k' := CallEndOf(l, k, calls[0], false, world).counters;
    RepeatedShifts(k, k', calls, i, l.duplicateThreshold);
    FailingShifts(k, k', calls, world, i, l.maxFailures);
    assert AnswerTo(k', calls[1..], world, i) == AnswerTo(k, calls, world, i + 1);
  }

  /** The batch has no trouble before call `i`. */
  ghost predicate FineUntil(l: Limits, k: Counters, calls: seq<ToolCall>, world: World, i: nat)
    requires i <= |calls|
  {
    forall j :: 0 <= j < i ==> TroubleAt(l, k, calls, world, j).NoTrouble?
  }

  /** How a batch ends that has its first trouble at call `i`. */
  ghost predicate EndsAt(end: BatchEnd, k: Counters, calls: seq<ToolCall>, world: World, i: nat, trouble: Trouble)
    requires i < |calls|
  {
    match trouble
    case NoTrouble => false
    case StopsBefore(state) =>
      end.Stopped? && end.state == state && end.counters.executions == k.executions + i
    case StopsAfter(state) =>
      end.Stopped? && end.state == state && end.counters.executions == k.executions + i + 1
    case Asks =>
      && end.Suspended? && end.waiting == calls[i] && end.remaining == calls[i + 1..]
      && end.wait == AnswerTo(k, calls, world, i) && end.counters.executions == k.executions + i + 1
  }

  lemma {:induction false} FirstCall(l: Limits, k: Counters, calls: seq<ToolCall>, world: World)
    requires calls != []
    ensures CallEndOf(l, k, calls[0], false, world).Answered? <==> TroubleAt(l, k, calls, world, 0).NoTrouble?
    ensures !TroubleAt(l, k, calls, world, 0).NoTrouble? ==>
              EndsAt(BatchEndOf(l, k, calls, None, world), k, calls, world, 0, TroubleAt(l, k, calls, world, 0))
  {
    assert Repeated(k, calls, 0, l.duplicateThreshold) <==> Repeats(k, calls[0]) >= l.duplicateThreshold;
    assert AnswerTo(k, calls, world, 0) == world.tools(k.executions, calls[0], false);
    assert Failing(k, calls, world, 0, l.maxFailures) <==>
      !Succeeded(AnswerTo(k, calls, world, 0)) && k.failures + 1 >= l.maxFailures;
  }

  /** A batch passes exactly when none of its calls is in trouble, */
  lemma {:induction false} BatchPassesIff(l: Limits, k: Counters, calls: seq<ToolCall>, world: World)
    ensures BatchEndOf(l, k, calls, None, world).Passed? <==> FineUntil(l, k, calls, world, |calls|)
    decreases |calls|
  {
    if calls != [] {
      FirstCall(l, k, calls, world);
      if TroubleAt(l, k, calls, world, 0).NoTrouble? {
        var k' := CallEndOf(l, k, calls[0], false, world).counters;
        BatchPassesIff(l, k', calls[1..], world);
        FineShifts(l, k, calls, world, |calls| - 1);
      }
    }
  }

  lemma FineShifts(l: Limits, k: Counters, calls: seq<ToolCall>, world: World, i: nat)
    requires i < |calls| && CallEndOf(l, k, calls[0], false, world).Answered?
    ensures FineUntil(l, k, calls, world, i + 1)
       <==> FineUntil(l, CallEndOf(l, k, calls[0], false, world).counters, calls[1..], world, i)
  {
    FirstCall(l, k, calls, world);
    var k' := CallEndOf(l, k, calls[0], false, world).counters;
    forall j | 0 <= j < i
      ensures TroubleAt(l, k, calls, world, j + 1) == TroubleAt(l, k', calls[1..], world, j)
    {
      TroubleShifts(l, k, calls, world, j);
    }
    if FineUntil(l, k', calls[1..], world, i) {
      forall j | 0 <= j < i + 1 ensures TroubleAt(l, k, calls, world, j).NoTrouble? {
        if j > 0 { TroubleShifts(l, k, calls, world, j - 1); }
      }
    }
  }

  /** and otherwise ends as the first call in trouble says, with every call before it executed once. */
  lemma {:induction false} BatchEndsAtFirstTrouble(l: Limits, k: Counters, calls: seq<ToolCall>, world: World, i: nat)
    requires i < |calls| && FineUntil(l, k, calls, world, i) && !TroubleAt(l, k, calls, world, i).NoTrouble?
    ensures EndsAt(BatchEndOf(l, k, calls, None, world), k, calls, world, i, TroubleAt(l, k, calls, world, i))
    decreases |calls|
  {
    FirstCall(l, k, calls, world);
    if i > 0 {
      var k' := CallEndOf(l, k, calls[0], false, world).counters;
      FineShifts(l, k, calls, world, i - 1);
      TroubleShifts(l, k, calls, world, i - 1);
      BatchEndsAtFirstTrouble(l, k', calls[1..], world, i - 1);
      assert calls[1..][i..] == calls[i + 1..];
      assert AnswerTo(k', calls[1..], world, i - 1) == AnswerTo(k, calls, world, i);
    }
  }

  /** After a batch that passed, the counters say what the next one must know: how often the last call was
      repeated, and how many answers in a row have failed. */
  lemma {:induction false} CountersAfterBatch(
    l: Limits, k: Counters, calls: seq<ToolCall>, world: World, times: nat)
    requires calls != [] && BatchEndOf(l, k, calls, None, world).Passed?
    ensures var k', last := BatchEndOf(l, k, calls, None, world).counters, |calls| - 1;
            && k'.count == k.count + |calls| && k'.executions == k.executions + |calls|
            && k'.checks == k.checks + 2 * |calls|
            && k'.fingerprint == Some((calls[last].name, calls[last].arguments))
            && (k'.duplicates >= times <==> Repeated(k, calls, last, times))
            && (0 < times <= k'.failures ==> Failing(k, calls, world, last, times))
            && (k'.failures < times ==> !Failing(k, calls, world, last, times))
    decreases |calls|
  {
    var k1 := CallEndOf(l, k, calls[0], false, world).counters;
    if |calls| == 1 {
      assert calls[1..] == [];
      assert AnswerTo(k, calls, world, 0) == world.tools(k.executions, calls[0], false);
    } else {
      CountersAfterBatch(l, k1, calls[1..], world, times);
      RepeatedShifts(k, k1, calls, |calls| - 2, times);
      FailingShifts(k, k1, calls, world, |calls| - 2, times);
    }
  }

  /** A batch that passes holds no call that repeats the ones before it as often as is not allowed, and no
      run of failures that long. */
  lemma {:induction false} PassedBatchesAreFree(l: Limits, k: Counters, calls: seq<ToolCall>, world: World, i: nat)
    requires BatchEndOf(l, k, calls, None, world).Passed? && i < |calls|
    ensures !Repeated(k, calls, i, l.duplicateThreshold) && !Failing(k, calls, world, i, l.maxFailures)
    ensures k.count + i < l.maxToolCalls
  {
    BatchPassesIff(l, k, calls, world);
    assert TroubleAt(l, k, calls, world, i).NoTrouble?;
  }

  ghost predicate FirstRepeated(k: Counters, calls: seq<ToolCall>, i: nat, times: nat)
    requires i < |calls|
  {
    Repeated(k, calls, i, times) && forall j :: 0 <= j < i ==> !Repeated(k, calls, j, times)
  }

  ghost predicate FirstFailing(k: Counters, calls: seq<ToolCall>, world: World, i: nat, times: nat)
    requires i < |calls|
  {
    Failing(k, calls, world, i, times) && forall j :: 0 <= j < i ==> !Failing(k, calls, world, j, times)
  }

  /** Where nobody cancels, tools succeed and there is room, a batch is redirected at the first call that
      repeats too often, which is not executed, and only then. */
  lemma {:induction false} RepetitionIsStopped(l: Limits, k: Counters, calls: seq<ToolCall>, world: World)
    requires Calm(world) && k.count + |calls| <= l.maxToolCalls
    requires forall i :: 0 <= i < |calls| ==> Succeeded(AnswerTo(k, calls, world, i))
    ensures var end := BatchEndOf(l, k, calls, None, world);
            && (end.Passed? <==> forall i :: 0 <= i < |calls| ==> !Repeated(k, calls, i, l.duplicateThreshold))
            && (forall i :: 0 <= i < |calls| && FirstRepeated(k, calls, i, l.duplicateThreshold) ==>
                  end.Stopped? && end.state.Running? && end.counters.executions == k.executions + i)
  {
    forall i | 0 <= i < |calls|
      ensures TroubleAt(l, k, calls, world, i)
           == if Repeated(k, calls, i, l.duplicateThreshold) then StopsBefore(Running) else NoTrouble
    {
      assert Succeeded(AnswerTo(k, calls, world, i));
    }
    BatchPassesIff(l, k, calls, world);
    forall i | 0 <= i < |calls| && FirstRepeated(k, calls, i, l.duplicateThreshold)
      ensures EndsAt(BatchEndOf(l, k, calls, None, world), k, calls, world, i, StopsBefore(Running))
    {
      BatchEndsAtFirstTrouble(l, k, calls, world, i);
    }
  }

  /** The same for failures: the batch is redirected after the first answer that completes a run of failures
      that is too long, and only then. */
  lemma {:induction false} FailuresAreStopped(l: Limits, k: Counters, calls: seq<ToolCall>, world: World)
    requires Calm(world) && k.count + |calls| <= l.maxToolCalls
    requires forall i :: 0 <= i < |calls| ==>
               AnswerTo(k, calls, world, i).Answer? && !Repeated(k, calls, i, l.duplicateThreshold)
    ensures var end := BatchEndOf(l, k, calls, None, world);
            && (end.Passed? <==> forall i :: 0 <= i < |calls| ==> !Failing(k, calls, world, i, l.maxFailures))
            && (forall i :: 0 <= i < |calls| && FirstFailing(k, calls, world, i, l.maxFailures) ==>
                  end.Stopped? && end.state.Running? && end.counters.executions == k.executions + i + 1)
  {
    forall i | 0 <= i < |calls|
      ensures TroubleAt(l, k, calls, world, i)
           == if Failing(k, calls, world, i, l.maxFailures) then StopsAfter(Running) else NoTrouble
    {
      assert AnswerTo(k, calls, world, i).Answer? && !Repeated(k, calls, i, l.duplicateThreshold);
    }
    BatchPassesIff(l, k, calls, world);
    forall i | 0 <= i < |calls| && FirstFailing(k, calls, world, i, l.maxFailures)
      ensures EndsAt(BatchEndOf(l, k, calls, None, world), k, calls, world, i, StopsAfter(Running))
    {
      BatchEndsAtFirstTrouble(l, k, calls, world, i);
    }
  }

  /** Over a whole run: no finished batch holds as many identical calls in a row as is not allowed. */
  lemma {:induction false} FinishedBatchesDoNotRepeat(l: Limits, steps: nat, k: Counters, world: World, b: nat, i: nat)
    requires b < |RunFate(l, steps, k, world).finished| && i < |RunFate(l, steps, k, world).finished[b]|
    requires l.duplicateThreshold <= i + 1
    ensures var calls := RunFate(l, steps, k, world).finished[b];
            exists j :: 0 <= j && i - l.duplicateThreshold < j <= i && !Same(calls[j], calls[i])
    decreases if l.maxSteps > steps then l.maxSteps - steps else 0
  {
    var k1 := k.(checks := k.checks + 1);
    var k2 := k1.(checks := k1.checks + 1);
    assert RunFate(l, steps, k, world) == AskFate(l, steps, k1, world);
    var calls := world.model(steps + 1).value;
    var end := BatchEndOf(l, k2, calls, None, world);
    assert AskFate(l, steps, k1, world) == FateAfter(l, steps + 1, end, calls, world);
    if end.Passed? && b == 0 {
      PassedBatchesAreFree(l, k2, calls, world, i);
    } else {
      FinishedBatchesDoNotRepeat(l, steps + 1, end.counters, world, if end.Passed? then b - 1 else b, i);
    }
  }

  /** A confirmation that no call of the batch carries changes nothing. */
  lemma {:induction false} ConfirmationIsForItsCall(
    l: Limits, k: Counters, calls: seq<ToolCall>, id: string, world: World)
    requires forall i :: 0 <= i < |calls| ==> calls[i].id != id
    ensures BatchEndOf(l, k, calls, Some(id), world) == BatchEndOf(l, k, calls, None, world)
    decreases |calls|
  {
    if calls != [] {
      var one := CallEndOf(l, k, calls[0], false, world);
      if one.Answered? { ConfirmationIsForItsCall(l, one.counters, calls[1..], id, world); }
    }
  }

  // ---------------------------------------------------------------- a human's answer

  ghost predicate Calm(world: World) {
    forall n :: !world.cancelled(n)
  }

  datatype Verdict = Passes | Waits | Stops

  function VerdictOf(end: BatchEnd): Verdict {
    match end
    case Passed(_) => Passes
    case Suspended(_, _, _, _) => Waits
    case Stopped(_, _) => Stops
  }

  /** The rest of a batch after a call that a human answered with `result`; `k` are the counters after the
      call was admitted and executed. */
  function ResumedVerdict(l: Limits, k: Counters, rest: seq<ToolCall>, world: World): Verdict {
    VerdictOf(BatchEndOf(l, k, rest, None, world))
  }

  /** The same when the tool itself gives that answer. */
  function StraightVerdict(l: Limits, k: Counters, result: ToolResult, rest: seq<ToolCall>, world: World): Verdict {
    match EndOfAnswer(l, k, result, world)
    case Answered(_, k') => VerdictOf(BatchEndOf(l, k', rest, None, world))
    case _ => Stops
  }

  /** When nobody cancels, it does not matter how often that was checked. */
  lemma {:induction false} ChecksDoNotMatter(l: Limits, k: Counters, calls: seq<ToolCall>, world: World, checks: nat)
    requires Calm(world)
    ensures VerdictOf(BatchEndOf(l, k, calls, None, world))
         == VerdictOf(BatchEndOf(l, k.(checks := checks), calls, None, world))
    decreases |calls|
  {
    if calls != [] {
      var k' := k.(checks := checks);
      var one, two := CallEndOf(l, k, calls[0], false, world), CallEndOf(l, k', calls[0], false, world);
      if one.Answered? {
        assert two.Answered? && one.counters.(checks := two.counters.checks) == two.counters;
        ChecksDoNotMatter(l, one.counters, calls[1..], world, two.counters.checks);
      }
    }
  }

  /** A human's answer is not shown to the no-progress detector. Interrupted and uninterrupted batch agree
      under all limits, on whatever calls remain, in every world in which nobody cancels, if and only if the
      answer is a success and no failure had been counted. */
  lemma ResumingAgreesIff(k: Counters, result: ToolResult)
    requires result.Answer?
    ensures (forall l, rest, world :: Calm(world) ==>
               ResumedVerdict(l, k, rest, world) == StraightVerdict(l, k, result, rest, world))
       <==> result.success && k.failures == 0
  {
    if result.success && k.failures == 0 {
      forall l, rest, world | Calm(world)
        ensures ResumedVerdict(l, k, rest, world) == StraightVerdict(l, k, result, rest, world)
      {
        ChecksDoNotMatter(l, k, rest, world, k.checks + 1);
      }
    } else {
      var l, rest, world := HumanAnswerIsNotCounted(k, result);
    }
  }

  /** Where they disagree: one failure more than counted is too many. If the answer is a failure itself, the
      uninterrupted batch stops at it; if it is a success, it wipes the count out, and a call that fails
      next stops the interrupted batch only. */
  lemma HumanAnswerIsNotCounted(k: Counters, result: ToolResult) returns (l: Limits, rest: seq<ToolCall>, world: World)
    requires result.Answer? && !(result.success && k.failures == 0)
    ensures Calm(world) && ResumedVerdict(l, k, rest, world) != StraightVerdict(l, k, result, rest, world)
  {
    l := Limits(1, k.count + 1, k.duplicates + 2, k.failures + 1);
    world := World(n => None, (n: nat, call: ToolCall, given: bool) => Answer(false, ""), n => false);
    if result.success {
      var b := ToolCall("2", "work", "");
      rest := [b];
      assert [b][1..] == [];
      assert CallEndOf(l, k, b, false, world).Halted?;
      var k' := AfterAnswer(k, result);
      var one := CallEndOf(l, k', b, false, world);
      assert one.Answered? && BatchEndOf(l, one.counters, [], None, world).Passed?;
      assert BatchEndOf(l, k', rest, None, world).Passed?;
    } else {
      rest := [];
    }
  }
}
