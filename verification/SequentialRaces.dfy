/** The sequential strategy among other writers of its run. Before each access to the repository, and
    between the read and the commit of a lifecycle call, others may commit any transitions; the lease may be
    lost at any commit. A transport starts in the same step as the commit that precedes it. */
module SequentialRaces {
  import opened Common
  import opened Lifecycle
  import opened Budget
  import opened Sequential

  /** A lifecycle call is refused by the aggregate, or its commit meets a newer revision or a lost lease. */
  datatype CallError = Refused(cause: FlowError) | Conflict

  datatype Ending = Result(state: FlowState) | Exception

  datatype World = World(
    others: nat -> seq<(Command, Time)>,
    lost: nat -> bool,
    clock: nat -> Time,
    ids: nat -> Id,
    replies: (nat, Invocation) -> Reply)

  ghost predicate WorldOk(seqOf: Id -> nat, world: World) {
    && (forall n, i :: 0 <= i < |world.others(n)| ==> Authentic(seqOf, world.others(n)[i].0))
    && (forall k :: seqOf(world.ids(k)) == k)
    && (forall n, inv :: world.replies(n, inv).Returned? ==> ValidPayload(world.replies(n, inv).result))
  }

  /** Nobody else writes, and the lease is kept. */
  ghost predicate Quiet(world: World) {
    forall n :: world.others(n) == [] && !world.lost(n)
  }

  /** `b` is `a`, or came after it; what has ended stays as it is. */
  ghost predicate Later(a: FlowState, b: FlowState) {
    && a.revision <= b.revision && (a.revision == b.revision ==> a == b)
    && |a.invocations| <= |b.invocations| && a.budget == b.budget && a.definition == b.definition
    && (IsTerminal(a.status) ==> a == b)
  }

  lemma LaterIsTransitive(a: FlowState, b: FlowState, c: FlowState)
    requires Later(a, b) && Later(b, c)
    ensures Later(a, c)
  {}

  lemma AppliedIsLater(seqOf: Id -> nat, c: Command, s: FlowState, now: Time)
    requires Inv(seqOf, s) && Apply(c, s, now).Ok?
    ensures Later(s, Apply(c, s, now).value) && !IsTerminal(s.status)
  {
    ApplySucceeds(seqOf, c, s, now);
  }

  /** Every transition of an ended run is refused in the same way. */
  lemma EndedRefuses(c: Command, s: FlowState, now: Time)
    requires IsTerminal(s.status)
    ensures Apply(c, s, now) == Err(InvalidTransition)
  {}

  class RacingFlow {
    const definition: FlowDefinition
    /** The snapshot in the repository. */
    var stored: FlowState
    var accesses: nat
    /** The stored run at the start of each transport, and the last reply that the current call got. */
    ghost var log: seq<FlowState>
    ghost var reply: Option<Reply>
    /** How often others have come between, or the lease was lost. */
    ghost var disturbances: nat

    ghost predicate Valid(seqOf: Id -> nat)
      reads this
    {
      && Inv(seqOf, stored)
      && forall i :: 0 <= i < |log| ==> log[i].status.Running? && log[i].active.Some? && Later(log[i], stored)
    }

    constructor (definition: FlowDefinition, runId: Id, now: Time, ghost seqOf: Id -> nat)
      ensures disturbances == 0 && reply.None?
      ensures Valid(seqOf) && this.definition == definition && stored == Create(definition, runId, now) && log == []
    {
      this.definition, stored, accesses, log := definition, Create(definition, runId, now), 0, [];
      reply, disturbances := None, 0;
      new;
      CreateIsValid(seqOf, definition, runId, now);
    }

    /** The run moves on, and transports stay in its past. */
    lemma StaysValid(seqOf: Id -> nat, before: FlowState)
      requires Inv(seqOf, stored) && Later(before, stored)
      requires forall i :: 0 <= i < |log| ==> log[i].status.Running? && log[i].active.Some? && Later(log[i], before)
      ensures Valid(seqOf)
    {
      forall i | 0 <= i < |log| ensures Later(log[i], stored) { LaterIsTransitive(log[i], before, stored); }
    }

    /** Disturbances are only counted, and need a world in which they occur. */
    ghost predicate Since(before: nat, world: World)
      reads this`disturbances
    {
      before <= disturbances && (Quiet(world) ==> disturbances == before)
    }

    /** Whatever the others do before our next access. */
    method Others(world: World, ghost seqOf: Id -> nat)
      requires Valid(seqOf) && WorldOk(seqOf, world)
      modifies this`stored, this`accesses, this`disturbances
      ensures Valid(seqOf) && Later(old(stored), stored)
      ensures disturbances == old(disturbances) + if world.others(old(accesses)) == [] then 0 else 1
      ensures world.others(old(accesses)) == [] ==> stored == old(stored)
    {
      var moves := world.others(accesses);
      ghost var n := accesses;
      if moves != [] { disturbances := disturbances + 1; }
      accesses := accesses + 1;
      for i := 0 to |moves|
        invariant Inv(seqOf, stored) && Later(old(stored), stored) && (moves == [] ==> stored == old(stored))
        invariant disturbances == old(disturbances) + if moves == [] then 0 else 1
      {
        ghost var before := stored;
        assert Authentic(seqOf, world.others(n)[i].0);
        var next := Apply(moves[i].0, stored, moves[i].1);
        if next.Ok? {
          ApplyKeepsInvariant(seqOf, moves[i].0, stored, moves[i].1);
          AppliedIsLater(seqOf, moves[i].0, stored, moves[i].1);
          stored := next.value;
          LaterIsTransitive(old(stored), before, stored);
        }
      }
      StaysValid(seqOf, old(stored));
    }

    /** A lifecycle call: read, compute, commit. */
    method Perform(c: Command, now: Time, world: World, ghost seqOf: Id -> nat)
      returns (r: Result<FlowState, CallError>)
      requires Valid(seqOf) && WorldOk(seqOf, world) && Authentic(seqOf, c)
      modifies this`stored, this`accesses, this`disturbances
      ensures Valid(seqOf) && Later(old(stored), stored)
      ensures r.Ok? ==>
                && r.value == stored && !IsTerminal(old(stored).status)
                && exists s :: Later(old(stored), s) && Inv(seqOf, s) && Apply(c, s, now) == Ok(stored)
      ensures IsTerminal(old(stored).status) ==> r == Err(Refused(InvalidTransition)) && stored == old(stored)
      ensures Since(old(disturbances), world)
      ensures disturbances == old(disturbances) ==>
                match Apply(c, old(stored), now)
                case Ok(next) => r == Ok(next) && stored == next
                case Err(cause) => r == Err(Refused(cause)) && stored == old(stored)
    {
      Others(world, seqOf);
      var current := stored;
      if IsTerminal(current.status) { EndedRefuses(c, current, now); }
      var next := Apply(c, current, now);
      if next.Err? { return Err(Refused(next.error)); }
      Others(world, seqOf);
      LaterIsTransitive(old(stored), current, stored);
      if stored.revision != current.revision || world.lost(accesses) {
        if world.lost(accesses) { disturbances := disturbances + 1; }
        return Err(Conflict);
      }
      ApplyKeepsInvariant(seqOf, c, current, now);
      AppliedIsLater(seqOf, c, current, now);
      ghost var before := stored;
      stored := next.value;
      LaterIsTransitive(old(stored), before, stored);
      StaysValid(seqOf, before);
      return Ok(next.value);
    }

    /** `_terminal_after_race` */
    method TerminalAfterRace(world: World, ghost seqOf: Id -> nat) returns (ended: Option<FlowState>)
      requires Valid(seqOf) && WorldOk(seqOf, world)
      modifies this`stored, this`accesses, this`disturbances
      ensures Valid(seqOf) && Later(old(stored), stored)
      ensures ended == if IsTerminal(stored.status) then Some(stored) else None
      ensures Since(old(disturbances), world) && (disturbances == old(disturbances) ==> stored == old(stored))
    {
      Others(world, seqOf);
      return if IsTerminal(stored.status) then Some(stored) else None;
    }

    /** What a call that ends here returns: the run as it is stored, ended or waiting. */
    ghost predicate Told(e: Ending)
      reads this
    {
      e.Result? ==> e.state == stored && (IsTerminal(stored.status) || stored.status.Waiting?)
    }

    /** Ends the run, unless somebody else has: then that end is the answer. `_transport_failure` and
        `_reach_budget_limit` are of this kind. */
    method EndUnlessEnded(how: Termination, error: string, now: Time, world: World, ghost seqOf: Id -> nat)
      returns (e: Ending)
      requires Valid(seqOf) && WorldOk(seqOf, world)
      modifies this`stored, this`accesses, this`disturbances
      ensures Valid(seqOf) && Later(old(stored), stored) && Told(e)
      ensures IsTerminal(old(stored).status) ==> e == Result(old(stored)) && stored == old(stored)
      ensures Since(old(disturbances), world)
      ensures disturbances == old(disturbances) && !IsBlank(error) ==> e.Result? && IsTerminal(stored.status)
    {
      ghost var first := stored;
      var ended := TerminalAfterRace(world, seqOf);
      if ended.Some? { return Result(ended.value); }
      ghost var second := stored;
      if !IsBlank(error) { EndingSucceeds(seqOf, stored, how, error, now); }
      var r := Perform(CmdTerminate(how, error), now, world, seqOf);
      LaterIsTransitive(first, second, stored);
      if r.Err? { return Exception; }
      TerminatedIsTerminal(how, error, stored, now);
      return Result(r.value);
    }

    /** A transport is under way, and every agent before it has completed. */
    ghost predicate InTransport()
      reads this
    {
      var n := |stored.invocations|;
      && stored.status.Running? && stored.active.Some? && stored.definition == definition.ref
      && (forall k :: 0 <= k < n - 1 ==> stored.invocations[k].status.Completed?)
    }

    /** What follows a transport that started from the snapshot `known`. None means that the agent completed
        and the next one may start. */
    method HandleReply(reply: Reply, known: FlowState, agentKey: string, operation: string, now: Time, world: World,
                       ghost seqOf: Id -> nat) returns (e: Option<Ending>)
      requires Valid(seqOf) && WorldOk(seqOf, world) && (reply.Returned? ==> ValidPayload(reply.result))
      modifies this`stored, this`accesses, this`disturbances
      ensures Valid(seqOf) && Later(old(stored), stored) && (e.Some? ==> Told(e.value))
      ensures e.None? ==> reply.Returned? && reply.result.status.ResCompleted?
      ensures IsTerminal(old(stored).status) ==>
                && stored == old(stored) && e.Some?
                && (reply.Returned? || reply.Raised? ==> e == Some(Result(stored)))
                && (reply.TimedOut? && known.budget.timeout.Some? && Consumable(known) ==> e == Some(Result(stored)))
                && (reply.TaskCancelled? ==> e == Some(Exception))
      ensures Since(old(disturbances), world)
      ensures disturbances == old(disturbances) && old(InTransport())
              && (Consumable(known) <==> Consumable(old(stored))) && known.budget == old(stored).budget ==>
                && (e.None? ==> Between(stored) && LastResult(stored) == Some(reply.result)
                                && |stored.invocations| == |old(stored.invocations)|)
                && (e.Some? ==> (e.value.Exception? <==> Escapes(stored, Some(reply))))
    {
      match reply
      case TimedOut =>
        if known.budget.timeout.None? || !Consumable(known) { return Some(Exception); }
        var f := EndUnlessEnded(ByLimit, LimitMessage(Timeout), now, world, seqOf);
        return Some(f);
      case TaskCancelled =>
        EndingSucceeds(seqOf, stored, ByInterrupt, CancelMessage(operation), now);
        var _ := Perform(CmdTerminate(ByInterrupt, CancelMessage(operation)), now, world, seqOf);
        return Some(Exception);
      case Raised(message) =>
        var f := EndUnlessEnded(ByFailure, FailureMessage(agentKey, operation, message), now, world, seqOf);
        return Some(f);
      case Returned(r) =>
        e := HandleResult(r, agentKey, operation, now, world, seqOf);
    }

    method HandleResult(r: AgentResult, agentKey: string, operation: string, now: Time, world: World,
                        ghost seqOf: Id -> nat) returns (e: Option<Ending>)
      requires Valid(seqOf) && WorldOk(seqOf, world) && ValidPayload(r)
      modifies this`stored, this`accesses, this`disturbances
      ensures Valid(seqOf) && Later(old(stored), stored) && (e.Some? ==> Told(e.value))
      ensures e.None? ==> r.status.ResCompleted?
      ensures IsTerminal(old(stored).status) ==> stored == old(stored) && e == Some(Result(stored))
      ensures Since(old(disturbances), world)
      ensures disturbances == old(disturbances) && old(InTransport()) ==>
                && (e.None? ==> Between(stored) && LastResult(stored) == Some(r)
                                && |stored.invocations| == |old(stored.invocations)|)
                && (e.Some? ==> (e.value.Exception? <==> Escapes(stored, Some(Returned(r)))))
    {
      ghost var first := stored;
      if InTransport() { SettlesLast(seqOf, stored, r, now); }
      var settled := Perform(CmdSettle(r), now, world, seqOf);
      ghost var second := stored;
      if settled.Ok? {
        e := Judge(r, now, world, seqOf);
        LaterIsTransitive(first, second, stored);
        return;
      }
      if settled.error.Conflict? { return Some(Exception); }
      if settled.error.cause.InvalidTransition? {
        var ended := TerminalAfterRace(world, seqOf);
        LaterIsTransitive(first, second, stored);
        return Some(if ended.Some? then Result(ended.value) else Exception);
      }
      var message := FailureMessage(agentKey, operation + " returned an invalid result", "ValueError");
      var f := EndUnlessEnded(ByFailure, message, now, world, seqOf);
      LaterIsTransitive(first, second, stored);
      return Some(f);
    }

    /** `after_transport` and `_handle_outcome`, after a settlement that was accepted. */
    method Judge(r: AgentResult, now: Time, world: World, ghost seqOf: Id -> nat) returns (e: Option<Ending>)
      requires Valid(seqOf) && WorldOk(seqOf, world)
      requires exists s, t :: Inv(seqOf, s) && Apply(CmdSettle(r), s, t) == Ok(stored)
      modifies this`stored, this`accesses, this`disturbances
      ensures Valid(seqOf) && Later(old(stored), stored) && (e.Some? ==> Told(e.value))
      ensures e.None? ==> r.status.ResCompleted? && stored == old(stored)
      ensures Since(old(disturbances), world)
      ensures disturbances == old(disturbances) && e.Some? ==>
                (e.value.Exception? <==> Escapes(stored, Some(Returned(r))))
    {
      var checked := AfterTransport(stored, now);
      if checked.None? { return Some(Exception); }
      if checked.value.Some? {
        var f := EndUnlessEnded(ByLimit, LimitMessage(checked.value.value.kind), now, world, seqOf);
        return Some(f);
      }
      if r.status.ResCompleted? { return None; }
      if r.status.ResWaiting? { return Some(Result(stored)); }
      if !IsBlank(OutcomeError(r)) { EndingSucceeds(seqOf, stored, EndingOf(r.status), OutcomeError(r), now); }
      var ended := Perform(CmdTerminate(EndingOf(r.status), OutcomeError(r)), now, world, seqOf);
      if ended.Err? { return Some(Exception); }
      TerminatedIsTerminal(EndingOf(r.status), OutcomeError(r), stored, now);
      return Some(Result(ended.value));
    }

    /** The commit that precedes a transport, and its start. */
    method Launch(c: Command, now: Time, world: World, ghost seqOf: Id -> nat) returns (r: Result<FlowState, CallError>)
      requires Valid(seqOf) && WorldOk(seqOf, world) && Authentic(seqOf, c) && (c.CmdBegin? || c.CmdResume?)
      modifies this`stored, this`accesses, this`disturbances, this`log
      ensures Valid(seqOf) && Later(old(stored), stored)
      ensures r.Ok? ==> r.value == stored && log == old(log) + [stored] && stored.invocations != []
      ensures r.Ok? && c.CmdBegin? ==> |stored.invocations| == c.request.sequence
      ensures r.Err? ==> log == old(log)
      ensures IsTerminal(old(stored).status) ==> r.Err? && stored == old(stored)
      ensures Since(old(disturbances), world)
      ensures disturbances == old(disturbances) ==>
                match Apply(c, old(stored), now)
                case Ok(next) => r == Ok(next) && stored == next
                case Err(cause) => r == Err(Refused(cause)) && stored == old(stored)
    {
      r := Perform(c, now, world, seqOf);
      if r.Ok? {
        ghost var s :| Inv(seqOf, s) && Apply(c, s, now) == Ok(stored);
        if s.active.Some? { ActiveIsLast(seqOf, s); }
        log := log + [stored];
      }
    }

    /** The situation in which `_advance` is called, and finds itself after each agent: the snapshot is the
        stored one, everybody so far has completed and `previous` is the last result. */
    ghost predicate Proper(local: FlowState, previous: Option<AgentResult>)
      reads this
    {
      && local == stored && Between(stored) && stored.definition == definition.ref && UniqueKeys(definition)
      && definition.agents != [] && previous == LastResult(stored) && Done(reply)
      && |stored.invocations| <= |definition.agents| && (stored.invocations != [] ==> previous.Some?)
    }

    /** `_advance` from the snapshot `local`, which may be older than what is stored. A run that has ended
        gets no transport any more; what the call returns is what is stored. */
    method Advance(local: FlowState, flow: FlowInput, first: Option<AgentResult>, world: World, ghost seqOf: Id -> nat)
      returns (e: Ending)
      requires Valid(seqOf) && WorldOk(seqOf, world) && Later(local, stored)
      modifies this
      ensures Valid(seqOf) && Later(old(stored), stored) && Told(e)
      ensures old(log) <= log && |log| - |old(log)| <= |definition.agents|
      ensures IsTerminal(old(stored).status) ==> stored == old(stored) && log == old(log)
      ensures Since(old(disturbances), world)
      ensures old(reply).Some? ==> reply.Some?
      ensures disturbances == old(disturbances) && old(Proper(local, first)) ==>
                (e.Exception? <==> Escapes(stored, reply))
    {
      var state, previous := local, first;
      ghost var rounds := 0;
      ghost var proper := Proper(local, first);
      while |state.invocations| < |definition.agents|
        invariant Valid(seqOf) && Later(old(stored), stored)
        invariant old(log) <= log && |log| - |old(log)| <= rounds <= |definition.agents|
        invariant rounds <= |state.invocations| && Since(old(disturbances), world)
        invariant old(reply).Some? ==> reply.Some?
        invariant proper && disturbances == old(disturbances) ==> Proper(state, previous)
        invariant IsTerminal(old(stored).status) ==> stored == old(stored) && log == old(log)
        decreases |definition.agents| - |state.invocations|
      {
        ghost var before := stored;
        var done, next, result := AdvanceOnce(state, flow, previous, world, seqOf);
        LaterIsTransitive(old(stored), before, stored);
        if done.Some? { return done.value; }
        state, previous, rounds := next, Some(result), rounds + 1;
      }
      if previous.None? { return Exception; }
      ghost var before := stored;
      if proper && disturbances == old(disturbances) {
        CompletesBetween(stored, OrElse(previous.value.output, ""), world.clock(accesses));
      }
      var r := Perform(CmdComplete(OrElse(previous.value.output, "")), world.clock(accesses), world, seqOf);
      LaterIsTransitive(old(stored), before, stored);
      return if r.Ok? then Result(r.value) else Exception;
    }

    /** One agent: the check, the commit, the transport and what follows it. */
    method AdvanceOnce(state: FlowState, flow: FlowInput, previous: Option<AgentResult>, world: World,
                       ghost seqOf: Id -> nat) returns (done: Option<Ending>, next: FlowState, result: AgentResult)
      requires Valid(seqOf) && WorldOk(seqOf, world) && |state.invocations| < |definition.agents|
      modifies this
      ensures Valid(seqOf) && Later(old(stored), stored) && (done.Some? ==> Told(done.value))
      ensures old(log) <= log && |log| <= |old(log)| + 1
      ensures done.None? ==> |next.invocations| > |state.invocations|
      ensures IsTerminal(old(stored).status) ==> stored == old(stored) && log == old(log) && done.Some?
      ensures Since(old(disturbances), world)
      ensures old(reply).Some? ==> reply.Some?
      ensures disturbances == old(disturbances) && old(Proper(state, previous)) && done.None? ==>
                Proper(next, Some(result))
      ensures disturbances == old(disturbances) && old(Proper(state, previous)) && done.Some? ==>
                (done.value.Exception? <==> Escapes(stored, reply))
    {
      next := state;
      result := AgentResult(0, 0, "", ResWaiting, None, NO_USAGE, [], None, None, map[]);
      var now := world.clock(accesses);
      var checked := BeforeTransport(state, now, true);
      if checked.None? { return Some(Exception), next, result; }
      if checked.value.Some? {
        var e := EndUnlessEnded(ByLimit, LimitMessage(checked.value.value.kind), now, world, seqOf);
        return Some(e), next, result;
      }
      BeforeTransportMeaning(state, now, true);
      done, next, result := InvokeNext(state, flow, previous, now, world, seqOf);
    }

    /** The commit that begins the next agent, and the start of its transport. */
    method LaunchNext(state: FlowState, request: Request, flow: FlowInput, previous: Option<AgentResult>, now: Time,
                      world: World, ghost seqOf: Id -> nat) returns (r: Result<FlowState, CallError>)
      requires Valid(seqOf) && WorldOk(seqOf, world) && |state.invocations| < |definition.agents|
      requires |state.invocations| < state.budget.maxInvocations
      requires request == NextRequest(definition, flow, state, previous, world.ids(|state.invocations| + 1))
      modifies this`stored, this`accesses, this`disturbances, this`log
      ensures Valid(seqOf) && Later(old(stored), stored) && Since(old(disturbances), world)
      ensures r.Ok? ==>
                r.value == stored && log == old(log) + [stored] && |stored.invocations| == |state.invocations| + 1
      ensures r.Err? ==> log == old(log)
      ensures IsTerminal(old(stored).status) ==> r.Err? && stored == old(stored)
      ensures disturbances == old(disturbances) && old(Proper(state, previous)) ==> r.Ok? && InTransport()
    {
      if Proper(state, previous) { BeginsNext(definition, flow, state, previous, request.invocationId, now); }
      r := Launch(CmdBegin(request, definition), now, world, seqOf);
    }

    /** The commit, the transport and what follows it. */
    method InvokeNext(state: FlowState, flow: FlowInput, previous: Option<AgentResult>, now: Time, world: World,
                      ghost seqOf: Id -> nat) returns (done: Option<Ending>, next: FlowState, result: AgentResult)
      requires Valid(seqOf) && WorldOk(seqOf, world) && |state.invocations| < |definition.agents|
      requires |state.invocations| < state.budget.maxInvocations
      modifies this
      ensures Valid(seqOf) && Later(old(stored), stored) && (done.Some? ==> Told(done.value))
      ensures old(log) <= log && |log| <= |old(log)| + 1
      ensures done.None? ==> |next.invocations| > |state.invocations|
      ensures IsTerminal(old(stored).status) ==> stored == old(stored) && log == old(log) && done.Some?
      ensures Since(old(disturbances), world)
      ensures old(reply).Some? ==> reply.Some?
      ensures disturbances == old(disturbances) && old(Proper(state, previous)) && done.None? ==>
                Proper(next, Some(result))
      ensures disturbances == old(disturbances) && old(Proper(state, previous)) && done.Some? ==>
                (done.value.Exception? <==> Escapes(stored, reply))
    {
      next := state;
      result := AgentResult(0, 0, "", ResWaiting, None, NO_USAGE, [], None, None, map[]);
      var request := NextRequest(definition, flow, state, previous, world.ids(|state.invocations| + 1));
      var begun := LaunchNext(state, request, flow, previous, now, world, seqOf);
      if begun.Err? { return Some(Exception), next, result; }
      ghost var launched := stored;
      var answer := world.replies(accesses, begun.value.invocations[|begun.value.invocations| - 1]);
      reply := Some(answer);
      done := HandleReply(answer, begun.value, request.agentKey, "invoke", world.clock(accesses), world, seqOf);
      LaterIsTransitive(old(stored), launched, stored);
      next := stored;
      if answer.Returned? { result := answer.result; }
    }

    /** The situation in which a resume is called: the last agent waits, everybody before it has completed. */
    ghost predicate ProperlyWaiting()
      reads this
    {
      var n := |stored.invocations|;
      && stored.status.Waiting? && stored.definition == definition.ref && UniqueKeys(definition)
      && definition.agents != [] && n <= |definition.agents|
      && (forall k :: 0 <= k < n - 1 ==> stored.invocations[k].status.Completed?)
    }

    /** `resume` and `confirm` */
    method ResumeWaiting(world: World, ghost seqOf: Id -> nat) returns (e: Ending)
      requires Valid(seqOf) && WorldOk(seqOf, world)
      modifies this
      ensures Valid(seqOf) && Later(old(stored), stored) && Told(e)
      ensures old(log) <= log && |log| - |old(log)| <= |definition.agents| + 1
      ensures IsTerminal(old(stored).status) ==> stored == old(stored) && log == old(log)
      ensures Since(old(disturbances), world)
      ensures disturbances == old(disturbances) && old(ProperlyWaiting()) && reply.Some? ==>
                (e.Exception? <==> Escapes(stored, reply))
      ensures disturbances == old(disturbances) && old(ProperlyWaiting()) && reply.None? ==>
                (e.Exception? <==> !Consumable(old(stored)))
    {
      reply := None;
      ghost var s0 := stored;
      Others(world, seqOf);
      ghost var s1 := stored;
      var waiting, now := stored, world.clock(accesses);
      var checked := BeforeTransport(waiting, now, false);
      if checked.None? { return Exception; }
      if checked.value.Some? {
        e := EndUnlessEnded(ByLimit, LimitMessage(checked.value.value.kind), now, world, seqOf);
        LaterIsTransitive(s0, s1, stored);
        return;
      }
      var active := Active(waiting);
      WaitingCanResume(seqOf, waiting, now);
      if active.None? { return Exception; }
      e := ResumeActive(waiting, active.value, now, world, seqOf);
      LaterIsTransitive(s0, s1, stored);
    }

    /** The commit that claims the waiting invocation, and the start of its transport. */
    method LaunchResume(waiting: FlowState, active: Invocation, now: Time, world: World, ghost seqOf: Id -> nat)
      returns (r: Result<FlowState, CallError>)
      requires Valid(seqOf) && WorldOk(seqOf, world) && waiting == stored && Active(waiting) == Some(active)
      modifies this`stored, this`accesses, this`disturbances, this`log
      ensures Valid(seqOf) && Later(old(stored), stored) && Since(old(disturbances), world)
      ensures r.Ok? ==> r.value == stored && log == old(log) + [stored] && stored.invocations != []
      ensures r.Err? ==> log == old(log)
      ensures IsTerminal(old(stored).status) ==> r.Err? && stored == old(stored)
      ensures disturbances == old(disturbances) && old(ProperlyWaiting()) ==>
                && r.Ok? && InTransport() && |stored.invocations| == |old(stored.invocations)|
                && (Consumable(waiting) <==> Consumable(stored))
    {
      ActiveIsLast(seqOf, waiting);
      WaitingCanResume(seqOf, waiting, now);
      ResumesLast(seqOf, waiting, active.id, now);
      r := Launch(CmdResume(active.id), now, world, seqOf);
    }

    /** The claim of the waiting invocation, its transport and what follows it. */
    method ResumeActive(waiting: FlowState, active: Invocation, now: Time, world: World, ghost seqOf: Id -> nat)
      returns (e: Ending)
      requires Valid(seqOf) && WorldOk(seqOf, world) && reply.None?
      requires waiting == stored && Active(waiting) == Some(active)
      modifies this
      ensures Valid(seqOf) && Later(old(stored), stored) && Told(e)
      ensures old(log) <= log && |log| - |old(log)| <= |definition.agents| + 1
      ensures IsTerminal(old(stored).status) ==> stored == old(stored) && log == old(log)
      ensures Since(old(disturbances), world)
      ensures disturbances == old(disturbances) && old(ProperlyWaiting()) ==>
                reply.Some? && (e.Exception? <==> Escapes(stored, reply))
    {
      ghost var s1 := stored;
      var resumed := LaunchResume(waiting, active, now, world, seqOf);
      ghost var s2 := stored;
      if resumed.Err? { return Exception; }
      var answer := world.replies(accesses, resumed.value.invocations[|resumed.value.invocations| - 1]);
      reply := Some(answer);
      var done := HandleReply(answer, waiting, active.agentKey, "resume", world.clock(accesses), world, seqOf);
      ghost var s3 := stored;
      LaterIsTransitive(s1, s2, s3);
      if done.Some? { return done.value; }
      e := Advance(stored, FlowInput(active.input.prompt, active.input.attachments), Some(answer.result), world, seqOf);
      LaterIsTransitive(s1, s3, stored);
    }
  }

  lemma TerminatedIsTerminal(how: Termination, error: string, t: FlowState, now: Time)
    requires exists s :: Apply(CmdTerminate(how, error), s, now) == Ok(t)
    ensures IsTerminal(t.status)
  {}

  /** With a message that is not blank, a run that has not ended can be ended. */
  lemma EndingSucceeds(seqOf: Id -> nat, s: FlowState, how: Termination, error: string, now: Time)
    requires Inv(seqOf, s) && !IsBlank(error)
    ensures !IsTerminal(s.status) ==>
              Terminate(s, how, error, now).Ok? && IsTerminal(Terminate(s, how, error, now).value.status)
  {
    if s.active.Some? {
      ActiveIsLast(seqOf, s);
      assert InvocationOk(seqOf, s, |s.invocations| - 1);
    }
  }

  /** What settling the active invocation does. */
  lemma SettlesLast(seqOf: Id -> nat, s: FlowState, r: AgentResult, now: Time)
    requires Inv(seqOf, s) && s.status.Running? && s.active.Some?
    requires forall k :: 0 <= k < |s.invocations| - 1 ==> s.invocations[k].status.Completed?
    ensures s.invocations != []
    ensures var t := SettleInvocation(s, r, now);
            && (t.Err? ==> t.error == InvalidValue)
            && (t.Ok? ==>
                  && |t.value.invocations| == |s.invocations| && LastResult(t.value) == Some(r)
                  && (r.status.ResCompleted? ==> Between(t.value)))
  {
    ActiveIsLast(seqOf, s);
    var n := |s.invocations|;
    assert InvocationOk(seqOf, s, n - 1);
    var t := SettleInvocation(s, r, now);
    if t.Ok? { ReplaceLast(s.invocations, SettleOne(s.invocations[n - 1], r, now).value); }
  }

  /** What claiming the waiting invocation does: no result changes, hence no total. */
  lemma ResumesLast(seqOf: Id -> nat, s: FlowState, id: Id, now: Time)
    requires Inv(seqOf, s)
    ensures ResumeInvocation(s, id, now).Ok? ==>
              var t := ResumeInvocation(s, id, now).value;
              && t.status.Running? && t.active.Some? && |t.invocations| == |s.invocations| && t.budget == s.budget
              && (forall k :: 0 <= k < |s.invocations| - 1 ==> t.invocations[k] == s.invocations[k])
              && (Consumable(t) <==> Consumable(s))
  {
    if ResumeInvocation(s, id, now).Ok? {
      var n := |s.invocations|;
      ActiveIsLast(seqOf, s);
      ReplaceLast(s.invocations, ResumeOne(s.invocations[n - 1], now).value);
      var t := ResumeInvocation(s, id, now).value;
      TotalsOfResults(s.invocations, t.invocations, "model_calls");
      TotalsOfResults(s.invocations, t.invocations, "tool_calls");
    }
  }

  /** The next agent can be begun, and adds nothing to the totals. */
  lemma BeginsNext(definition: FlowDefinition, flow: FlowInput, s: FlowState, previous: Option<AgentResult>, id: Id,
                   now: Time)
    requires Between(s) && s.definition == definition.ref && UniqueKeys(definition)
    requires |s.invocations| < |definition.agents| && |s.invocations| < s.budget.maxInvocations
    ensures var request := NextRequest(definition, flow, s, previous, id);
            var t := BeginInvocation(s, request, definition, now);
            && t.Ok? && t.value.status.Running? && t.value.active.Some?
            && |t.value.invocations| == |s.invocations| + 1
            && (forall k :: 0 <= k < |s.invocations| ==> t.value.invocations[k].status.Completed?)
  {
    AgentAt(definition.agents, |s.invocations|);
  }

  lemma CompletesBetween(s: FlowState, output: string, now: Time)
    requires Between(s) && s.invocations != []
    ensures Complete(s, output, now).Ok? && IsTerminal(Complete(s, output, now).value.status)
  {}
}
