/** The events that `FlowLifecycle` writes with each transition, and the replay of an event log. */
module FlowEvents {
  import opened Common
  import opened Lifecycle

  datatype EventType =
    | FlowCreated | FlowStarted | FlowResumed | FlowWaiting
    | FlowCompleted | FlowEnded(how: Termination)
    | InvocationStarted | InvocationResumed | InvocationSettled(status: ResultStatus)
    | CancellationPropagationFailed

  datatype Draft = Draft(
    kind: EventType,
    invocationId: Option<Id>,
    revision: nat,
    usage: Option<Usage>)

  predicate IsTerminalEvent(d: Draft) {
    d.kind.FlowCompleted? || d.kind.FlowEnded?
  }

  function CreatedDrafts(s: FlowState): seq<Draft> {
    [Draft(FlowCreated, None, s.revision, None)]
  }

  function PropagationFailure(s: FlowState, invocationId: Id): seq<Draft> {
    [Draft(CancellationPropagationFailed, Some(invocationId), s.revision, None)]
  }

  /** The lookups that the service makes in the new state: `invocations[-1]` after a settle, an
      asserted `active_invocation` after a begin or a resume, and a `next(...)` after an ending. */
  predicate LookupsSucceed(c: Command, s: FlowState, s': FlowState) {
    match c
    case CmdBegin(_, _) => Active(s').Some?
    case CmdResume(_) => Active(s').Some?
    case CmdSettle(_) => s'.invocations != []
    case CmdTerminate(_, _) => Active(s).Some? ==> Find(s'.invocations, Active(s).value.id).Some?
    case _ => true
  }

  /** The drafts committed together with the transition `s -> s'`. */
  function Drafts(c: Command, s: FlowState, s': FlowState): seq<Draft>
    requires LookupsSucceed(c, s, s')
  {
    match c
    case CmdStart => [Draft(FlowStarted, None, s'.revision, None)]
    case CmdBegin(_, _) => [Draft(InvocationStarted, Some(Active(s').value.id), s'.revision, None)]
    case CmdSettle(r) =>
      var settled := s'.invocations[|s'.invocations| - 1];
      [Draft(InvocationSettled(r.status), Some(settled.id), s'.revision, Some(r.usage))]
      + if r.status.ResWaiting? then [Draft(FlowWaiting, Some(settled.id), s'.revision, None)] else []
    case CmdResume(_) =>
      [Draft(InvocationResumed, Some(Active(s').value.id), s'.revision, None),
       Draft(FlowResumed, Some(Active(s').value.id), s'.revision, None)]
    case CmdComplete(_) =>
      [Draft(FlowCompleted, None, s'.revision, Some(SumUsage(s'.invocations)))]
    case CmdTerminate(how, _) =>
      (if Active(s).Some? then
         [Draft(InvocationSettled(how.ResultStatus()),
                Some(Find(s'.invocations, Active(s).value.id).value.id), s'.revision, None)]
       else [])
      + [Draft(FlowEnded(how), None, s'.revision, None)]
  }

  /** What can be known of a run from its events alone. */
  datatype View = View(
    status: RunStatus,
    revision: nat,
    invocations: nat,
    active: Option<Id>,
    lastStatus: Option<RunStatus>,
    endedUsage: Usage,
    activeUsage: Usage,
    // no event so far was about anything but what the events before it say
    coherent: bool)

  const NO_VIEW := View(Created, 0, 0, None, None, NO_USAGE, NO_USAGE, true)

  /** The event is about the invocation that is active according to the events before it, and about none
      where the run as a whole is concerned; completion reports the usage of all invocations. */
  predicate Coherent(v: View, d: Draft) {
    match d.kind
    case FlowCreated | FlowStarted | FlowEnded(_) => d.invocationId.None?
    case FlowCompleted => d.invocationId.None? && d.usage == Some(v.endedUsage)
    case InvocationStarted => v.active.None? && d.invocationId.Some?
    case InvocationResumed | InvocationSettled(_) | FlowWaiting | FlowResumed =>
      d.invocationId.Some? && d.invocationId == v.active
    case CancellationPropagationFailed => d.invocationId.Some?
  }

  function Project(v: View, d: Draft): View {
    Update(v, d).(coherent := v.coherent && Coherent(v, d))
  }

  function Update(v: View, d: Draft): View {
    match d.kind
    case FlowCreated => NO_VIEW.(revision := d.revision)
    case FlowStarted => v.(status := Running, revision := d.revision)
    case FlowWaiting => v.(status := Waiting)
    case FlowResumed => v.(status := Running)
    case FlowCompleted => v.(status := Completed, revision := d.revision)
    case FlowEnded(how) => v.(status := how.RunStatus(), revision := d.revision)
    case InvocationStarted =>
      v.(invocations := v.invocations + 1, active := d.invocationId, lastStatus := Some(Running),
         activeUsage := NO_USAGE, revision := d.revision)
    case InvocationResumed => v.(lastStatus := Some(Running), revision := d.revision)
    case InvocationSettled(status) =>
      var used := if d.usage.Some? then d.usage.value else v.activeUsage;
      var w := v.(lastStatus := Some(ToRunStatus(status)), revision := d.revision);
      if status.ResWaiting? then w.(activeUsage := used)
      // a waiting run may be settled directly, and then no resume event precedes it
      else w.(status := Running, active := None,
              endedUsage := v.endedUsage.Plus(used), activeUsage := NO_USAGE)
    case CancellationPropagationFailed => v
  }

  function Replay(log: seq<Draft>): View {
    if log == [] then NO_VIEW
    else Project(Replay(log[..|log| - 1]), log[|log| - 1])
  }

  /** The same facts, read from a stored snapshot. */
  function ViewOf(s: FlowState): View {
    var n := |s.invocations|;
    View(s.status, s.revision, n, s.active,
         if n == 0 then None else Some(s.invocations[n - 1].status),
         if s.active.Some? && n > 0 then SumUsage(s.invocations[..n - 1]) else SumUsage(s.invocations),
         if s.active.Some? && n > 0 then InvocationUsage(s.invocations[n - 1]) else NO_USAGE,
         true)
  }

  function ProjectAll(v: View, drafts: seq<Draft>): View
    decreases |drafts|
  {
    if drafts == [] then v else ProjectAll(Project(v, drafts[0]), drafts[1..])
  }

  /** A transition writes one or two drafts. */
  lemma {:induction false} ProjectShort(v: View, drafts: seq<Draft>)
    requires 1 <= |drafts| <= 2
    ensures ProjectAll(v, drafts)
         == if |drafts| == 1 then Project(v, drafts[0]) else Project(Project(v, drafts[0]), drafts[1])
  {
    if |drafts| == 2 {
      var w := Project(v, drafts[0]);
      assert drafts[1..] == [drafts[1]];
      assert ProjectAll(w, [drafts[1]]) == ProjectAll(Project(w, drafts[1]), [drafts[1]][1..]);
    }
  }

  lemma {:induction false} ReplayAll(log: seq<Draft>, drafts: seq<Draft>)
    ensures Replay(log + drafts) == ProjectAll(Replay(log), drafts)
    decreases |drafts|
  {
    if drafts == [] {
      assert log + drafts == log;
    } else {
      assert (log + [drafts[0]])[..|log|] == log;
      ReplayAll(log + [drafts[0]], drafts[1..]);
      assert log + drafts == (log + [drafts[0]]) + drafts[1..];
    }
  }

  /** No lookup of the service can fail, and the settled invocation is indeed the last one. */
  lemma ServiceLookups(seqOf: Id -> nat, c: Command, s: FlowState, now: Time)
    requires Inv(seqOf, s) && Authentic(seqOf, c) && Apply(c, s, now).Ok?
    ensures LookupsSucceed(c, s, Apply(c, s, now).value)
    ensures c.CmdSettle? ==>
      var s' := Apply(c, s, now).value;
      var last := s'.invocations[|s'.invocations| - 1];
      last.result == Some(c.result) && Some(last.id) == s.active
    ensures c.CmdTerminate? && s.active.Some? ==>
      var s' := Apply(c, s, now).value;
      Active(s).Some?
      && Find(s'.invocations, Active(s).value.id) == Some(s'.invocations[|s'.invocations| - 1])
  {
    var s' := Apply(c, s, now).value;
    ApplyKeepsInvariant(seqOf, c, s, now);
    if s.active.Some? {
      ActiveIsLast(seqOf, s);
      FindLast(s'.invocations);
    }
    if s'.active.Some? {
      ActiveIsLast(seqOf, s');
    }
  }

  lemma {:induction false} SumUsageOfLast(invs: seq<Invocation>, x: Invocation)
    ensures SumUsage(invs + [x]) == SumUsage(invs).Plus(InvocationUsage(x))
  {
    assert (invs + [x])[..|invs|] == invs;
  }

  /** What replacing the active invocation does to the view. */
  lemma ViewAfterReplace(seqOf: Id -> nat, s: FlowState, x: Invocation, s': FlowState)
    requires Inv(seqOf, s) && s.active == Some(x.id)
    requires s'.invocations == Replace(s.invocations, x)
    ensures ViewOf(s') == View(
      s'.status, s'.revision, |s.invocations|, s'.active, Some(x.status),
      if s'.active.Some? then ViewOf(s).endedUsage else ViewOf(s).endedUsage.Plus(InvocationUsage(x)),
      if s'.active.Some? then InvocationUsage(x) else NO_USAGE, true)
  {
    var n := |s.invocations|;
    ReplaceLast(s.invocations, x);
    SumUsageOfLast(s.invocations[..n - 1], x);
    assert s'.invocations[..n - 1] == s.invocations[..n - 1];
  }

  lemma SettleDraftsFollow(seqOf: Id -> nat, r: AgentResult, s: FlowState, now: Time)
    requires Inv(seqOf, s) && ValidPayload(r) && SettleInvocation(s, r, now).Ok?
    ensures LookupsSucceed(CmdSettle(r), s, SettleInvocation(s, r, now).value)
    ensures ProjectAll(ViewOf(s), Drafts(CmdSettle(r), s, SettleInvocation(s, r, now).value))
         == ViewOf(SettleInvocation(s, r, now).value)
  {
    ServiceLookups(seqOf, CmdSettle(r), s, now);
    ProjectShort(ViewOf(s), Drafts(CmdSettle(r), s, SettleInvocation(s, r, now).value));
    ActiveIsLast(seqOf, s);
    ViewAfterReplace(seqOf, s, SettleOne(Active(s).value, r, now).value, SettleInvocation(s, r, now).value);
  }

  lemma ResumeDraftsFollow(seqOf: Id -> nat, id: Id, s: FlowState, now: Time)
    requires Inv(seqOf, s) && ResumeInvocation(s, id, now).Ok?
    ensures LookupsSucceed(CmdResume(id), s, ResumeInvocation(s, id, now).value)
    ensures ProjectAll(ViewOf(s), Drafts(CmdResume(id), s, ResumeInvocation(s, id, now).value))
         == ViewOf(ResumeInvocation(s, id, now).value)
  {
    ServiceLookups(seqOf, CmdResume(id), s, now);
    ResumeKeepsInvariant(seqOf, s, id, now);
    ActiveIsLast(seqOf, ResumeInvocation(s, id, now).value);
    ProjectShort(ViewOf(s), Drafts(CmdResume(id), s, ResumeInvocation(s, id, now).value));
    ActiveIsLast(seqOf, s);
    ViewAfterReplace(seqOf, s, ResumeOne(Active(s).value, now).value, ResumeInvocation(s, id, now).value);
  }

  lemma TerminateDraftsFollow(seqOf: Id -> nat, how: Termination, error: string, s: FlowState, now: Time)
    requires Inv(seqOf, s) && Terminate(s, how, error, now).Ok?
    ensures LookupsSucceed(CmdTerminate(how, error), s, Terminate(s, how, error, now).value)
    ensures ProjectAll(ViewOf(s), Drafts(CmdTerminate(how, error), s, Terminate(s, how, error, now).value))
         == ViewOf(Terminate(s, how, error, now).value)
  {
    ServiceLookups(seqOf, CmdTerminate(how, error), s, now);
    ProjectShort(ViewOf(s), Drafts(CmdTerminate(how, error), s, Terminate(s, how, error, now).value));
    if s.active.Some? {
      ActiveIsLast(seqOf, s);
      ViewAfterReplace(seqOf, s, TerminateOne(Active(s).value, how, error, now).value,
                       Terminate(s, how, error, now).value);
    }
  }

  lemma BeginDraftsFollow(seqOf: Id -> nat, c: Command, s: FlowState, now: Time)
    requires c.CmdBegin? && Inv(seqOf, s) && Authentic(seqOf, c) && Apply(c, s, now).Ok?
    ensures LookupsSucceed(c, s, Apply(c, s, now).value)
    ensures ProjectAll(ViewOf(s), Drafts(c, s, Apply(c, s, now).value)) == ViewOf(Apply(c, s, now).value)
  {
    var s' := Apply(c, s, now).value;
    ServiceLookups(seqOf, c, s, now);
    ApplyKeepsInvariant(seqOf, c, s, now);
    ActiveIsLast(seqOf, s');
    assert s'.invocations[..|s.invocations|] == s.invocations;
  }

  /** One transition and its drafts: replaying stays in step with the snapshot. */
  lemma {:induction false} DraftsFollowTransition(
    seqOf: Id -> nat, c: Command, s: FlowState, now: Time, log: seq<Draft>)
    requires Inv(seqOf, s) && Authentic(seqOf, c) && Apply(c, s, now).Ok?
    requires Replay(log) == ViewOf(s)
    ensures LookupsSucceed(c, s, Apply(c, s, now).value)
    ensures Replay(log + Drafts(c, s, Apply(c, s, now).value)) == ViewOf(Apply(c, s, now).value)
  {
    match c {
    case CmdStart =>
    case CmdBegin(_, _) => BeginDraftsFollow(seqOf, c, s, now);
    case CmdSettle(r) => SettleDraftsFollow(seqOf, r, s, now);
    case CmdResume(id) => ResumeDraftsFollow(seqOf, id, s, now);
    case CmdComplete(_) =>
    case CmdTerminate(how, error) => TerminateDraftsFollow(seqOf, how, error, s, now);
    }
    ReplayAll(log, Drafts(c, s, Apply(c, s, now).value));
  }

  /** In a coherent log every event fits the events before it. */
  lemma {:induction false} CoherentThroughout(log: seq<Draft>, k: nat)
    requires Replay(log).coherent && k < |log|
    ensures Replay(log[..k]).coherent && Coherent(Replay(log[..k]), log[k])
    decreases |log|
  {
    var front := log[..|log| - 1];
    if k < |front| {
      CoherentThroughout(front, k);
      assert front[..k] == log[..k];
    }
  }
}
