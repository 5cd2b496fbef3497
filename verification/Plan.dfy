/** `ExecutionPlan`: an immutable dependency graph of steps, and its transitions. */
module Plan {
  import opened Common
  import opened PlanGraph

  datatype StepStatus = Pending | Running | Waiting | Completed | Failed | Cancelled | Skipped

  datatype PlanStatus = PlanCreated | PlanRunning | PlanWaiting | PlanCompleted | PlanFailed | PlanCancelled

  datatype PlanStep = PlanStep(
    id: string,
    description: string,
    dependencies: seq<string>,
    status: StepStatus,
    success: Option<bool>,
    result: Option<string>,
    attachments: seq<string>,
    error: Option<string>)

  datatype ExecutionPlan = ExecutionPlan(
    id: string, title: string, steps: seq<PlanStep>, status: PlanStatus, revision: nat)

  datatype PlanError = InvalidTransition | InvalidValue | UnknownStep

  predicate IsSettled(status: StepStatus) { status in {Completed, Skipped} }

  // ---------------------------------------------------------------- validation

  ghost predicate UniqueIds(steps: seq<PlanStep>) {
    forall i, j :: 0 <= i < j < |steps| ==> steps[i].id != steps[j].id
  }

  /** `{step.id: step.dependencies for step in steps}` */
  function GraphOf(steps: seq<PlanStep>): Graph {
    if steps == [] then map[]
    else GraphOf(steps[..|steps| - 1])[steps[|steps| - 1].id := steps[|steps| - 1].dependencies]
  }

  lemma {:induction false} GraphOfKeys(steps: seq<PlanStep>, x: string)
    ensures x in GraphOf(steps) <==> exists i :: 0 <= i < |steps| && steps[i].id == x
  {
    if steps != [] {
      var front := steps[..|steps| - 1];
      GraphOfKeys(front, x);
      if x in GraphOf(front) {
        var i :| 0 <= i < |front| && front[i].id == x;
        assert steps[i].id == x;
      }
      if i :| 0 <= i < |steps| && steps[i].id == x && i < |steps| - 1 {
        assert front[i].id == x;
      }
    }
  }

  lemma {:induction false} GraphOfStep(steps: seq<PlanStep>, i: nat)
    requires UniqueIds(steps) && i < |steps|
    ensures steps[i].id in GraphOf(steps) && GraphOf(steps)[steps[i].id] == steps[i].dependencies
  {
    if i < |steps| - 1 {
      GraphOfStep(steps[..|steps| - 1], i);
    }
  }

  /** `validate_graph` */
  ghost predicate ValidGraph(steps: seq<PlanStep>) {
    steps != [] && UniqueIds(steps) && Closed(GraphOf(steps)) && Acyclic(GraphOf(steps))
  }

  /** The validator, run: unique ids, known dependencies, then the depth-first walk. */
  method ValidateGraph(steps: seq<PlanStep>) returns (ok: bool)
    ensures ok <==> ValidGraph(steps)
  {
    if steps == [] || exists i, j :: 0 <= i < j < |steps| && steps[i].id == steps[j].id { return false; }
    var ids := seq(|steps|, i requires 0 <= i < |steps| => steps[i].id);
    var g := GraphOf(steps);
    forall i | 0 <= i < |steps| ensures ids[i] in g && g[ids[i]] == steps[i].dependencies {
      GraphOfStep(steps, i);
    }
    forall x ensures x in g <==> x in ids {
      GraphOfKeys(steps, x);
      if x in g {
        var i :| 0 <= i < |steps| && steps[i].id == x;
        assert ids[i] == x;
      }
    }
    if i, d :| 0 <= i < |steps| && d in steps[i].dependencies && d !in ids {
      assert Edge(g, ids[i], d);
      return false;
    }
    ok := AssertAcyclic(g, ids);
  }

  // ---------------------------------------------------------------- transitions

  predicate DependencySettled(steps: seq<PlanStep>, d: string) {
    exists j :: 0 <= j < |steps| && steps[j].id == d && IsSettled(steps[j].status)
  }

  predicate IsReady(steps: seq<PlanStep>, step: PlanStep) {
    step.status == Pending
    && forall i :: 0 <= i < |step.dependencies| ==> DependencySettled(steps, step.dependencies[i])
  }

  function Select(steps: seq<PlanStep>, keep: PlanStep -> bool): seq<PlanStep> {
    if steps == [] then [] else
      var front := Select(steps[..|steps| - 1], keep);
      if keep(steps[|steps| - 1]) then front + [steps[|steps| - 1]] else front
  }

  lemma {:induction false} SelectMembers(steps: seq<PlanStep>, keep: PlanStep -> bool, x: PlanStep)
    ensures x in Select(steps, keep) <==> x in steps && keep(x)
  {
    if steps != [] {
      SelectMembers(steps[..|steps| - 1], keep, x);
      assert steps == steps[..|steps| - 1] + [steps[|steps| - 1]];
    }
  }

  function ReadySteps(plan: ExecutionPlan): seq<PlanStep> {
    Select(plan.steps, s => IsReady(plan.steps, s))
  }

  function GetStep(steps: seq<PlanStep>, id: string): Option<PlanStep> {
    if steps == [] then None
    else if steps[0].id == id then Some(steps[0])
    else GetStep(steps[1..], id)
  }

  lemma {:induction false} GetStepIsSound(steps: seq<PlanStep>, id: string)
    ensures GetStep(steps, id).Some? <==> exists i :: 0 <= i < |steps| && steps[i].id == id
    ensures GetStep(steps, id).Some? ==> GetStep(steps, id).value in steps && GetStep(steps, id).value.id == id
  {
    if steps != [] {
      GetStepIsSound(steps[1..], id);
      if i :| 0 < i < |steps| && steps[i].id == id {
        assert steps[1..][i - 1].id == id;
      }
    }
  }

  function ReplaceStep(steps: seq<PlanStep>, x: PlanStep): seq<PlanStep> {
    seq(|steps|, i requires 0 <= i < |steps| => if steps[i].id == x.id then x else steps[i])
  }

  lemma {:induction false} GetStepAt(steps: seq<PlanStep>, k: nat)
    requires UniqueIds(steps) && k < |steps|
    ensures GetStep(steps, steps[k].id) == Some(steps[k])
  {
    if k > 0 {
      GetStepAt(steps[1..], k - 1);
    }
  }

  lemma ReplaceStepAt(steps: seq<PlanStep>, k: nat, x: PlanStep)
    requires UniqueIds(steps) && k < |steps| && x.id == steps[k].id
    ensures ReplaceStep(steps, x) == steps[k := x]
  {}

  function Replaced(plan: ExecutionPlan, x: PlanStep, status: PlanStatus): ExecutionPlan {
    plan.(steps := ReplaceStep(plan.steps, x), status := status, revision := plan.revision + 1)
  }

  function StartStep(plan: ExecutionPlan, id: string): Result<ExecutionPlan, PlanError> {
    var step := GetStep(plan.steps, id);
    if step.None? then Err(UnknownStep)
    else if step.value !in ReadySteps(plan) then Err(InvalidTransition)
    else Ok(Replaced(plan, step.value.(status := Running), PlanRunning))
  }

  /** `_require_status` */
  function StepIn(plan: ExecutionPlan, id: string, expected: StepStatus): Result<PlanStep, PlanError> {
    var step := GetStep(plan.steps, id);
    if step.None? then Err(UnknownStep)
    else if step.value.status != expected then Err(InvalidTransition)
    else Ok(step.value)
  }

  function CompleteStep(plan: ExecutionPlan, id: string, result: Option<string>, success: Option<bool>,
                        attachments: seq<string>): Result<ExecutionPlan, PlanError>
  {
    match StepIn(plan, id, Running)
    case Err(e) => Err(e)
    case Ok(step) =>
      var done := step.(status := Completed, success := success, result := result,
                        attachments := attachments, error := None);
      var updated := Replaced(plan, done, plan.status);
      if forall i :: 0 <= i < |updated.steps| ==> IsSettled(updated.steps[i].status)
      then Ok(updated.(status := PlanCompleted)) else Ok(updated)
  }

  function FailStep(plan: ExecutionPlan, id: string, error: string): Result<ExecutionPlan, PlanError> {
    if IsBlank(error) then Err(InvalidValue)
    else match StepIn(plan, id, Running)
      case Err(e) => Err(e)
      case Ok(step) => Ok(Replaced(plan, step.(status := Failed, error := Some(error)), PlanFailed))
  }

  function WaitStep(plan: ExecutionPlan, id: string): Result<ExecutionPlan, PlanError> {
    match StepIn(plan, id, Running)
    case Err(e) => Err(e)
    case Ok(step) => Ok(Replaced(plan, step.(status := Waiting), PlanWaiting))
  }

  function ResumeStep(plan: ExecutionPlan, id: string): Result<ExecutionPlan, PlanError> {
    match StepIn(plan, id, Waiting)
    case Err(e) => Err(e)
    case Ok(step) => Ok(Replaced(plan, step.(status := Running), PlanRunning))
  }

  function EndActive(steps: seq<PlanStep>, status: StepStatus, error: string): seq<PlanStep> {
    seq(|steps|, i requires 0 <= i < |steps| =>
      if steps[i].status in {Running, Waiting}
      then steps[i].(status := status, error := Some(error)) else steps[i])
  }

  function Cancel(plan: ExecutionPlan, error: string): Result<ExecutionPlan, PlanError> {
    if IsBlank(error) then Err(InvalidValue)
    else Ok(plan.(steps := EndActive(plan.steps, Cancelled, error), status := PlanCancelled,
                  revision := plan.revision + 1))
  }

  function Fail(plan: ExecutionPlan, error: string): Result<ExecutionPlan, PlanError> {
    if IsBlank(error) then Err(InvalidValue)
    else Ok(plan.(steps := EndActive(plan.steps, Failed, error), status := PlanFailed,
                  revision := plan.revision + 1))
  }

  // ---------------------------------------------------------------- what each transition leads to

  /** Step `k` becomes `x` and the plan `status`; nothing else changes. */
  ghost predicate Turns(plan: ExecutionPlan, plan': ExecutionPlan, k: nat, x: PlanStep, status: PlanStatus)
    requires k < |plan.steps|
  {
    plan' == plan.(steps := plan.steps[k := x], status := status, revision := plan.revision + 1)
  }

  /** Some step with this id is completed or was skipped. */
  ghost predicate Provided(steps: seq<PlanStep>, id: string) {
    exists j :: 0 <= j < |steps| && steps[j].id == id && (steps[j].status.Completed? || steps[j].status.Skipped?)
  }

  /** A step is started exactly when it is pending and every step it depends on is completed or skipped. */
  lemma StartLeadsTo(plan: ExecutionPlan, k: nat)
    requires UniqueIds(plan.steps) && k < |plan.steps|
    ensures var r, s := StartStep(plan, plan.steps[k].id), plan.steps[k];
            && (r.Ok? <==> s.status.Pending? && forall d :: d in s.dependencies ==> Provided(plan.steps, d))
            && (r.Ok? ==> Turns(plan, r.value, k, s.(status := Running), PlanRunning))
  {
    var s := plan.steps[k];
    GetStepAt(plan.steps, k);
    SelectMembers(plan.steps, t => IsReady(plan.steps, t), s);
    ReplaceStepAt(plan.steps, k, s.(status := Running));
    forall d ensures DependencySettled(plan.steps, d) <==> Provided(plan.steps, d) {}
    assert IsReady(plan.steps, s) <==> s.status.Pending? && forall d :: d in s.dependencies ==> Provided(plan.steps, d);
  }

  /** A running step is completed with its report, and the plan with the last of its steps. */
  lemma CompleteLeadsTo(plan: ExecutionPlan, k: nat, result: Option<string>, success: Option<bool>,
                        attachments: seq<string>)
    requires UniqueIds(plan.steps) && k < |plan.steps|
    ensures var r, s := CompleteStep(plan, plan.steps[k].id, result, success, attachments), plan.steps[k];
            && (r.Ok? <==> s.status.Running?)
            && (r.Ok? ==>
                  var last := forall i :: 0 <= i < |plan.steps| && i != k ==>
                                plan.steps[i].status in {Completed, Skipped};
                  Turns(plan, r.value, k,
                        PlanStep(s.id, s.description, s.dependencies, Completed, success, result, attachments, None),
                        if last then PlanCompleted else plan.status))
  {
    var s := plan.steps[k];
    GetStepAt(plan.steps, k);
    var done := s.(status := Completed, success := success, result := result,
                   attachments := attachments, error := None);
    ReplaceStepAt(plan.steps, k, done);
    var steps := plan.steps[k := done];
    assert (forall i :: 0 <= i < |steps| ==> IsSettled(steps[i].status))
      <==> (forall i :: 0 <= i < |plan.steps| && i != k ==> plan.steps[i].status in {Completed, Skipped}) by {
      assert forall i :: 0 <= i < |steps| && i != k ==> steps[i] == plan.steps[i];
    }
  }

  /** A running step fails with a reason, and the plan with it. */
  lemma FailLeadsTo(plan: ExecutionPlan, k: nat, error: string)
    requires UniqueIds(plan.steps) && k < |plan.steps|
    ensures var r, s := FailStep(plan, plan.steps[k].id, error), plan.steps[k];
            && (r.Ok? <==> s.status.Running? && !IsBlank(error))
            && (r.Ok? ==> Turns(plan, r.value, k, s.(status := Failed, error := Some(error)), PlanFailed))
  {
    GetStepAt(plan.steps, k);
    ReplaceStepAt(plan.steps, k, plan.steps[k].(status := Failed, error := Some(error)));
  }

  /** A running step may wait, and a waiting one run on; the plan waits and runs with it. */
  lemma WaitLeadsTo(plan: ExecutionPlan, k: nat)
    requires UniqueIds(plan.steps) && k < |plan.steps|
    ensures var r, s := WaitStep(plan, plan.steps[k].id), plan.steps[k];
            && (r.Ok? <==> s.status.Running?)
            && (r.Ok? ==> Turns(plan, r.value, k, s.(status := Waiting), PlanWaiting))
    ensures var r, s := ResumeStep(plan, plan.steps[k].id), plan.steps[k];
            && (r.Ok? <==> s.status.Waiting?)
            && (r.Ok? ==> Turns(plan, r.value, k, s.(status := Running), PlanRunning))
  {
    GetStepAt(plan.steps, k);
    ReplaceStepAt(plan.steps, k, plan.steps[k].(status := Waiting));
    ReplaceStepAt(plan.steps, k, plan.steps[k].(status := Running));
  }

  /** Cancelling or failing a plan ends its running and waiting steps alike, and no other. */
  lemma EndLeadsTo(plan: ExecutionPlan, error: string)
    ensures Cancel(plan, error).Ok? <==> !IsBlank(error)
    ensures Fail(plan, error).Ok? <==> !IsBlank(error)
    ensures Cancel(plan, error).Ok? ==>
              && Cancel(plan, error).value.status.PlanCancelled?
              && EndsActive(plan.steps, Cancel(plan, error).value.steps, Cancelled, error)
    ensures Fail(plan, error).Ok? ==>
              && Fail(plan, error).value.status.PlanFailed?
              && EndsActive(plan.steps, Fail(plan, error).value.steps, Failed, error)
  {}

  ghost predicate EndsActive(steps: seq<PlanStep>, steps': seq<PlanStep>, status: StepStatus, error: string) {
    && |steps'| == |steps|
    && forall i :: 0 <= i < |steps| ==>
         steps'[i] == if steps[i].status.Running? || steps[i].status.Waiting?
                      then steps[i].(status := status, error := Some(error)) else steps[i]
  }

  /** As long as a step has failed, waits, runs or was cancelled, no step that depends on it can be started. */
  lemma DependentsAreHeldBack(plan: ExecutionPlan, k: nat, m: nat)
    requires UniqueIds(plan.steps) && k < |plan.steps| && m < |plan.steps|
    requires plan.steps[k].id in plan.steps[m].dependencies && plan.steps[k].status !in {Completed, Skipped}
    ensures StartStep(plan, plan.steps[m].id).Err? && plan.steps[m] !in ReadySteps(plan)
  {
    var s := plan.steps[m];
    var i :| 0 <= i < |s.dependencies| && s.dependencies[i] == plan.steps[k].id;
    assert !DependencySettled(plan.steps, s.dependencies[i]);
    SelectMembers(plan.steps, t => IsReady(plan.steps, t), s);
    GetStepAt(plan.steps, m);
  }

  // ---------------------------------------------------------------- progress

  /** No deadlock: when every step is pending or settled and some step is pending, some step is
      ready. */
  lemma SomeStepIsReady(plan: ExecutionPlan)
    requires ValidGraph(plan.steps)
    requires forall i :: 0 <= i < |plan.steps| ==> plan.steps[i].status in {Pending, Completed, Skipped}
    requires exists i :: 0 <= i < |plan.steps| && plan.steps[i].status.Pending?
    ensures ReadySteps(plan) != []
  {
    var steps := plan.steps;
    var g := GraphOf(steps);
    var pending := set s | s in steps && s.status.Pending? :: s.id;
    var k :| 0 <= k < |steps| && steps[k].status.Pending?;
    assert steps[k].id in pending;
    forall x | x in pending ensures x in g { GraphOfKeys(steps, x); }
    var x := HasMinimal(g, pending);
    var s :| s in steps && s.status.Pending? && s.id == x;
    var i :| 0 <= i < |steps| && steps[i] == s;
    GraphOfStep(steps, i);
    forall m | 0 <= m < |s.dependencies| ensures DependencySettled(steps, s.dependencies[m]) {
      var d := s.dependencies[m];
      assert Edge(g, x, d);
      GraphOfKeys(steps, d);
      var j :| 0 <= j < |steps| && steps[j].id == d;
      assert steps[j] in steps;
    }
    SelectMembers(steps, t => IsReady(steps, t), s);
  }

  /** What a step is completed with. */
  datatype Report = Report(result: Option<string>, success: Option<bool>, attachments: seq<string>)

  /** One round: start a step and complete it. */
  function Round(plan: ExecutionPlan, id: string, report: Report): Result<ExecutionPlan, PlanError> {
    match StartStep(plan, id)
    case Err(e) => Err(e)
    case Ok(started) => CompleteStep(started, id, report.result, report.success, report.attachments)
  }

  function Done(step: PlanStep, report: Report): PlanStep {
    step.(status := Completed, success := report.success, result := report.result,
          attachments := report.attachments, error := None)
  }

  function Rounds(plan: ExecutionPlan, ids: seq<string>, reports: string -> Report): Result<ExecutionPlan, PlanError> {
    if ids == [] then Ok(plan)
    else match Rounds(plan, ids[..|ids| - 1], reports)
      case Err(e) => Err(e)
      case Ok(p) => Round(p, ids[|ids| - 1], reports(ids[|ids| - 1]))
  }

  ghost predicate AllPending(plan: ExecutionPlan) {
    ValidGraph(plan.steps) && forall i :: 0 <= i < |plan.steps| ==> plan.steps[i].status.Pending?
  }

  /** `p` is `plan` with exactly the steps in `ids` completed. */
  ghost predicate DoneExactly(plan: ExecutionPlan, p: ExecutionPlan, ids: seq<string>) {
    && |p.steps| == |plan.steps|
    && (forall i :: 0 <= i < |plan.steps| ==>
          && p.steps[i].id == plan.steps[i].id && p.steps[i].dependencies == plan.steps[i].dependencies
          && p.steps[i].status == if plan.steps[i].id in ids then Completed else Pending)
    && (ids != [] ==> (p.status.PlanCompleted? <==> forall i :: 0 <= i < |plan.steps| ==> plan.steps[i].id in ids))
  }

  lemma RoundAt(p: ExecutionPlan, k: nat, report: Report)
    requires UniqueIds(p.steps) && k < |p.steps|
    ensures Round(p, p.steps[k].id, report).Ok? <==> IsReady(p.steps, p.steps[k])
    ensures Round(p, p.steps[k].id, report).Ok? ==>
      var q := Round(p, p.steps[k].id, report).value;
      && q.steps == p.steps[k := Done(p.steps[k], report)]
      && (q.status.PlanCompleted? <==> forall i :: 0 <= i < |q.steps| ==> IsSettled(q.steps[i].status))
  {
    var s := p.steps[k];
    GetStepAt(p.steps, k);
    SelectMembers(p.steps, t => IsReady(p.steps, t), s);
    if IsReady(p.steps, s) {
      ReplaceStepAt(p.steps, k, s.(status := Running));
      var started := StartStep(p, s.id).value;
      GetStepAt(started.steps, k);
      ReplaceStepAt(started.steps, k, Done(s, report));
    }
  }

  lemma ReadyIffMayFollow(plan: ExecutionPlan, p: ExecutionPlan, ids: seq<string>, k: nat)
    requires AllPending(plan) && DoneExactly(plan, p, ids) && k < |p.steps|
    requires InDependencyOrder(GraphOf(plan.steps), ids)
    ensures IsReady(p.steps, p.steps[k]) <==> MayFollow(GraphOf(plan.steps), ids, p.steps[k].id)
  {
    var g := GraphOf(plan.steps);
    var deps := p.steps[k].dependencies;
    GraphOfStep(plan.steps, k);
    forall m | 0 <= m < |deps| ensures DependencySettled(p.steps, deps[m]) <==> deps[m] in ids {
      assert Edge(g, p.steps[k].id, deps[m]);
      GraphOfKeys(plan.steps, deps[m]);
      var j :| 0 <= j < |plan.steps| && plan.steps[j].id == deps[m];
      assert p.steps[j].id == deps[m];
    }
  }

  lemma DoneGrows(plan: ExecutionPlan, p: ExecutionPlan, ids: seq<string>, k: nat, q: ExecutionPlan)
    requires UniqueIds(plan.steps) && DoneExactly(plan, p, ids) && k < |p.steps| == |q.steps|
    requires forall i :: 0 <= i < |p.steps| && i != k ==> q.steps[i] == p.steps[i]
    requires q.steps[k].id == p.steps[k].id && q.steps[k].dependencies == p.steps[k].dependencies
    requires q.steps[k].status.Completed?
    requires q.status.PlanCompleted? <==> forall i :: 0 <= i < |q.steps| ==> IsSettled(q.steps[i].status)
    ensures DoneExactly(plan, q, ids + [p.steps[k].id])
  {
    var more := ids + [p.steps[k].id];
    forall i | 0 <= i < |plan.steps|
      ensures q.steps[i].status == if plan.steps[i].id in more then Completed else Pending
    {
      assert plan.steps[i].id in more <==> plan.steps[i].id in ids || i == k;
    }
  }

  /** A round is accepted exactly for a step that is not done and whose dependencies are. */
  lemma RoundAccepts(plan: ExecutionPlan, p: ExecutionPlan, ids: seq<string>, id: string, report: Report)
    requires AllPending(plan) && DoneExactly(plan, p, ids) && InDependencyOrder(GraphOf(plan.steps), ids)
    ensures Round(p, id, report).Ok? <==> MayFollow(GraphOf(plan.steps), ids, id)
    ensures Round(p, id, report).Ok? ==> DoneExactly(plan, Round(p, id, report).value, ids + [id])
  {
    GraphOfKeys(plan.steps, id);
    GetStepIsSound(p.steps, id);
    if k :| 0 <= k < |p.steps| && p.steps[k].id == id {
      assert plan.steps[k].id == id;
      RoundAt(p, k, report);
      ReadyIffMayFollow(plan, p, ids, k);
      if Round(p, id, report).Ok? { DoneGrows(plan, p, ids, k, Round(p, id, report).value); }
    } else {
      assert forall i :: 0 <= i < |plan.steps| ==> plan.steps[i].id == p.steps[i].id;
    }
  }

  lemma {:induction false} RoundsFollowDependencies(plan: ExecutionPlan, ids: seq<string>, reports: string -> Report)
    requires AllPending(plan)
    ensures Rounds(plan, ids, reports).Ok? <==> InDependencyOrder(GraphOf(plan.steps), ids)
    ensures Rounds(plan, ids, reports).Ok? ==> DoneExactly(plan, Rounds(plan, ids, reports).value, ids)
  {
    if ids != [] {
      var front, last := ids[..|ids| - 1], ids[|ids| - 1];
      assert ids == front + [last];
      OrderGrows(GraphOf(plan.steps), front, last);
      RoundsFollowDependencies(plan, front, reports);
      if Rounds(plan, front, reports).Ok? {
        RoundAccepts(plan, Rounds(plan, front, reports).value, front, last, reports(last));
      }
    }
  }

  lemma {:induction false} IdsSize(steps: seq<PlanStep>)
    requires UniqueIds(steps)
    ensures |set i | 0 <= i < |steps| :: steps[i].id| == |steps|
  {
    if steps != [] {
      var front, last := steps[..|steps| - 1], steps[|steps| - 1];
      IdsSize(front);
      assert (set i | 0 <= i < |steps| :: steps[i].id)
          == (set i | 0 <= i < |front| :: front[i].id) + {last.id} by {
        forall i | 0 <= i < |front| ensures front[i] == steps[i] {}
      }
    }
  }

  /** Distinct step ids: there are n of them exactly when all steps are listed. */
  lemma AllListedIffN(steps: seq<PlanStep>, ids: seq<string>)
    requires UniqueIds(steps) && Distinct(ids)
    requires forall i :: 0 <= i < |ids| ==> exists j :: 0 <= j < |steps| && steps[j].id == ids[i]
    ensures |ids| <= |steps|
    ensures |ids| == |steps| <==> forall j :: 0 <= j < |steps| ==> steps[j].id in ids
  {
    var all := set j | 0 <= j < |steps| :: steps[j].id;
    DistinctSize(ids, all);
    IdsSize(steps);
    var listed := set x | x in ids;
    SeqSize(ids, listed);
    if forall j :: 0 <= j < |steps| ==> steps[j].id in ids {
      SubsetSize(all, listed);
    } else {
      var j :| 0 <= j < |steps| && steps[j].id !in ids;
      assert steps[j].id in all;
    }
  }

  /** From an all-pending plan of n steps, the accepted sequences of rounds are exactly the
      dependency orders; none is longer than n, the plan is completed exactly when n rounds have
      been made, and until then another round is possible. */
  lemma {:induction false} PlanCompletesInExactlyNRounds(
    plan: ExecutionPlan, ids: seq<string>, reports: string -> Report)
    requires AllPending(plan)
    ensures Rounds(plan, ids, reports).Ok? <==> InDependencyOrder(GraphOf(plan.steps), ids)
    ensures Rounds(plan, ids, reports).Ok? ==> |ids| <= |plan.steps|
    ensures Rounds(plan, ids, reports).Ok? && ids != [] ==>
              (Rounds(plan, ids, reports).value.status.PlanCompleted? <==> |ids| == |plan.steps|)
    ensures Rounds(plan, ids, reports).Ok? && |ids| < |plan.steps| ==>
              ReadySteps(Rounds(plan, ids, reports).value) != []
  {
    RoundsFollowDependencies(plan, ids, reports);
    if Rounds(plan, ids, reports).Ok? {
      forall i | 0 <= i < |ids| ensures exists j :: 0 <= j < |plan.steps| && plan.steps[j].id == ids[i] {
        GraphOfKeys(plan.steps, ids[i]);
      }
      AllListedIffN(plan.steps, ids);
      if |ids| < |plan.steps| {
        AnotherRound(plan, Rounds(plan, ids, reports).value, ids);
      }
    }
  }

  lemma AnotherRound(plan: ExecutionPlan, p: ExecutionPlan, ids: seq<string>)
    requires AllPending(plan) && DoneExactly(plan, p, ids)
    requires exists j :: 0 <= j < |plan.steps| && plan.steps[j].id !in ids
    ensures ReadySteps(p) != []
  {
    var j :| 0 <= j < |plan.steps| && plan.steps[j].id !in ids;
    assert p.steps[j].status.Pending?;
    SameShape(plan.steps, p.steps);
    SomeStepIsReady(p);
  }

  lemma {:induction false} SeqSize(s: seq<string>, u: set<string>)
    requires u == set x | x in s
    ensures |u| <= |s|
  {
    if s != [] {
      var front, last := s[..|s| - 1], s[|s| - 1];
      SeqSize(front, set x | x in front);
      assert s == front + [last];
      assert u == (set x | x in front) + {last};
    }
  }

  /** Only ids and dependencies matter to the graph. */
  lemma {:induction false} SameShape(a: seq<PlanStep>, b: seq<PlanStep>)
    requires |a| == |b|
    requires forall i :: 0 <= i < |a| ==> a[i].id == b[i].id && a[i].dependencies == b[i].dependencies
    ensures GraphOf(a) == GraphOf(b) && (ValidGraph(a) <==> ValidGraph(b))
  {
    if a != [] {
      SameShape(a[..|a| - 1], b[..|b| - 1]);
    }
  }
}
