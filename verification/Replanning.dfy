/** Replanning: `_merge_replanned_steps` keeps what has happened and replaces what has not. */
module Replanning {
  import opened Common
  import opened PlanGraph
  import opened Plan

  predicate IsHistorical(s: PlanStep) {
    s.status in {Completed, Failed, Cancelled, Skipped}
  }

  function History(steps: seq<PlanStep>): seq<PlanStep> {
    Select(steps, s => IsHistorical(s))
  }

  datatype MergeError = NothingCompleted | BadGraph | HistoryChanged

  function Merged(plan: ExecutionPlan, future: seq<PlanStep>): ExecutionPlan {
    plan.(steps := History(plan.steps) + future,
          status := if future != [] then PlanRunning else PlanCompleted,
          revision := plan.revision + 1)
  }

  ghost function Merge(plan: ExecutionPlan, future: seq<PlanStep>): Result<ExecutionPlan, MergeError> {
    var history := History(plan.steps);
    if !exists i :: 0 <= i < |history| && history[i].status.Completed? then Err(NothingCompleted)
    else if !ValidGraph(history + future) then Err(BadGraph)
    else if exists i :: 0 <= i < |history| && i < |Merged(plan, future).steps|
                        && history[i] != Merged(plan, future).steps[i] then Err(HistoryChanged)
    else Ok(Merged(plan, future))
  }

  /** The merge, run: the graph of the new plan is validated by the depth-first walk. */
  method MergeReplannedSteps(plan: ExecutionPlan, future: seq<PlanStep>)
    returns (r: Result<ExecutionPlan, MergeError>)
    ensures r == Merge(plan, future)
  {
    var history := History(plan.steps);
    if !exists i :: 0 <= i < |history| && history[i].status.Completed? { return Err(NothingCompleted); }
    var ok := ValidateGraph(history + future);
    if !ok { return Err(BadGraph); }
    var updated := Merged(plan, future);
    if exists i :: 0 <= i < |history| && i < |updated.steps| && history[i] != updated.steps[i] {
      return Err(HistoryChanged);
    }
    return Ok(updated);
  }

  // ---------------------------------------------------------------- every operation on a plan

  datatype Op =
    | OpStart(id: string)
    | OpComplete(id: string, result: Option<string>, success: Option<bool>, attachments: seq<string>)
    | OpFailStep(id: string, error: string)
    | OpWait(id: string)
    | OpResume(id: string)
    | OpCancel(error: string)
    | OpFail(error: string)
    | OpMerge(future: seq<PlanStep>)

  /** A refused operation leaves the plan as it is. */
  ghost function ApplyOp(plan: ExecutionPlan, op: Op): ExecutionPlan {
    var r := match op
      case OpStart(id) => StartStep(plan, id)
      case OpComplete(id, result, success, attachments) => CompleteStep(plan, id, result, success, attachments)
      case OpFailStep(id, error) => FailStep(plan, id, error)
      case OpWait(id) => WaitStep(plan, id)
      case OpResume(id) => ResumeStep(plan, id)
      case OpCancel(error) => Cancel(plan, error)
      case OpFail(error) => Fail(plan, error)
      case OpMerge(future) =>
        (match Merge(plan, future) case Ok(p) => Ok(p) case Err(_) => Err(InvalidValue));
    if r.Ok? then r.value else plan
  }

  ghost function Run(plan: ExecutionPlan, ops: seq<Op>): ExecutionPlan {
    if ops == [] then plan else ApplyOp(Run(plan, ops[..|ops| - 1]), ops[|ops| - 1])
  }

  /** New steps come out of the parser pending. */
  ghost predicate OpsOk(ops: seq<Op>) {
    forall i :: 0 <= i < |ops| && ops[i].OpMerge? ==> AllNew(ops[i].future)
  }

  ghost predicate AllNew(future: seq<PlanStep>) {
    forall i :: 0 <= i < |future| ==> future[i].status.Pending?
  }

  ghost predicate DependenciesSettled(steps: seq<PlanStep>, s: PlanStep) {
    forall m :: 0 <= m < |s.dependencies| ==> DependencySettled(steps, s.dependencies[m])
  }

  /** Whatever has been started has all its dependencies settled. */
  ghost predicate PlanInv(plan: ExecutionPlan) {
    && ValidGraph(plan.steps)
    && (forall i :: 0 <= i < |plan.steps| && !plan.steps[i].status.Pending? ==>
          DependenciesSettled(plan.steps, plan.steps[i]))
  }

  // ---------------------------------------------------------------- history as a subsequence

  /** `a` is `b` with some elements left out. */
  ghost predicate Subsequence(a: seq<PlanStep>, b: seq<PlanStep>)
    decreases |b|
  {
    a == [] ||
    (b != [] &&
     ((a[|a| - 1] == b[|b| - 1] && Subsequence(a[..|a| - 1], b[..|b| - 1]))
      || Subsequence(a, b[..|b| - 1])))
  }

  lemma {:induction false} SubsequenceOfSelf(a: seq<PlanStep>)
    ensures Subsequence(a, a)
  {
    if a != [] { SubsequenceOfSelf(a[..|a| - 1]); }
  }

  lemma {:induction false} SubsequenceIsTransitive(a: seq<PlanStep>, b: seq<PlanStep>, c: seq<PlanStep>)
    requires Subsequence(a, b) && Subsequence(b, c)
    ensures Subsequence(a, c)
    decreases |c|
  {
    if a != [] {
      var b', c' := b[..|b| - 1], c[..|c| - 1];
      if b[|b| - 1] == c[|c| - 1] && Subsequence(b', c') {
        if a[|a| - 1] == b[|b| - 1] && Subsequence(a[..|a| - 1], b') {
          SubsequenceIsTransitive(a[..|a| - 1], b', c');
        } else {
          SubsequenceIsTransitive(a, b', c');
        }
      } else {
        SubsequenceIsTransitive(a, b, c');
      }
    }
  }

  /** Steps change in place; those of the past do not change at all; a step leaves `Pending` only
      when it is ready. */
  ghost predicate StepsEvolve(a: seq<PlanStep>, b: seq<PlanStep>) {
    && |a| == |b|
    && (forall i :: 0 <= i < |a| ==>
          && a[i].id == b[i].id && a[i].dependencies == b[i].dependencies
          && (IsHistorical(a[i]) ==> a[i] == b[i])
          && (b[i].status.Pending? || !a[i].status.Pending? || IsReady(a, a[i])))
  }

  lemma {:induction false} HistoryGrows(a: seq<PlanStep>, b: seq<PlanStep>)
    requires |a| == |b|
    requires forall i :: 0 <= i < |a| && IsHistorical(a[i]) ==> a[i] == b[i]
    ensures Subsequence(History(a), History(b))
  {
    if a != [] {
      HistoryGrows(a[..|a| - 1], b[..|b| - 1]);
      var ha, hb := History(a[..|a| - 1]), History(b[..|b| - 1]);
      if IsHistorical(a[|a| - 1]) {
        assert (ha + [a[|a| - 1]])[..|ha|] == ha;
      }
      if IsHistorical(b[|b| - 1]) {
        assert (hb + [b[|b| - 1]])[..|hb|] == hb;
      }
    }
  }

  lemma EvolveKeepsInvariant(plan: ExecutionPlan, p: ExecutionPlan)
    requires PlanInv(plan) && StepsEvolve(plan.steps, p.steps)
    ensures PlanInv(p) && Subsequence(History(plan.steps), History(p.steps))
  {
    var a, b := plan.steps, p.steps;
    SameShape(a, b);
    HistoryGrows(a, b);
    forall i | 0 <= i < |b| && !b[i].status.Pending? ensures DependenciesSettled(b, b[i]) {
      assert DependenciesSettled(a, a[i]);
      forall m | 0 <= m < |b[i].dependencies| ensures DependencySettled(b, b[i].dependencies[m]) {
        var j :| 0 <= j < |a| && a[j].id == a[i].dependencies[m] && IsSettled(a[j].status);
        assert b[j] == a[j];
      }
    }
  }

  /** Replacing one running, waiting or ready step. */
  lemma {:induction false} ReplaceEvolves(steps: seq<PlanStep>, id: string, x: PlanStep)
    requires UniqueIds(steps) && GetStep(steps, id).Some?
    requires var s := GetStep(steps, id).value;
             && x.id == s.id && x.dependencies == s.dependencies && !IsHistorical(s)
             && (s.status.Pending? ==> IsReady(steps, s))
    ensures StepsEvolve(steps, ReplaceStep(steps, x))
  {
    GetStepIsSound(steps, id);
    var k :| 0 <= k < |steps| && steps[k] == GetStep(steps, id).value;
    ReplaceStepAt(steps, k, x);
  }

  lemma OpKeepsInvariant(plan: ExecutionPlan, op: Op)
    requires PlanInv(plan) && (op.OpMerge? ==> AllNew(op.future))
    ensures PlanInv(ApplyOp(plan, op))
    ensures Subsequence(History(plan.steps), History(ApplyOp(plan, op).steps))
  {
    var p := ApplyOp(plan, op);
    if p == plan {
      SubsequenceOfSelf(History(plan.steps));
    } else if op.OpMerge? {
      MergeKeepsInvariant(plan, op.future);
    } else {
      assert StepsEvolve(plan.steps, p.steps) by { OpEvolves(plan, op); }
      EvolveKeepsInvariant(plan, p);
    }
  }

  lemma OpEvolves(plan: ExecutionPlan, op: Op)
    requires PlanInv(plan) && !op.OpMerge? && ApplyOp(plan, op) != plan
    ensures StepsEvolve(plan.steps, ApplyOp(plan, op).steps)
  {
    match op
    case OpStart(id) =>
      var s := GetStep(plan.steps, id).value;
      SelectMembers(plan.steps, t => IsReady(plan.steps, t), s);
      ReplaceEvolves(plan.steps, id, s.(status := Running));
    case OpComplete(id, result, success, attachments) =>
      ReplaceEvolves(plan.steps, id, GetStep(plan.steps, id).value.(
        status := Completed, success := success, result := result, attachments := attachments, error := None));
    case OpFailStep(id, error) =>
      ReplaceEvolves(plan.steps, id, GetStep(plan.steps, id).value.(status := Failed, error := Some(error)));
    case OpWait(id) =>
      ReplaceEvolves(plan.steps, id, GetStep(plan.steps, id).value.(status := Waiting));
    case OpResume(id) =>
      ReplaceEvolves(plan.steps, id, GetStep(plan.steps, id).value.(status := Running));
    case OpCancel(error) =>
    case OpFail(error) =>
  }

  // ---------------------------------------------------------------- the merge

  predicate IsIdOf(steps: seq<PlanStep>, x: string) {
    exists i :: 0 <= i < |steps| && steps[i].id == x
  }

  /** A condition on the new steps and the ids of the past only. */
  ghost predicate FutureFits(history: seq<PlanStep>, future: seq<PlanStep>) {
    && UniqueIds(future)
    && (forall i :: 0 <= i < |future| ==> !IsIdOf(history, future[i].id))
    && (forall i, d :: 0 <= i < |future| && d in future[i].dependencies ==>
          IsIdOf(history, d) || IsIdOf(future, d))
    && Acyclic(GraphOf(future))
  }

  lemma {:induction false} SelectKeepsOrder(steps: seq<PlanStep>, keep: PlanStep -> bool)
    requires UniqueIds(steps)
    ensures UniqueIds(Select(steps, keep))
  {
    if steps != [] {
      var front, last := steps[..|steps| - 1], steps[|steps| - 1];
      SelectKeepsOrder(front, keep);
      forall x | x in Select(front, keep) ensures x.id != last.id {
        SelectMembers(front, keep, x);
        var i :| 0 <= i < |front| && front[i] == x;
        assert steps[i].id != steps[|steps| - 1].id;
      }
    }
  }

  /** The past of a reachable plan: it is closed under dependencies, and it has no cycle. */
  lemma PastIsClosed(plan: ExecutionPlan)
    requires PlanInv(plan)
    ensures var h := History(plan.steps);
            UniqueIds(h) && Acyclic(GraphOf(h))
            && forall i, d :: 0 <= i < |h| && d in h[i].dependencies ==> IsIdOf(h, d)
  {
    var steps := plan.steps;
    var h := History(steps);
    SelectKeepsOrder(steps, s => IsHistorical(s));
    forall i, d | 0 <= i < |h| && d in h[i].dependencies ensures IsIdOf(h, d) {
      SelectMembers(steps, s => IsHistorical(s), h[i]);
      var k :| 0 <= k < |steps| && steps[k] == h[i];
      assert DependenciesSettled(steps, steps[k]);
      var m :| 0 <= m < |steps[k].dependencies| && steps[k].dependencies[m] == d;
      assert DependencySettled(steps, steps[k].dependencies[m]);
      var j :| 0 <= j < |steps| && steps[j].id == d && IsSettled(steps[j].status);
      SelectMembers(steps, s => IsHistorical(s), steps[j]);
      var n :| 0 <= n < |h| && h[n] == steps[j];
    }
    forall x, y | Edge(GraphOf(h), x, y) ensures Edge(GraphOf(steps), x, y) {
      GraphOfKeys(h, x);
      var i :| 0 <= i < |h| && h[i].id == x;
      GraphOfStep(h, i);
      SelectMembers(steps, s => IsHistorical(s), h[i]);
      var k :| 0 <= k < |steps| && steps[k] == h[i];
      GraphOfStep(steps, k);
    }
    SubgraphIsAcyclic(GraphOf(h), GraphOf(steps));
  }

  lemma SubgraphIsAcyclic(g: Graph, bigger: Graph)
    requires Acyclic(bigger) && forall x, y :: Edge(g, x, y) ==> Edge(bigger, x, y)
    ensures Acyclic(g)
  {
    forall p ensures !IsCycle(g, p) {
      if IsCycle(g, p) { assert IsCycle(bigger, p); }
    }
  }

  /** Past and future steps side by side: same edges as in the two graphs taken separately. */
  lemma {:induction false} EdgesOfMerge(h: seq<PlanStep>, f: seq<PlanStep>, x: string, y: string)
    requires UniqueIds(h + f)
    ensures Edge(GraphOf(h + f), x, y) <==> Edge(GraphOf(h), x, y) || Edge(GraphOf(f), x, y)
  {
    GraphOfKeys(h + f, x); GraphOfKeys(h, x); GraphOfKeys(f, x);
    UniqueParts(h, f);
    if i :| 0 <= i < |h| && h[i].id == x {
      GraphOfStep(h, i);
      assert (h + f)[i] == h[i];
      GraphOfStep(h + f, i);
    } else if j :| 0 <= j < |f| && f[j].id == x {
      GraphOfStep(f, j);
      assert (h + f)[|h| + j] == f[j];
      GraphOfStep(h + f, |h| + j);
    }
  }

  lemma UniqueParts(h: seq<PlanStep>, f: seq<PlanStep>)
    ensures UniqueIds(h + f) <==>
      UniqueIds(h) && UniqueIds(f) && forall j :: 0 <= j < |f| ==> !IsIdOf(h, f[j].id)
  {
    var w := h + f;
    assert forall i :: 0 <= i < |h| ==> w[i] == h[i];
    assert forall j :: 0 <= j < |f| ==> w[|h| + j] == f[j];
    if UniqueIds(w) {
      forall i, j | 0 <= i < j < |f| ensures f[i].id != f[j].id {
        assert w[|h| + i].id != w[|h| + j].id;
      }
      forall j | 0 <= j < |f| ensures !IsIdOf(h, f[j].id) {
        assert forall i :: 0 <= i < |h| ==> w[i].id != w[|h| + j].id;
      }
    } else {
      var i, j :| 0 <= i < j < |w| && w[i].id == w[j].id;
    }
  }

  /** A path that enters a closed set of steps stays in it. */
  lemma {:induction false} StaysInPast(g: Graph, h: seq<PlanStep>, p: seq<string>, k: nat)
    requires IsPath(g, p) && IsIdOf(h, p[0]) && k < |p|
    requires forall x, y :: IsIdOf(h, x) && Edge(g, x, y) ==> IsIdOf(h, y)
    ensures IsIdOf(h, p[k])
  {
    if k > 0 {
      StaysInPast(g, h, p, k - 1);
      assert Edge(g, p[k - 1], p[k]);
    }
  }

  /** Every cycle of the merged graph is a cycle of new steps. */
  lemma {:induction false} MergeIsAcyclicIffFutureIs(h: seq<PlanStep>, f: seq<PlanStep>)
    requires UniqueIds(h + f) && Acyclic(GraphOf(h))
    requires forall i, d :: 0 <= i < |h| && d in h[i].dependencies ==> IsIdOf(h, d)
    ensures Acyclic(GraphOf(h + f)) <==> Acyclic(GraphOf(f))
  {
    var g := GraphOf(h + f);
    UniqueParts(h, f);
    forall x, y ensures Edge(g, x, y) <==> Edge(GraphOf(h), x, y) || Edge(GraphOf(f), x, y) {
      EdgesOfMerge(h, f, x, y);
    }
    forall x, y | IsIdOf(h, x) && Edge(g, x, y) ensures IsIdOf(h, y) && Edge(GraphOf(h), x, y) {
      GraphOfKeys(f, x);
      GraphOfKeys(h, x);
      var i :| 0 <= i < |h| && h[i].id == x;
      GraphOfStep(h, i);
    }
    if Acyclic(g) {
      SubgraphIsAcyclic(GraphOf(f), g);
    } else if Acyclic(GraphOf(f)) {
      var p :| IsCycle(g, p);
      if IsIdOf(h, p[0]) {
        forall i | 0 <= i < |p| - 1 ensures Edge(GraphOf(h), p[i], p[i + 1]) {
          StaysInPast(g, h, p, i);
          assert Edge(g, p[i], p[i + 1]);
        }
        assert IsCycle(GraphOf(h), p);
      } else {
        forall i | 0 <= i < |p| - 1 ensures Edge(GraphOf(f), p[i], p[i + 1]) {
          assert Edge(g, p[i], p[i + 1]);
          if Edge(GraphOf(h), p[i], p[i + 1]) {
            GraphOfKeys(h, p[i]);
            assert IsIdOf(h, p[i]);
            TailPath(g, p, i);
            StaysInPast(g, h, p[i..], |p| - 1 - i);
          }
        }
        assert IsCycle(GraphOf(f), p);
      }
    }
  }

  lemma TailPath(g: Graph, p: seq<string>, k: nat)
    requires IsPath(g, p) && k < |p|
    ensures IsPath(g, p[k..])
  {
    forall i | 0 <= i < |p| - k - 1 ensures Edge(g, p[k..][i], p[k..][i + 1]) {
      assert Edge(g, p[k + i], p[k + i + 1]);
    }
  }

  lemma {:induction false} MergeIsClosedIffFutureIs(h: seq<PlanStep>, f: seq<PlanStep>)
    requires UniqueIds(h + f)
    requires forall i, d :: 0 <= i < |h| && d in h[i].dependencies ==> IsIdOf(h, d)
    ensures Closed(GraphOf(h + f)) <==>
      forall i, d :: 0 <= i < |f| && d in f[i].dependencies ==> IsIdOf(h, d) || IsIdOf(f, d)
  {
    var w := h + f;
    var g := GraphOf(w);
    forall x ensures x in g <==> IsIdOf(h, x) || IsIdOf(f, x) {
      GraphOfKeys(w, x);
      if i :| 0 <= i < |h| && h[i].id == x { assert w[i].id == x; }
      if j :| 0 <= j < |f| && f[j].id == x { assert w[|h| + j].id == x; }
    }
    forall k | 0 <= k < |w| ensures w[k].id in g && g[w[k].id] == w[k].dependencies { GraphOfStep(w, k); }
    if Closed(g) {
      forall i, d | 0 <= i < |f| && d in f[i].dependencies ensures IsIdOf(h, d) || IsIdOf(f, d) {
        assert w[|h| + i] == f[i];
        assert Edge(g, f[i].id, d);
      }
    } else {
      var x, y :| Edge(g, x, y) && y !in g;
      GraphOfKeys(w, x);
      var k :| 0 <= k < |w| && w[k].id == x;
      assert k >= |h| ==> w[k] == f[k - |h|];
    }
  }

  /** A merge into a reachable plan fails only because nothing has been completed yet or because of
      the new steps themselves; the past can never be the reason. */
  lemma MergeFailsOnlyForTheFuture(plan: ExecutionPlan, future: seq<PlanStep>)
    requires PlanInv(plan)
    ensures Merge(plan, future).Ok? <==>
      (exists i :: 0 <= i < |plan.steps| && plan.steps[i].status.Completed?)
      && FutureFits(History(plan.steps), future)
    ensures Merge(plan, future) != Err(HistoryChanged)
  {
    var h := History(plan.steps);
    PastIsClosed(plan);
    UniqueParts(h, future);
    assert (exists i :: 0 <= i < |h| && h[i].status.Completed?)
      <==> (exists i :: 0 <= i < |plan.steps| && plan.steps[i].status.Completed?) by {
      if i :| 0 <= i < |h| && h[i].status.Completed? {
        SelectMembers(plan.steps, s => IsHistorical(s), h[i]);
        var k :| 0 <= k < |plan.steps| && plan.steps[k] == h[i];
      }
      if k :| 0 <= k < |plan.steps| && plan.steps[k].status.Completed? {
        SelectMembers(plan.steps, s => IsHistorical(s), plan.steps[k]);
        var i :| 0 <= i < |h| && h[i] == plan.steps[k];
      }
    }
    if UniqueIds(h + future) {
      MergeIsClosedIffFutureIs(h, future);
      MergeIsAcyclicIffFutureIs(h, future);
    }
  }

  lemma {:induction false} HistoryOfMerge(h: seq<PlanStep>, future: seq<PlanStep>)
    requires AllNew(future) && forall i :: 0 <= i < |h| ==> IsHistorical(h[i])
    ensures History(h + future) == h
  {
    var w := h + future;
    if w != [] {
      if future == [] {
        assert w == h;
        HistoryOfMerge(h[..|h| - 1], []);
        assert h[..|h| - 1] + [] == h[..|h| - 1];
      } else {
        assert w[..|w| - 1] == h + future[..|future| - 1];
        HistoryOfMerge(h, future[..|future| - 1]);
      }
    }
  }

  lemma MergeKeepsInvariant(plan: ExecutionPlan, future: seq<PlanStep>)
    requires PlanInv(plan) && AllNew(future) && Merge(plan, future).Ok?
    ensures PlanInv(Merge(plan, future).value)
    ensures History(Merge(plan, future).value.steps) == History(plan.steps)
    ensures Subsequence(History(plan.steps), History(Merge(plan, future).value.steps))
  {
    var steps, h := plan.steps, History(plan.steps);
    var w := h + future;
    forall i | 0 <= i < |h| ensures IsHistorical(h[i]) { SelectMembers(steps, s => IsHistorical(s), h[i]); }
    HistoryOfMerge(h, future);
    SubsequenceOfSelf(h);
    forall i | 0 <= i < |w| && !w[i].status.Pending? ensures DependenciesSettled(w, w[i]) {
      assert i < |h|;
      SelectMembers(steps, s => IsHistorical(s), h[i]);
      var k :| 0 <= k < |steps| && steps[k] == h[i];
      assert DependenciesSettled(steps, steps[k]);
      forall m | 0 <= m < |w[i].dependencies| ensures DependencySettled(w, w[i].dependencies[m]) {
        var j :| 0 <= j < |steps| && steps[j].id == steps[k].dependencies[m] && IsSettled(steps[j].status);
        SelectMembers(steps, s => IsHistorical(s), steps[j]);
        var n :| 0 <= n < |h| && h[n] == steps[j];
        assert w[n] == steps[j];
      }
    }
  }

  /** From an all-pending plan, whatever is done to it: the past is kept unchanged and in order, and
      whatever has been started has all its dependencies settled. */
  lemma {:induction false} ReplanningKeepsHistory(plan: ExecutionPlan, ops: seq<Op>, k: nat)
    requires AllPending(plan) && OpsOk(ops) && k <= |ops|
    ensures PlanInv(Run(plan, ops))
    ensures Subsequence(History(Run(plan, ops[..k]).steps), History(Run(plan, ops).steps))
    decreases |ops|
  {
    if k == |ops| {
      assert ops[..k] == ops;
      SubsequenceOfSelf(History(Run(plan, ops).steps));
    }
    if ops != [] {
      var front := ops[..|ops| - 1];
      ReplanningKeepsHistory(plan, front, if k < |ops| then k else 0);
      OpKeepsInvariant(Run(plan, front), ops[|ops| - 1]);
      if k < |ops| {
        assert front[..k] == ops[..k];
        SubsequenceIsTransitive(History(Run(plan, ops[..k]).steps), History(Run(plan, front).steps),
                                History(Run(plan, ops).steps));
      }
    }
  }

  ghost predicate NothingOpen(plan: ExecutionPlan) {
    plan.status.PlanCompleted? ==> forall i :: 0 <= i < |plan.steps| ==> IsHistorical(plan.steps[i])
  }

  lemma OpKeepsNothingOpen(plan: ExecutionPlan, op: Op)
    requires NothingOpen(plan)
    ensures NothingOpen(ApplyOp(plan, op))
  {
    match op
    case OpStart(id) => GetStepIsSound(plan.steps, id);
    case OpComplete(id, _, _, _) => GetStepIsSound(plan.steps, id);
    case OpFailStep(id, _) => GetStepIsSound(plan.steps, id);
    case OpWait(id) => GetStepIsSound(plan.steps, id);
    case OpResume(id) => GetStepIsSound(plan.steps, id);
    case OpCancel(_) =>
    case OpFail(_) =>
    case OpMerge(future) =>
      var h := History(plan.steps);
      forall i | 0 <= i < |h| ensures IsHistorical(h[i]) {
        SelectMembers(plan.steps, s => IsHistorical(s), h[i]);
      }
  }

  /** Whatever is done to a plan, once it says completed no step is pending, running or waiting. */
  lemma {:induction false} CompletedPlansHaveNoOpenSteps(plan: ExecutionPlan, ops: seq<Op>)
    requires !plan.status.PlanCompleted?
    ensures NothingOpen(Run(plan, ops))
  {
    if ops != [] {
      CompletedPlansHaveNoOpenSteps(plan, ops[..|ops| - 1]);
      OpKeepsNothingOpen(Run(plan, ops[..|ops| - 1]), ops[|ops| - 1]);
    }
  }

  /** A completed plan whose steps have all settled, which is what completing its last step gives. */
  ghost predicate CompletedMeansSettled(plan: ExecutionPlan) {
    plan.status.PlanCompleted? ==> forall i :: 0 <= i < |plan.steps| ==> IsSettled(plan.steps[i].status)
  }

  /** A merge without new steps completes the plan whatever else its history holds. Its result can be
      trusted to have settled steps only if and only if there are new steps, or no step of the plan
      has failed or been cancelled. */
  lemma MergeCompletesHonestlyIff(plan: ExecutionPlan, future: seq<PlanStep>)
    requires Merge(plan, future).Ok?
    ensures CompletedMeansSettled(Merge(plan, future).value)
       <==> future != [] || forall i :: 0 <= i < |plan.steps| ==> plan.steps[i].status !in {Failed, Cancelled}
  {
    var steps, h := plan.steps, History(plan.steps);
    if future == [] {
      assert h + future == h;
      forall i | 0 <= i < |h| ensures h[i] in steps && IsHistorical(h[i]) {
        SelectMembers(steps, s => IsHistorical(s), h[i]);
      }
      forall i | 0 <= i < |steps| && IsHistorical(steps[i]) ensures steps[i] in h {
        SelectMembers(steps, s => IsHistorical(s), steps[i]);
      }
    }
  }

  /** Such a plan: one step completed, one failed, merged with nothing new. */
  lemma FailedStepInCompletedPlan() returns (plan: ExecutionPlan, p: ExecutionPlan)
    ensures PlanInv(plan) && Merge(plan, []) == Ok(p)
    ensures p.status.PlanCompleted? && exists i :: 0 <= i < |p.steps| && p.steps[i].status.Failed?
  {
    var a := PlanStep("a", "first", [], StepStatus.Completed, None, None, [], None);
    var b := PlanStep("b", "second", [], StepStatus.Failed, None, None, [], Some("broken"));
    plan := ExecutionPlan("p", "title", [a, b], PlanFailed, 3);
    var order := ["a", "b"];
    assert [a, b][..1] == [a] && [a][..0] == [];
    assert GraphOf([a]) == map["a" := []];
    assert GraphOf([a, b]) == map["a" := [], "b" := []];
    OrderExcludesCycles(GraphOf([a, b]), order);
    assert Select([a], s => IsHistorical(s)) == [a];
    assert History([a, b]) == [a, b];
    assert [a, b] + [] == [a, b];
    p := Merged(plan, []);
    assert p.steps[1] == b;
    assert plan.steps[0] == a;
  }
}
