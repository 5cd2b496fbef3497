/** `FlowBudgetPolicy`: aggregate limits checked before and after every agent transport. */
module Budget {
  import opened Common
  import opened Lifecycle

  datatype BudgetKind = Invocations | InputTokens | OutputTokens | TotalTokens | ModelCalls | ToolCalls | Timeout

  datatype Violation = Violation(kind: BudgetKind, limit: int, actual: int)

  datatype Check = Check(kind: BudgetKind, limit: Option<nat>, actual: int)

  /** The configured tuple that the policy scans, in its order. */
  function Checks(s: FlowState): seq<Check> {
    ChecksOf(s.budget, SumUsage(s.invocations),
             SumCount(s.invocations, "model_calls"), SumCount(s.invocations, "tool_calls"))
  }

  function ChecksOf(b: FlowBudget, used: Usage, models: int, tools: int): seq<Check> {
    [Check(InputTokens, b.maxInputTokens, used.input),
     Check(OutputTokens, b.maxOutputTokens, used.output),
     Check(TotalTokens, b.maxTotalTokens, used.Total()),
     Check(ModelCalls, b.maxModelCalls, models),
     Check(ToolCalls, b.maxToolCalls, tools)]
  }

  predicate Reached(c: Check, inclusive: bool) {
    c.limit.Some? && if inclusive then c.actual >= c.limit.value else c.actual > c.limit.value
  }

  function FirstReached(checks: seq<Check>, inclusive: bool): Option<Violation> {
    if checks == [] then None
    else if Reached(checks[0], inclusive) then Some(Violation(checks[0].kind, checks[0].limit.value, checks[0].actual))
    else FirstReached(checks[1..], inclusive)
  }

  function TimeoutViolation(s: FlowState, now: Time): Violation {
    Violation(Timeout, if s.budget.timeout.Some? then s.budget.timeout.value else 0,
              if now > s.createdAt then now - s.createdAt else 0)
  }

  /** `FlowConsumption` refuses negative counts, and agents report what they like. */
  predicate Consumable(s: FlowState) {
    SumCount(s.invocations, "model_calls") >= 0 && SumCount(s.invocations, "tool_calls") >= 0
  }

  /** None where `FlowConsumption` cannot be built, which raises. */
  function BeforeTransport(s: FlowState, now: Time, newInvocation: bool): Option<Option<Violation>> {
    if Consumable(s) then Some(ViolationBefore(s, now, newInvocation)) else None
  }

  function AfterTransport(s: FlowState, now: Time): Option<Option<Violation>> {
    if Consumable(s) then Some(ViolationAfter(s, now)) else None
  }

  function ViolationBefore(s: FlowState, now: Time, newInvocation: bool): Option<Violation> {
    if s.deadlineAt.Some? && now >= s.deadlineAt.value then Some(TimeoutViolation(s, now))
    else if newInvocation && |s.invocations| >= s.budget.maxInvocations
      then Some(Violation(Invocations, s.budget.maxInvocations, |s.invocations|))
    else FirstReached(Checks(s), true)
  }

  function ViolationAfter(s: FlowState, now: Time): Option<Violation> {
    if s.deadlineAt.Some? && now >= s.deadlineAt.value then Some(TimeoutViolation(s, now))
    else FirstReached(Checks(s), false)
  }

  predicate AllBelow(c: seq<Check>) {
    forall i :: 0 <= i < |c| && c[i].limit.Some? ==> c[i].actual < c[i].limit.value
  }

  predicate AllWithin(c: seq<Check>) {
    forall i :: 0 <= i < |c| && c[i].limit.Some? ==> c[i].actual <= c[i].limit.value
  }

  /** Every configured cumulative total is below its limit. */
  predicate Below(s: FlowState) { AllBelow(Checks(s)) }

  /** Every configured cumulative total is within its limit. */
  predicate Within(s: FlowState) { AllWithin(Checks(s)) }

  lemma {:induction false} NothingReached(checks: seq<Check>, inclusive: bool)
    ensures FirstReached(checks, inclusive).None?
       <==> forall i :: 0 <= i < |checks| ==> !Reached(checks[i], inclusive)
  {
    if checks != [] {
      NothingReached(checks[1..], inclusive);
      if !Reached(checks[0], inclusive) {
        assert forall i :: 0 < i < |checks| ==> checks[i] == checks[1..][i - 1];
      }
    }
  }

  /** A transport is let through exactly when the deadline lies ahead, a new invocation is still
      allowed and every cumulative total is below its limit. */
  lemma BeforeTransportMeaning(s: FlowState, now: Time, newInvocation: bool)
    ensures BeforeTransport(s, now, newInvocation) == Some(None) <==>
      && Consumable(s)
      && (s.deadlineAt.Some? ==> now < s.deadlineAt.value)
      && (newInvocation ==> |s.invocations| < s.budget.maxInvocations)
      && Below(s)
  {
    NothingReached(Checks(s), true);
    assert Below(s) <==> forall i :: 0 <= i < |Checks(s)| ==> !Reached(Checks(s)[i], true);
  }

  lemma AfterTransportMeaning(s: FlowState, now: Time)
    ensures AfterTransport(s, now) == Some(None) <==>
      Consumable(s) && (s.deadlineAt.Some? ==> now < s.deadlineAt.value) && Within(s)
  {
    NothingReached(Checks(s), false);
    assert Within(s) <==> forall i :: 0 <= i < |Checks(s)| ==> !Reached(Checks(s)[i], false);
  }

  // ---------------------------------------------------------------- in terms of the budget's own fields

  /** The limit that a budget sets for the sum of a kind. Time and invocations are no sums. */
  function LimitOf(b: FlowBudget, kind: BudgetKind): Option<nat> {
    match kind
    case Timeout | Invocations => None
    case InputTokens => b.maxInputTokens
    case OutputTokens => b.maxOutputTokens
    case TotalTokens => b.maxTotalTokens
    case ModelCalls => b.maxModelCalls
    case ToolCalls => b.maxToolCalls
  }

  function TotalOf(used: Usage, models: int, tools: int, kind: BudgetKind): int {
    match kind
    case Timeout | Invocations => 0
    case InputTokens => used.input
    case OutputTokens => used.output
    case TotalTokens => used.input + used.output
    case ModelCalls => models
    case ToolCalls => tools
  }

  /** The position at which the policy looks at a kind. */
  function Rank(kind: BudgetKind): nat {
    match kind
    case Timeout => 0
    case Invocations => 1
    case InputTokens => 2
    case OutputTokens => 3
    case TotalTokens => 4
    case ModelCalls => 5
    case ToolCalls => 6
  }

  predicate Over(limit: Option<nat>, total: int, inclusive: bool) {
    limit.Some? && if inclusive then total >= limit.value else total > limit.value
  }

  /** `v` reports a kind whose limit is reached, with that limit and total, and no kind before it in the
      policy's order has reached its own; nothing is reported exactly when none has. */
  ghost predicate FirstOver(v: Option<Violation>, b: FlowBudget, used: Usage, models: int, tools: int,
                            inclusive: bool)
  {
    if v.None? then forall kind :: !Over(LimitOf(b, kind), TotalOf(used, models, tools, kind), inclusive)
    else
      var kind := v.value.kind;
      && Over(LimitOf(b, kind), TotalOf(used, models, tools, kind), inclusive)
      && v.value.limit == LimitOf(b, kind).value && v.value.actual == TotalOf(used, models, tools, kind)
      && forall earlier :: Rank(earlier) < Rank(kind) ==>
           !Over(LimitOf(b, earlier), TotalOf(used, models, tools, earlier), inclusive)
  }

  /** The same of the sums over all agents of a run. */
  ghost predicate ReportsFirst(v: Option<Violation>, s: FlowState, inclusive: bool) {
    FirstOver(v, s.budget, SumUsage(s.invocations), SumCount(s.invocations, "model_calls"),
              SumCount(s.invocations, "tool_calls"), inclusive)
  }

  /** The scan, one check after the other. */
  lemma {:induction false} ScanInOrder(a: Check, b: Check, c: Check, d: Check, e: Check, inclusive: bool)
    ensures var v := FirstReached([a, b, c, d, e], inclusive);
            v == if Reached(a, inclusive) then Some(Violation(a.kind, a.limit.value, a.actual))
                 else if Reached(b, inclusive) then Some(Violation(b.kind, b.limit.value, b.actual))
                 else if Reached(c, inclusive) then Some(Violation(c.kind, c.limit.value, c.actual))
                 else if Reached(d, inclusive) then Some(Violation(d.kind, d.limit.value, d.actual))
                 else if Reached(e, inclusive) then Some(Violation(e.kind, e.limit.value, e.actual))
                 else None
  {
    ScanCons(a, [b, c, d, e], inclusive);
    ScanCons(b, [c, d, e], inclusive);
    ScanCons(c, [d, e], inclusive);
    ScanCons(d, [e], inclusive);
    ScanCons(e, [], inclusive);
    assert [a] + [b, c, d, e] == [a, b, c, d, e];
    assert [b] + [c, d, e] == [b, c, d, e];
    assert [c] + [d, e] == [c, d, e];
    assert [d] + [e] == [d, e];
    assert [e] + [] == [e];
  }

  lemma {:induction false} ScanCons(a: Check, rest: seq<Check>, inclusive: bool)
    ensures FirstReached([a] + rest, inclusive)
         == if Reached(a, inclusive) then Some(Violation(a.kind, a.limit.value, a.actual))
            else FirstReached(rest, inclusive)
  {
    assert ([a] + rest)[1..] == rest;
  }

  lemma {:induction false} ScanReportsFirst(b: FlowBudget, used: Usage, models: int, tools: int, inclusive: bool)
    ensures FirstOver(FirstReached(ChecksOf(b, used, models, tools), inclusive), b, used, models, tools, inclusive)
  {
    ScanOfChecks(b, used, models, tools, inclusive);
  }

  lemma {:induction false} ScanOfChecks(b: FlowBudget, used: Usage, models: int, tools: int, inclusive: bool)
    ensures var v := FirstReached(ChecksOf(b, used, models, tools), inclusive);
            v == if Over(b.maxInputTokens, used.input, inclusive)
                   then Some(Violation(InputTokens, b.maxInputTokens.value, used.input))
                 else if Over(b.maxOutputTokens, used.output, inclusive)
                   then Some(Violation(OutputTokens, b.maxOutputTokens.value, used.output))
                 else if Over(b.maxTotalTokens, used.input + used.output, inclusive)
                   then Some(Violation(TotalTokens, b.maxTotalTokens.value, used.input + used.output))
                 else if Over(b.maxModelCalls, models, inclusive)
                   then Some(Violation(ModelCalls, b.maxModelCalls.value, models))
                 else if Over(b.maxToolCalls, tools, inclusive)
                   then Some(Violation(ToolCalls, b.maxToolCalls.value, tools))
                 else None
  {
    var c := ChecksOf(b, used, models, tools);
    ScanInOrder(c[0], c[1], c[2], c[3], c[4], inclusive);
    assert c == [c[0], c[1], c[2], c[3], c[4]];
  }

  /** How long a run has existed. */
  function Elapsed(s: FlowState, now: Time): int {
    if now > s.createdAt then now - s.createdAt else 0
  }

  /** Before a transport the deadline comes first, then the invocation limit, then the first cumulative kind
      whose total is not below its limit. */
  lemma BeforeTransportReports(s: FlowState, now: Time, newInvocation: bool)
    requires Consumable(s)
    ensures BeforeTransport(s, now, newInvocation).Some?
    ensures var v := BeforeTransport(s, now, newInvocation).value;
            if s.deadlineAt.Some? && now >= s.deadlineAt.value then
              v.Some? && v.value.kind == Timeout && v.value.actual == Elapsed(s, now)
              && (s.budget.timeout.Some? ==> v.value.limit == s.budget.timeout.value)
            else if newInvocation && |s.invocations| >= s.budget.maxInvocations then
              v == Some(Violation(Invocations, s.budget.maxInvocations, |s.invocations|))
            else ReportsFirst(v, s, true)
  {
    ScanReportsFirst(s.budget, SumUsage(s.invocations), SumCount(s.invocations, "model_calls"),
                     SumCount(s.invocations, "tool_calls"), true);
  }

  /** After a transport the deadline comes first, then the first cumulative kind whose total is above its
      limit. */
  lemma AfterTransportReports(s: FlowState, now: Time)
    requires Consumable(s)
    ensures AfterTransport(s, now).Some?
    ensures var v := AfterTransport(s, now).value;
            if s.deadlineAt.Some? && now >= s.deadlineAt.value then
              v.Some? && v.value.kind == Timeout && v.value.actual == Elapsed(s, now)
              && (s.budget.timeout.Some? ==> v.value.limit == s.budget.timeout.value)
            else ReportsFirst(v, s, false)
  {
    ScanReportsFirst(s.budget, SumUsage(s.invocations), SumCount(s.invocations, "model_calls"),
                     SumCount(s.invocations, "tool_calls"), false);
  }

  ghost predicate Under(limit: Option<nat>, total: int) {
    limit.Some? ==> total < limit.value
  }

  ghost predicate NotOver(limit: Option<nat>, total: int) {
    limit.Some? ==> total <= limit.value
  }

  /** A transport is let through exactly when no sum of calls is negative, the deadline lies ahead, a new
      invocation is still allowed, and input, output and all tokens, model calls and tool calls are each
      below their own limit. */
  lemma LetThroughIff(s: FlowState, now: Time, newInvocation: bool)
    ensures var used, b := SumUsage(s.invocations), s.budget;
            var models, tools := SumCount(s.invocations, "model_calls"), SumCount(s.invocations, "tool_calls");
            BeforeTransport(s, now, newInvocation) == Some(None) <==>
              && models >= 0 && tools >= 0
              && (s.deadlineAt.Some? ==> now < s.deadlineAt.value)
              && (newInvocation ==> |s.invocations| < b.maxInvocations)
              && Under(b.maxInputTokens, used.input) && Under(b.maxOutputTokens, used.output)
              && Under(b.maxTotalTokens, used.input + used.output)
              && Under(b.maxModelCalls, models) && Under(b.maxToolCalls, tools)
  {
    BeforeTransportMeaning(s, now, newInvocation);
    BelowMeaning(s);
  }

  /** A settled run passes exactly when no sum of calls is negative, the deadline lies ahead and no total is
      above its own limit. */
  lemma PassesIff(s: FlowState, now: Time)
    ensures var used, b := SumUsage(s.invocations), s.budget;
            var models, tools := SumCount(s.invocations, "model_calls"), SumCount(s.invocations, "tool_calls");
            AfterTransport(s, now) == Some(None) <==>
              && models >= 0 && tools >= 0
              && (s.deadlineAt.Some? ==> now < s.deadlineAt.value)
              && NotOver(b.maxInputTokens, used.input) && NotOver(b.maxOutputTokens, used.output)
              && NotOver(b.maxTotalTokens, used.input + used.output)
              && NotOver(b.maxModelCalls, models) && NotOver(b.maxToolCalls, tools)
  {
    AfterTransportMeaning(s, now);
    WithinMeaning(s);
  }

  /** What it means to be below all cumulative limits. */
  lemma BelowMeaning(s: FlowState)
    ensures var used, b := SumUsage(s.invocations), s.budget;
            Below(s) <==>
              && Under(b.maxInputTokens, used.input) && Under(b.maxOutputTokens, used.output)
              && Under(b.maxTotalTokens, used.input + used.output)
              && Under(b.maxModelCalls, SumCount(s.invocations, "model_calls"))
              && Under(b.maxToolCalls, SumCount(s.invocations, "tool_calls"))
  {
    OneByOne(s.budget, SumUsage(s.invocations),
             SumCount(s.invocations, "model_calls"), SumCount(s.invocations, "tool_calls"));
  }

  lemma WithinMeaning(s: FlowState)
    ensures var used, b := SumUsage(s.invocations), s.budget;
            Within(s) <==>
              && NotOver(b.maxInputTokens, used.input) && NotOver(b.maxOutputTokens, used.output)
              && NotOver(b.maxTotalTokens, used.input + used.output)
              && NotOver(b.maxModelCalls, SumCount(s.invocations, "model_calls"))
              && NotOver(b.maxToolCalls, SumCount(s.invocations, "tool_calls"))
  {
    OneByOne(s.budget, SumUsage(s.invocations),
             SumCount(s.invocations, "model_calls"), SumCount(s.invocations, "tool_calls"));
  }

  lemma OneByOne(b: FlowBudget, used: Usage, models: int, tools: int)
    ensures AllBelow(ChecksOf(b, used, models, tools)) <==>
              && Under(b.maxInputTokens, used.input) && Under(b.maxOutputTokens, used.output)
              && Under(b.maxTotalTokens, used.input + used.output)
              && Under(b.maxModelCalls, models) && Under(b.maxToolCalls, tools)
    ensures AllWithin(ChecksOf(b, used, models, tools)) <==>
              && NotOver(b.maxInputTokens, used.input) && NotOver(b.maxOutputTokens, used.output)
              && NotOver(b.maxTotalTokens, used.input + used.output)
              && NotOver(b.maxModelCalls, models) && NotOver(b.maxToolCalls, tools)
  {
    var c := ChecksOf(b, used, models, tools);
    assert c[0].limit == b.maxInputTokens && c[1].limit == b.maxOutputTokens && c[2].limit == b.maxTotalTokens;
    assert c[3].limit == b.maxModelCalls && c[4].limit == b.maxToolCalls;
  }

  /** A run created with a timeout is out of time from that long after its creation on, whatever has happened
      to it since; one without never is. */
  lemma OutOfTimeIff(definition: FlowDefinition, runId: Id, created: Time, s: FlowState, now: Time)
    requires s.deadlineAt == Create(definition, runId, created).deadlineAt && Consumable(s)
    ensures var v := AfterTransport(s, now).value;
            v.Some? && v.value.kind == Timeout
            <==> definition.budget.timeout.Some? && now >= created + definition.budget.timeout.value
  {
    AfterTransportReports(s, now);
  }

  /** Totals depend on the results only. */
  lemma {:induction false} TotalsOfResults(a: seq<Invocation>, b: seq<Invocation>, key: string)
    requires |a| == |b| && forall i :: 0 <= i < |a| ==> a[i].result == b[i].result
    ensures SumUsage(a) == SumUsage(b) && SumCount(a, key) == SumCount(b, key)
  {
    if a != [] { TotalsOfResults(a[..|a| - 1], b[..|b| - 1], key); }
  }

  /** An invocation without a result adds nothing. */
  lemma {:induction false} TotalsOfNewInvocation(invs: seq<Invocation>, x: Invocation, key: string)
    requires x.result.None?
    ensures SumUsage(invs + [x]) == SumUsage(invs) && SumCount(invs + [x], key) == SumCount(invs, key)
  {
    assert (invs + [x])[..|invs|] == invs;
  }

  function Reporting(id: Id, calls: int): Invocation {
    var r := AgentResult(
      1, id, "a", ResCompleted, None, NO_USAGE, [], None, None, map["model_calls" := JsonInt(calls)]);
    Invocation(id, 1, id, "a", DefinitionRef("a", "1", "f"), InvocationInput("p", None, []), Completed, Some(r), 0, 0)
  }

  function RunOf(invs: seq<Invocation>): FlowState {
    FlowState(1, DefinitionRef("flow", "1", "f"), FlowBudget(20, None, None, None, None, None, None), None, 3,
              Running, invs, None, None, None, 0, 0)
  }

  /** A valid run without any limit whose only agent reports -1 model calls: both checks raise. */
  lemma NegativeSumRaises()
    ensures ValidateState(RunOf([Reporting(1, -1)])) && ValidateResult(Reporting(1, -1))
    ensures BeforeTransport(RunOf([Reporting(1, -1)]), 0, true).None?
    ensures AfterTransport(RunOf([Reporting(1, -1)]), 0).None?
  {
    var a := Reporting(1, -1);
    assert [a][..0] == [];
    assert SumCount([a], "model_calls") == SumCount([], "model_calls") - 1;
  }

  /** One agent reports 5 and another -3: the sum is not negative, so nothing is raised. */
  lemma NegativeReportAlonePasses()
    ensures Consumable(RunOf([Reporting(1, 5), Reporting(2, -3)]))
  {
    var b, c := Reporting(1, 5), Reporting(2, -3);
    assert [b, c][..1] == [b] && [b][..0] == [];
    assert SumCount([b], "model_calls") == SumCount([], "model_calls") + 5;
    assert SumCount([b, c], "model_calls") == SumCount([b], "model_calls") - 3;
    assert "tool_calls" != "model_calls" by { assert "tool_calls"[0] != "model_calls"[0]; }
    assert SumCount([b], "tool_calls") == SumCount([], "tool_calls");
    assert SumCount([b, c], "tool_calls") == SumCount([b], "tool_calls");
  }
}
