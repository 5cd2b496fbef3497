/** `FlowToolSideEffectRecorder`: any number of recorders, crashing and starting over at any point,
    bracket tool transports with evidence in one shared ledger. */
module ToolEffects {
  import opened Common
  import opened SideEffects

  /** `_FlowEffectReceipt`, with the operation and mode it stands for. */
  datatype Receipt = Receipt(
    effectId: Id, expectedRevision: nat, confirmationRequired: bool, operation: Operation, mode: RetryMode)

  datatype RecorderError = ReplayUnsafe | LostOwnership | LedgerFailed

  function NewEvidence(id: Id, op: Operation, name: string, mode: RetryMode): Effect {
    Effect(id, op, name, mode, if mode.Idempotent? then Some(op) else None, Prepared, 1)
  }

  function ReceiptFor(e: Effect): Receipt {
    Receipt(e.id, e.revision, e.phase != Confirmed, e.operation, e.mode)
  }

  // ---------------------------------------------------------------- one recorder, with interference

  class FlowToolSideEffectRecorder {
    const ledger: InMemoryFlowSideEffectLedger

    constructor (ledger: InMemoryFlowSideEffectLedger)
      ensures this.ledger == ledger
    {
      this.ledger := ledger;
    }

    /** One round of the loop: try to start, and on a lost race read the evidence again. Before
        each ledger call the others may move any evidence and prepare more. */
    method TryStart(effect: Effect, first: seq<Interference>, second: seq<Interference>)
      returns (won: bool, next: Effect)
      requires ledger.Value().Valid()
      requires effect.id in ledger.effects && Develops(effect, ledger.effects[effect.id])
      requires effect.phase in {Prepared, Aborted}
      modifies ledger
      ensures ledger.Value().Valid() && LedgerDevelops(old(ledger.Value()), ledger.Value())
      ensures next.id in ledger.effects && Develops(effect, next) && next.PhaseFitsRevision()
      ensures next == ledger.effects[next.id]
      ensures effect.revision < next.revision
      ensures won ==> next.phase.Started? && old(ledger.effects[effect.id]) == effect
    {
      ghost var l0 := ledger.Value();
      ledger.Interfere(first);
      ghost var l1 := ledger.Value();
      DevelopsIsTransitive(effect, l0.effects[effect.id], l1.effects[effect.id]);
      var moved := ledger.Transition(effect.id, effect.revision, Started);
      LedgerDevelopsIsTransitive(l0, l1, ledger.Value());
      if moved.Ok? { return true, moved.value; }
      assert moved.error == RevisionConflict;
      ledger.Interfere(second);
      LedgerDevelopsIsTransitive(l0, l1, ledger.Value());
      DevelopsIsTransitive(effect, l1.effects[effect.id], ledger.effects[effect.id]);
      var reread := ledger.Get(effect.id);
      return false, reread.value;
    }

    /** The compare-and-swap loop ends after at most two lost races and never attempts an invalid
        transition. An unsafe effect is started by this call or the call is refused. */
    method StartOrReplay(prepared: Effect, others: nat -> seq<Interference>)
      returns (r: Result<Effect, RecorderError>, races: nat)
      requires ledger.Value().Valid()
      requires prepared.id in ledger.effects && Develops(prepared, ledger.effects[prepared.id])
      requires prepared.PhaseFitsRevision()
      modifies ledger
      ensures ledger.Value().Valid() && LedgerDevelops(old(ledger.Value()), ledger.Value())
      ensures races <= 2
      ensures r.Err? ==>
                && r.error == ReplayUnsafe && prepared.mode.Unsafe?
                && !ledger.effects[prepared.id].RetrySafe()
      ensures r.Ok? ==>
                && Develops(prepared, r.value) && r.value.phase in {Started, Confirmed}
                && Develops(r.value, ledger.effects[prepared.id])
                && (prepared.mode.Unsafe? ==>
                      && r.value == ledger.effects[prepared.id] && r.value.phase.Started?
                      && old(ledger.effects[prepared.id]).RetrySafe())
    {
      var effect := prepared;
      races := 0;
      while effect.phase in {Prepared, Aborted}
        invariant ledger.Value().Valid() && LedgerDevelops(old(ledger.Value()), ledger.Value())
        invariant prepared.id in ledger.effects && Develops(prepared, effect) && effect.PhaseFitsRevision()
        invariant Develops(effect, ledger.effects[prepared.id])
        invariant races < effect.revision && races <= 2
        decreases 4 - effect.revision
      {
        ghost var before := ledger.Value();
        var won, next := TryStart(effect, others(2 * races), others(2 * races + 1));
        LedgerDevelopsIsTransitive(old(ledger.Value()), before, ledger.Value());
        DevelopsIsTransitive(prepared, effect, next);
        if won { return Ok(next), races; }
        effect, races := next, races + 1;
      }
      r := if effect.mode.Idempotent? then Ok(effect) else Err(ReplayUnsafe);
    }

    /** `start`: the receipt, when there is one, is for this operation and meets what `Confirm` asks
        for. A refusal is due to another intent under this operation, or to an unsafe effect that
        may have happened already. */
    method Start(operation: Operation, name: string, mode: RetryMode, newId: Id, others: nat -> seq<Interference>)
      returns (r: Result<Receipt, RecorderError>, ghost issued: Effect)
      requires ledger.Value().Valid() && newId !in ledger.effects
      modifies ledger
      ensures ledger.Value().Valid() && LedgerDevelops(old(ledger.Value()), ledger.Value())
      ensures r.Ok? ==>
                && r.value == ReceiptFor(issued) && issued.phase in {Started, Confirmed}
                && r.value.operation == operation && r.value.mode == mode
                && issued.id in ledger.effects && Develops(issued, ledger.effects[issued.id])
      ensures r.Ok? && mode.Unsafe? && operation in old(ledger.operations) ==>
                old(ledger.effects[ledger.operations[operation]]).RetrySafe()
      ensures r.Err? ==> r.error == LedgerFailed || (r.error == ReplayUnsafe && mode.Unsafe?)
      ensures r == Err(LedgerFailed) ==> ledger.Value() == old(ledger.Value()) && operation in ledger.operations
      ensures r == Err(LedgerFailed) <==>
                && operation in old(ledger.operations)
                && var e := old(ledger.effects[ledger.operations[operation]]);
                   !(e.name == name && e.mode == mode
                     && e.keyDigest == if mode.Idempotent? then Some(operation) else None)
    {
      var e := NewEvidence(newId, operation, name, mode);
      if operation in ledger.operations { PreparesAgainIff(ledger.Value(), e); }
      issued := e;
      var prepared := ledger.Prepare(e);
      if prepared.Err? { return Err(LedgerFailed), issued; }
      ghost var l1 := ledger.Value();
      PrepareDevelops(old(ledger.Value()), e);
      var started, races := StartOrReplay(prepared.value, others);
      LedgerDevelopsIsTransitive(old(ledger.Value()), l1, ledger.Value());
      if started.Err? { return Err(started.error), issued; }
      issued := started.value;
      return Ok(ReceiptFor(started.value)), issued;
    }

    /** Given a receipt of `start`, confirmation succeeds whatever the others do. */
    method Confirm(receipt: Receipt, issued: Effect, others: nat -> seq<Interference>)
      returns (r: Result<(), RecorderError>)
      requires ledger.Value().Valid()
      requires receipt == ReceiptFor(issued) && issued.phase in {Started, Confirmed}
      requires issued.id in ledger.effects && Develops(issued, ledger.effects[issued.id])
      modifies ledger
      ensures ledger.Value().Valid() && LedgerDevelops(old(ledger.Value()), ledger.Value())
      ensures r == Ok(())
      ensures issued.id in ledger.effects && ledger.effects[issued.id].phase.Confirmed?
    {
      if !receipt.confirmationRequired { return Ok(()); }
      ghost var l0 := ledger.Value();
      ledger.Interfere(others(0));
      ghost var l1 := ledger.Value();
      DevelopsIsTransitive(issued, l0.effects[issued.id], l1.effects[issued.id]);
      var moved := ledger.Transition(receipt.effectId, receipt.expectedRevision, Confirmed);
      LedgerDevelopsIsTransitive(l0, l1, ledger.Value());
      if moved.Ok? { return Ok(()); }
      if moved.error != RevisionConflict { return Err(LedgerFailed); }
      ghost var l2 := ledger.Value();
      ledger.Interfere(others(1));
      LedgerDevelopsIsTransitive(l0, l2, ledger.Value());
      var current := ledger.Get(receipt.effectId);
      if current.Err? { return Err(LedgerFailed); }
      r := if current.value.phase.Confirmed? then Ok(()) else Err(LostOwnership);
    }
  }

  // ---------------------------------------------------------------- many recorders, step by step

  /** Where one recorder is between two ledger calls. */
  datatype Recorder =
    | Idle
    | Deciding(effect: Effect, races: nat)
    | Reloading(lost: Effect, races: nat)
    | Holding(receipt: Receipt, issued: Effect)
    | Rechecking(issued: Effect)
    | Broken

  datatype System = System(ledger: Ledger, recorders: map<nat, Recorder>, receipts: seq<Receipt>)

  datatype Step =
    | Call(who: nat, operation: Operation, name: string, mode: RetryMode, newId: Id)
    | Advance(who: nat)
    | Confirming(who: nat)
    | Crash(who: nat)
    | Other(id: Id, expectedRevision: nat, target: Phase)

  const EMPTY := System(Ledger(map[], map[]), map[], [])

  function At(y: System, who: nat): Recorder {
    if who in y.recorders then y.recorders[who] else Idle
  }

  function Move(y: System, who: nat, to: Recorder): System {
    y.(recorders := y.recorders[who := to])
  }

  function Issue(y: System, who: nat, e: Effect): System {
    Move(y, who, Holding(ReceiptFor(e), e)).(receipts := y.receipts + [ReceiptFor(e)])
  }

  /** One ledger call of a recorder, a crash, or a move made by somebody else. `Broken` stands for
      an error that the recorder does not expect. */
  function Next(y: System, step: Step): System {
    match step
    case Call(who, op, name, mode, newId) =>
      (match PrepareEffect(y.ledger, NewEvidence(newId, op, name, mode))
       case Ok((l, e)) => Move(y.(ledger := l), who, Deciding(e, 0))
       case Err(IntentConflict) => Move(y, who, Idle)
       case Err(_) => Move(y, who, Broken))
    case Advance(who) =>
      (match At(y, who)
       case Deciding(e, races) =>
         if e.phase in {Prepared, Aborted} then
           (match TransitionEffect(y.ledger, e.id, e.revision, Started)
            case Ok((l, s)) => Issue(y.(ledger := l), who, s)
            case Err(RevisionConflict) => Move(y, who, Reloading(e, races + 1))
            case Err(_) => Move(y, who, Broken))
         else if e.mode.Idempotent? then Issue(y, who, e)
         else Move(y, who, Idle)
       case Reloading(e, races) =>
         if e.id in y.ledger.effects then Move(y, who, Deciding(y.ledger.effects[e.id], races))
         else Move(y, who, Broken)
       case Rechecking(e) =>
         if e.id in y.ledger.effects && y.ledger.effects[e.id].phase.Confirmed?
         then Move(y, who, Idle) else Move(y, who, Broken)
       case _ => y)
    case Confirming(who) =>
      (match At(y, who)
       case Holding(receipt, e) =>
         if !receipt.confirmationRequired then Move(y, who, Idle)
         else (match TransitionEffect(y.ledger, receipt.effectId, receipt.expectedRevision, Confirmed)
               case Ok((l, _)) => Move(y.(ledger := l), who, Idle)
               case Err(RevisionConflict) => Move(y, who, Rechecking(e))
               case Err(_) => Move(y, who, Broken))
       case _ => y)
    case Crash(who) => y.(recorders := y.recorders - {who})
    case Other(id, revision, target) =>
      (match TransitionEffect(y.ledger, id, revision, target)
       case Ok((l, _)) => y.(ledger := l)
       case Err(_) => y)
  }

  function Run(y: System, steps: seq<Step>): System {
    if steps == [] then y else Next(Run(y, steps[..|steps| - 1]), steps[|steps| - 1])
  }

  /** New evidence carries a fresh UUID. */
  ghost predicate RunOk(y: System, steps: seq<Step>) {
    steps != [] ==>
      && RunOk(y, steps[..|steps| - 1])
      && (steps[|steps| - 1].Call? ==> steps[|steps| - 1].newId !in Run(y, steps[..|steps| - 1]).ledger.effects)
  }

  /** A copy of evidence, read earlier. */
  ghost predicate Known(l: Ledger, e: Effect) {
    e.id in l.effects && Develops(e, l.effects[e.id]) && e.PhaseFitsRevision()
  }

  ghost predicate RecorderOk(l: Ledger, w: Recorder) {
    match w
    case Idle => true
    case Deciding(e, races) => Known(l, e) && races < e.revision && races <= 2
    case Reloading(e, races) =>
      Known(l, e) && races <= e.revision && races <= 2 && e.revision < l.effects[e.id].revision
    case Holding(receipt, e) =>
      Known(l, e) && receipt == ReceiptFor(e) && e.phase in {Started, Confirmed}
    case Rechecking(e) =>
      Known(l, e) && e.phase.Started? && e.revision < l.effects[e.id].revision
    case Broken => false
  }

  ghost predicate ReceiptOk(l: Ledger, r: Receipt) {
    && r.effectId in l.effects
    && l.effects[r.effectId].operation == r.operation
    && l.effects[r.effectId].mode == r.mode
    && l.effects[r.effectId].phase in {Started, Confirmed}
  }

  ghost predicate SystemInv(y: System) {
    && y.ledger.Valid()
    && (forall who :: who in y.recorders ==> RecorderOk(y.ledger, y.recorders[who]))
    && (forall i :: 0 <= i < |y.receipts| ==> ReceiptOk(y.ledger, y.receipts[i]))
    && (forall i, j :: 0 <= i < j < |y.receipts| && y.receipts[i].effectId == y.receipts[j].effectId ==>
          y.receipts[i].mode.Idempotent?)
  }

  /** Recorders and receipts survive whatever happens to the ledger. */
  lemma LedgerMovesOn(y: System, l: Ledger)
    requires SystemInv(y) && l.Valid() && LedgerDevelops(y.ledger, l)
    ensures SystemInv(y.(ledger := l))
  {
    forall who | who in y.recorders ensures RecorderOk(l, y.recorders[who]) {
      var w := y.recorders[who];
      assert RecorderOk(y.ledger, w);
      var e := if w.Deciding? then w.effect else if w.Reloading? then w.lost
               else if w.Holding? || w.Rechecking? then w.issued else NewEvidence(0, Operation(0, 0, ""), "", Unsafe);
      if !w.Idle? {
        DevelopsIsTransitive(e, y.ledger.effects[e.id], l.effects[e.id]);
      }
    }
    forall i | 0 <= i < |y.receipts| ensures ReceiptOk(l, y.receipts[i]) {
      assert ReceiptOk(y.ledger, y.receipts[i]);
    }
  }

  lemma CallKeepsInvariant(y: System, step: Step)
    requires SystemInv(y) && step.Call? && step.newId !in y.ledger.effects
    ensures SystemInv(Next(y, step)) && LedgerDevelops(y.ledger, Next(y, step).ledger)
  {
    var e := NewEvidence(step.newId, step.operation, step.name, step.mode);
    if PrepareEffect(y.ledger, e).Ok? {
      PrepareDevelops(y.ledger, e);
      LedgerMovesOn(y, PrepareEffect(y.ledger, e).value.0);
    }
  }

  /** A receipt for an unsafe effect is issued only by the move that starts it. */
  lemma IssueKeepsInvariant(y: System, who: nat, e: Effect)
    requires SystemInv(y) && Known(y.ledger, e) && e.phase in {Started, Confirmed}
    requires e.mode.Unsafe? ==> forall i :: 0 <= i < |y.receipts| ==> y.receipts[i].effectId != e.id
    ensures SystemInv(Issue(y, who, e))
  {
    var y' := Issue(y, who, e);
    forall i | 0 <= i < |y.receipts| ensures ReceiptOk(y'.ledger, y'.receipts[i]) {
      assert ReceiptOk(y.ledger, y.receipts[i]);
    }
  }

  lemma AdvanceKeepsInvariant(y: System, who: nat)
    requires SystemInv(y)
    ensures SystemInv(Next(y, Advance(who))) && LedgerDevelops(y.ledger, Next(y, Advance(who)).ledger)
  {
    match At(y, who)
    case Deciding(e, races) =>
      assert RecorderOk(y.ledger, y.recorders[who]);
      if e.phase in {Prepared, Aborted} {
        var moved := TransitionEffect(y.ledger, e.id, e.revision, Started);
        if moved.Ok? {
          forall i | 0 <= i < |y.receipts| ensures y.receipts[i].effectId != e.id {
            assert ReceiptOk(y.ledger, y.receipts[i]);
          }
          TransitionDevelops(y.ledger, e.id, e.revision, Started);
          LedgerMovesOn(y, moved.value.0);
          IssueKeepsInvariant(y.(ledger := moved.value.0), who, moved.value.1);
        }
      } else if e.mode.Idempotent? {
        IssueKeepsInvariant(y, who, e);
      }
    case Reloading(e, races) => assert RecorderOk(y.ledger, y.recorders[who]);
    case Rechecking(e) => assert RecorderOk(y.ledger, y.recorders[who]);
    case _ =>
  }

  lemma ConfirmingKeepsInvariant(y: System, who: nat)
    requires SystemInv(y)
    ensures SystemInv(Next(y, Confirming(who))) && LedgerDevelops(y.ledger, Next(y, Confirming(who)).ledger)
  {
    if At(y, who).Holding? {
      var receipt := At(y, who).receipt;
      assert RecorderOk(y.ledger, y.recorders[who]);
      if receipt.confirmationRequired
         && TransitionEffect(y.ledger, receipt.effectId, receipt.expectedRevision, Confirmed).Ok? {
        TransitionDevelops(y.ledger, receipt.effectId, receipt.expectedRevision, Confirmed);
        LedgerMovesOn(y, TransitionEffect(y.ledger, receipt.effectId, receipt.expectedRevision, Confirmed).value.0);
      }
    }
  }

  lemma StepKeepsInvariant(y: System, step: Step)
    requires SystemInv(y) && (step.Call? ==> step.newId !in y.ledger.effects)
    ensures SystemInv(Next(y, step)) && LedgerDevelops(y.ledger, Next(y, step).ledger)
  {
    match step
    case Call(_, _, _, _, _) => CallKeepsInvariant(y, step);
    case Advance(who) => AdvanceKeepsInvariant(y, who);
    case Confirming(who) => ConfirmingKeepsInvariant(y, who);
    case Crash(_) =>
    case Other(id, revision, target) =>
      if TransitionEffect(y.ledger, id, revision, target).Ok? {
        TransitionDevelops(y.ledger, id, revision, target);
        LedgerMovesOn(y, TransitionEffect(y.ledger, id, revision, target).value.0);
      }
  }

  lemma {:induction false} RunsAreSafe(y: System, steps: seq<Step>)
    requires SystemInv(y) && RunOk(y, steps)
    ensures SystemInv(Run(y, steps)) && LedgerDevelops(y.ledger, Run(y, steps).ledger)
  {
    if steps != [] {
      var before := steps[..|steps| - 1];
      RunsAreSafe(y, before);
      StepKeepsInvariant(Run(y, before), steps[|steps| - 1]);
      LedgerDevelopsIsTransitive(y.ledger, Run(y, before).ledger, Run(y, steps).ledger);
    }
  }

  /** At most one receipt, hence at most one transport, for an operation declared unsafe: if two
      receipts were ever issued for one operation, both stand for an idempotent tool. */
  lemma {:induction false} UnsafeToolsRunAtMostOnce(steps: seq<Step>, i: nat, j: nat)
    requires RunOk(EMPTY, steps) && i < j < |Run(EMPTY, steps).receipts|
    requires Run(EMPTY, steps).receipts[i].operation == Run(EMPTY, steps).receipts[j].operation
    ensures Run(EMPTY, steps).receipts[i].mode.Idempotent?
    ensures Run(EMPTY, steps).receipts[j].mode.Idempotent?
  {
    RunsAreSafe(EMPTY, steps);
    var y := Run(EMPTY, steps);
    assert ReceiptOk(y.ledger, y.receipts[i]) && ReceiptOk(y.ledger, y.receipts[j]);
  }

  /** No recorder ever reaches an error it does not expect (a vanished record, an invalid
      transition, a lost confirmation), and none loses more than two races. */
  lemma {:induction false} RecordersNeverBreak(steps: seq<Step>, who: nat)
    requires RunOk(EMPTY, steps) && who in Run(EMPTY, steps).recorders
    ensures var w := Run(EMPTY, steps).recorders[who];
            && !w.Broken?
            && (w.Deciding? || w.Reloading? ==> w.races <= 2)
  {
    RunsAreSafe(EMPTY, steps);
    assert RecorderOk(Run(EMPTY, steps).ledger, Run(EMPTY, steps).recorders[who]);
  }

  /** Along every run a revision stays at most 4, and evidence against a replay is never lost. */
  lemma {:induction false} EvidenceIsNeverWithdrawn(steps: seq<Step>, more: seq<Step>, id: Id)
    requires RunOk(EMPTY, steps) && RunOk(Run(EMPTY, steps), more)
    requires id in Run(EMPTY, steps).ledger.effects
    ensures var before := Run(EMPTY, steps).ledger.effects[id];
            var l := Run(Run(EMPTY, steps), more).ledger;
            && id in l.effects
            && before.revision <= l.effects[id].revision <= 4
            && (!before.RetrySafe() ==> !l.effects[id].RetrySafe())
  {
    RunsAreSafe(EMPTY, steps);
    RunsAreSafe(Run(EMPTY, steps), more);
  }

  /** The effect has not been evidenced yet, or its evidence is for the same effect and says that it has not
      started, was aborted or may be repeated. */
  ghost predicate MayRun(l: Ledger, op: Operation, name: string, mode: RetryMode) {
    op in l.operations && l.operations[op] in l.effects ==>
      var e := l.effects[l.operations[op]];
      && e.name == name && e.mode == mode && e.keyDigest == (if mode.Idempotent? then Some(op) else None)
      && (e.phase.Prepared? || e.phase.Aborted? || mode.Idempotent?)
  }

  /** A call goes on with the current evidence of its operation, or is turned away at once. */
  lemma CalledDecides(y: System, step: Step)
    requires SystemInv(y) && step.Call? && step.newId !in y.ledger.effects
    ensures var y', w := Next(y, step), At(Next(y, step), step.who);
            && y'.receipts == y.receipts
            && (w.Idle? || w.Deciding?)
            && (w.Deciding? ==>
                  && w.effect.id in y'.ledger.effects && y'.ledger.effects[w.effect.id] == w.effect
                  && w.effect.operation == step.operation && w.effect.mode == step.mode)
            && (MayRun(y.ledger, step.operation, step.name, step.mode) <==>
                  w.Deciding? && (w.effect.phase.Prepared? || w.effect.phase.Aborted? || step.mode.Idempotent?))
  {
    var e := NewEvidence(step.newId, step.operation, step.name, step.mode);
    if step.operation in y.ledger.operations { PreparesAgainIff(y.ledger, e); }
  }

  /** With current evidence a receipt is issued exactly for an effect that has not started, was aborted or may
      be repeated. */
  lemma DecidingIssuesIff(y: System, who: nat)
    requires SystemInv(y) && At(y, who).Deciding?
    requires var e := At(y, who).effect; e.id in y.ledger.effects && y.ledger.effects[e.id] == e
    ensures var y', e := Next(y, Advance(who)), At(y, who).effect;
            && (if e.phase.Prepared? || e.phase.Aborted? || e.mode.Idempotent?
                then y'.receipts == y.receipts + [ReceiptFor(y'.ledger.effects[e.id])]
                     && At(y', who) == Holding(ReceiptFor(y'.ledger.effects[e.id]), y'.ledger.effects[e.id])
                else y'.receipts == y.receipts)
            && e.id in y'.ledger.effects && y'.ledger.effects[e.id].HasSameIntent(e)
            && y'.ledger.effects[e.id].phase == (if e.phase.Confirmed? then Confirmed else Started)
  {
    assert RecorderOk(y.ledger, y.recorders[who]);
    var e := At(y, who).effect;
    MovesIff(y.ledger, e.id, e.revision, Started);
  }

  /** A receipt whose evidence is current is confirmed. */
  lemma HoldingConfirms(y: System, who: nat)
    requires SystemInv(y) && At(y, who).Holding?
    requires var e := At(y, who).issued; e.id in y.ledger.effects && y.ledger.effects[e.id] == e
    ensures var y', e := Next(y, Confirming(who)), At(y, who).issued;
            e.id in y'.ledger.effects && y'.ledger.effects[e.id].phase.Confirmed? && At(y', who).Idle?
  {
    assert RecorderOk(y.ledger, y.recorders[who]);
    var e := At(y, who).issued;
    MovesIff(y.ledger, e.id, e.revision, Confirmed);
  }

  /** After any run, a call that nobody disturbs gets its receipt exactly when its effect may run, and
      returning the receipt confirms the effect. */
  lemma {:induction false} UndisturbedCallGetsReceiptIff(
    steps: seq<Step>, who: nat, op: Operation, name: string, mode: RetryMode, newId: Id)
    requires RunOk(EMPTY, steps) && newId !in Run(EMPTY, steps).ledger.effects
    ensures var y := Run(EMPTY, steps);
            var y' := Next(Next(y, Call(who, op, name, mode, newId)), Advance(who));
            if MayRun(y.ledger, op, name, mode) then
              && |y'.receipts| == |y.receipts| + 1 && y'.receipts[..|y.receipts|] == y.receipts
              && y'.receipts[|y.receipts|].operation == op && y'.receipts[|y.receipts|].mode == mode
              && var id, l := y'.receipts[|y.receipts|].effectId, Next(y', Confirming(who)).ledger;
                 id in l.effects && l.effects[id].phase.Confirmed?
            else y'.receipts == y.receipts
  {
    RunsAreSafe(EMPTY, steps);
    var y := Run(EMPTY, steps);
    var call := Call(who, op, name, mode, newId);
    CalledDecides(y, call);
    var called := Next(y, call);
    assert SystemInv(called) by { CallKeepsInvariant(y, call); }
    if At(called, who).Deciding? {
      DecidingIssuesIff(called, who);
      var y' := Next(called, Advance(who));
      assert SystemInv(y') by { AdvanceKeepsInvariant(called, who); }
      if At(y', who).Holding? { HoldingConfirms(y', who); }
    }
  }
}
