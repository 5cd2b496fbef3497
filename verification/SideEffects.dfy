/** The side-effect ledger: durable evidence about one external effect, moved by compare-and-swap. */
module SideEffects {
  import opened Common

  datatype Phase = Prepared | Started | Confirmed | Aborted

  datatype RetryMode = Unsafe | Idempotent

  /** Flow run, invocation and tool call. The stored operation key is a digest of the call id and
      the idempotency key is a digest of all three; digests are taken as injective. */
  datatype Operation = Operation(flowRunId: Id, invocationId: Id, callId: string)

  datatype Effect = Effect(
    id: Id,
    operation: Operation,
    name: string,
    mode: RetryMode,
    keyDigest: Option<Operation>,
    phase: Phase,
    revision: nat)
  {
    /** `validate_retry_evidence` */
    predicate ValidEvidence() { mode.Idempotent? <==> keyDigest.Some? }

    predicate RetrySafe() { phase in {Prepared, Aborted} || mode.Idempotent? }

    predicate HasSameIntent(other: Effect) {
      operation == other.operation && name == other.name && mode == other.mode
      && keyDigest == other.keyDigest
    }

    /** The phase tells the revision, up to one abort. */
    predicate PhaseFitsRevision() {
      match phase
      case Prepared => revision == 1
      case Aborted => revision == 2
      case Started => 2 <= revision <= 3
      case Confirmed => 3 <= revision <= 4
    }
  }

  datatype LedgerError = InvalidArgument | IntentConflict | NotFound | RevisionConflict | InvalidTransition

  datatype Ledger = Ledger(effects: map<Id, Effect>, operations: map<Operation, Id>) {
    ghost predicate Valid() {
      && (forall op :: op in operations ==>
            operations[op] in effects && effects[operations[op]].operation == op)
      && (forall id :: id in effects ==>
            && effects[id].id == id
            && effects[id].operation in operations && operations[effects[id].operation] == id
            && effects[id].PhaseFitsRevision() && effects[id].ValidEvidence())
    }
  }

  /** `_validate_transition` */
  predicate MayMove(current: Phase, target: Phase) {
    match current
    case Prepared => target in {Started, Aborted}
    case Started => target == Confirmed
    case Confirmed => false
    case Aborted => target == Started
  }

  function PrepareEffect(l: Ledger, e: Effect): Result<(Ledger, Effect), LedgerError> {
    if e.phase != Prepared || e.revision != 1 then Err(InvalidArgument)
    else if e.operation in l.operations then
      var id := l.operations[e.operation];
      if id !in l.effects then Err(NotFound)
      else if !l.effects[id].HasSameIntent(e) then Err(IntentConflict)
      else Ok((l, l.effects[id]))
    else
      Ok((Ledger(l.effects[e.id := e], l.operations[e.operation := e.id]), e))
  }

  function TransitionEffect(l: Ledger, id: Id, expectedRevision: nat, target: Phase)
    : Result<(Ledger, Effect), LedgerError>
  {
    if id !in l.effects then Err(NotFound)
    else
      var current := l.effects[id];
      if current.revision != expectedRevision then Err(RevisionConflict)
      else if !MayMove(current.phase, target) then Err(InvalidTransition)
      else
        var next := current.(phase := target, revision := current.revision + 1);
        Ok((l.(effects := l.effects[id := next]), next))
  }

  /** Evidence moves exactly from the current revision: to started when the effect has not happened or was
      aborted, to confirmed when it was started, to aborted before it was ever started. */
  lemma MovesIff(l: Ledger, id: Id, expectedRevision: nat, target: Phase)
    requires l.Valid()
    ensures var r := TransitionEffect(l, id, expectedRevision, target);
            && (r.Ok? <==>
                  && id in l.effects && l.effects[id].revision == expectedRevision
                  && match target
                     case Prepared => false
                     case Started => l.effects[id].phase.Prepared? || l.effects[id].phase.Aborted?
                     case Confirmed => l.effects[id].phase.Started?
                     case Aborted => expectedRevision == 1)
            && (r.Ok? ==>
                  && r.value.1 == l.effects[id].(phase := target, revision := expectedRevision + 1)
                  && r.value.0 == Ledger(l.effects[id := r.value.1], l.operations))
  {}

  /** Preparing an operation again finds its evidence exactly when the same effect is meant, and changes
      nothing. */
  lemma PreparesAgainIff(l: Ledger, e: Effect)
    requires l.Valid() && e.phase.Prepared? && e.revision == 1 && e.operation in l.operations
    ensures var stored := l.effects[l.operations[e.operation]];
            PrepareEffect(l, e)
            == if stored.name == e.name && stored.mode == e.mode && stored.keyDigest == e.keyDigest
               then Ok((l, stored)) else Err(IntentConflict)
  {}

  /** How an effect may develop: its intent is fixed, its revision never falls, an equal revision
      means nothing happened, a started effect can only be confirmed, a confirmed one is final, and
      evidence that a replay is unsafe is never withdrawn. */
  ghost predicate Develops(before: Effect, after: Effect) {
    && after.id == before.id && after.HasSameIntent(before)
    && before.revision <= after.revision
    && (before.revision == after.revision ==> before == after)
    && (before.phase in {Started, Confirmed} ==> after.phase in {Started, Confirmed})
    && (before.phase.Confirmed? ==> after == before)
    && (before.phase.Started? && before.revision < after.revision ==> after.phase.Confirmed?)
    && (!before.RetrySafe() ==> !after.RetrySafe())
  }

  ghost predicate LedgerDevelops(l: Ledger, l': Ledger) {
    forall id :: id in l.effects ==> id in l'.effects && Develops(l.effects[id], l'.effects[id])
  }

  lemma DevelopsIsTransitive(a: Effect, b: Effect, c: Effect)
    requires Develops(a, b) && Develops(b, c)
    ensures Develops(a, c)
  {}

  lemma LedgerDevelopsIsTransitive(a: Ledger, b: Ledger, c: Ledger)
    requires LedgerDevelops(a, b) && LedgerDevelops(b, c)
    ensures LedgerDevelops(a, c)
  {
    forall id | id in a.effects ensures id in c.effects && Develops(a.effects[id], c.effects[id]) {
      DevelopsIsTransitive(a.effects[id], b.effects[id], c.effects[id]);
    }
  }

  lemma MoveDevelops(e: Effect, target: Phase)
    requires e.PhaseFitsRevision() && MayMove(e.phase, target)
    ensures var next := e.(phase := target, revision := e.revision + 1);
            Develops(e, next) && next.PhaseFitsRevision()
  {}

  lemma TransitionDevelops(l: Ledger, id: Id, expectedRevision: nat, target: Phase)
    requires l.Valid() && TransitionEffect(l, id, expectedRevision, target).Ok?
    ensures var l' := TransitionEffect(l, id, expectedRevision, target).value.0;
            l'.Valid() && LedgerDevelops(l, l')
  {
    MoveDevelops(l.effects[id], target);
    var l' := TransitionEffect(l, id, expectedRevision, target).value.0;
    assert l'.effects.Keys == l.effects.Keys;
    forall k | k in l.effects ensures Develops(l.effects[k], l'.effects[k]) {
      if k != id { assert l'.effects[k] == l.effects[k]; }
    }
  }

  /** The identifier of new evidence is fresh; without that, `prepare` would overwrite the evidence
      of another operation. */
  lemma PrepareDevelops(l: Ledger, e: Effect)
    requires l.Valid() && e.ValidEvidence() && PrepareEffect(l, e).Ok?
    requires e.operation in l.operations || e.id !in l.effects
    ensures var (l', stored) := PrepareEffect(l, e).value;
            && l'.Valid() && LedgerDevelops(l, l')
            && stored.id in l'.effects && l'.effects[stored.id] == stored
            && stored.HasSameIntent(e)
  {}

  /** A call that another writer makes. */
  datatype Interference = Moving(id: Id, expectedRevision: nat, target: Phase) | Preparing(effect: Effect)

  class InMemoryFlowSideEffectLedger {
    var effects: map<Id, Effect>
    var operations: map<Operation, Id>

    ghost function Value(): Ledger
      reads this
    {
      Ledger(effects, operations)
    }

    constructor ()
      ensures Value() == Ledger(map[], map[]) && Value().Valid()
    {
      effects, operations := map[], map[];
    }

    method Prepare(e: Effect) returns (r: Result<Effect, LedgerError>)
      requires Value().Valid() && e.ValidEvidence()
      requires e.operation in operations || e.id !in effects
      modifies this
      ensures Value().Valid() && LedgerDevelops(old(Value()), Value())
      ensures match PrepareEffect(old(Value()), e)
              case Ok((l, stored)) => r == Ok(stored) && Value() == l
              case Err(error) => r == Err(error) && Value() == old(Value())
      ensures r != Err(NotFound)
    {
      if PrepareEffect(Value(), e).Ok? { PrepareDevelops(Value(), e); }
      if e.phase != Prepared || e.revision != 1 { return Err(InvalidArgument); }
      if e.operation in operations {
        var existing := effects[operations[e.operation]];
        return if existing.HasSameIntent(e) then Ok(existing) else Err(IntentConflict);
      }
      effects := effects[e.id := e];
      operations := operations[e.operation := e.id];
      return Ok(e);
    }

    method Get(id: Id) returns (r: Result<Effect, LedgerError>)
      requires Value().Valid()
      ensures r.Err? ==> r.error == NotFound && id !in effects
      ensures r.Ok? ==>
                && id in effects && r.value == effects[id] && r.value.id == id
                && r.value.PhaseFitsRevision() && r.value.ValidEvidence()
    {
      r := if id in effects then Ok(effects[id]) else Err(NotFound);
    }

    /** `mark_started`, `confirm` and `abort`, by target phase. */
    method Transition(id: Id, expectedRevision: nat, target: Phase) returns (r: Result<Effect, LedgerError>)
      requires Value().Valid()
      modifies this`effects
      ensures Value().Valid() && LedgerDevelops(old(Value()), Value())
      ensures match TransitionEffect(old(Value()), id, expectedRevision, target)
              case Ok((l, next)) => r == Ok(next) && Value() == l
              case Err(error) => r == Err(error) && Value() == old(Value())
    {
      ghost var before := Value();
      r := Move(id, expectedRevision, target);
      if r.Ok? { TransitionDevelops(before, id, expectedRevision, target); }
    }

    method Move(id: Id, expectedRevision: nat, target: Phase) returns (r: Result<Effect, LedgerError>)
      modifies this`effects
      ensures match TransitionEffect(old(Value()), id, expectedRevision, target)
              case Ok((l, next)) => r == Ok(next) && Value() == l
              case Err(error) => r == Err(error) && Value() == old(Value())
    {
      if id !in effects { return Err(NotFound); }
      var current := effects[id];
      if current.revision != expectedRevision { return Err(RevisionConflict); }
      if !MayMove(current.phase, target) { return Err(InvalidTransition); }
      var next := current.(phase := target, revision := current.revision + 1);
      effects := effects[id := next];
      return Ok(next);
    }

    /** Whatever other writers do between two calls of ours. */
    method Interfere(others: seq<Interference>)
      requires Value().Valid()
      modifies this
      ensures Value().Valid() && LedgerDevelops(old(Value()), Value())
    {
      for i := 0 to |others|
        invariant Value().Valid() && LedgerDevelops(old(Value()), Value())
      {
        ghost var before := Value();
        Disturb(others[i]);
        LedgerDevelopsIsTransitive(old(Value()), before, Value());
      }
    }

    /** One call of somebody else; new evidence has been validated and carries a new id. */
    method Disturb(other: Interference)
      requires Value().Valid()
      modifies this
      ensures Value().Valid() && LedgerDevelops(old(Value()), Value())
    {
      match other
      case Moving(id, revision, target) => var _ := Transition(id, revision, target);
      case Preparing(e) =>
        if e.ValidEvidence() && (e.operation in operations || e.id !in effects) { var _ := Prepare(e); }
    }
  }
}
