/** `InMemoryFlowRepository`: snapshots, ordered events and execution leases, and the
    `FlowLifecycle` service on top of it. Each lock-protected block is one method call. The clock
    reading and the UUID that a call draws are parameters. */
module Repository {
  import opened Common
  import opened Lifecycle
  import opened FlowEvents

  datatype RepoError =
    | InvalidArgument | NotFound | AlreadyExists
    | RevisionConflict | LeaseLost | LeaseUnavailable
    | Rejected(cause: FlowError)

  datatype Event = Event(sequence: nat, draft: Draft)

  datatype Lease = Lease(
    token: Id, ownerId: string, attempt: nat, acquiredAt: Time, heartbeatAt: Time, expiresAt: Time)
  {
    predicate IsExpired(now: Time) { expiresAt <= now }
  }

  datatype StoredLease = StoredLease(lease: Lease, active: bool) {
    /** Grants write access right now. */
    predicate Holds(now: Time) { active && !lease.IsExpired(now) }
  }

  /** Everything the three dictionaries hold for one run. */
  datatype RunRecord = RunRecord(state: FlowState, events: seq<Event>, lease: Option<StoredLease>)

  /** The drafts, numbered from `start` on. */
  function Materialize(drafts: seq<Draft>, start: nat): (events: seq<Event>)
    ensures |events| == |drafts| && forall i :: 0 <= i < |drafts| ==> events[i] == Event(start + i, drafts[i])
  {
    if drafts == [] then []
    else
      var n := |drafts| - 1;
      Materialize(drafts[..n], start) + [Event(start + n, drafts[n])]
  }

  function Extend(events: seq<Event>, drafts: seq<Draft>): seq<Event> {
    events + Materialize(drafts, |events| + 1)
  }

  /** `_validate_execution_token` */
  predicate TokenAccepted(lease: Option<StoredLease>, token: Option<Id>, now: Time) {
    if lease.None? then token.None?
    else token == Some(lease.value.lease.token) && lease.value.Holds(now)
  }

  /** `validate_flow_replacement`: revision and identity only, never status. */
  function ReplacementError(current: FlowState, s: FlowState, expectedRevision: nat): Option<RepoError> {
    if current.revision != expectedRevision then Some(RevisionConflict)
    else if s.runId != current.runId then Some(InvalidArgument)
    else if s.revision != expectedRevision + 1 then Some(InvalidArgument)
    else if s.definition != current.definition || s.budget != current.budget
         || s.deadlineAt != current.deadlineAt || s.createdAt != current.createdAt
      then Some(InvalidArgument)
    else None
  }

  /** What no replacement may change. */
  predicate SameRun(a: FlowState, b: FlowState) {
    a.(revision := b.revision, status := b.status, invocations := b.invocations, active := b.active,
       output := b.output, error := b.error, updatedAt := b.updatedAt) == b
  }

  function CreateRecord(prior: Option<RunRecord>, s: FlowState, drafts: seq<Draft>)
    : Result<RunRecord, RepoError>
  {
    if s.revision != 1 || drafts == [] then Err(InvalidArgument)
    else if prior.Some? then Err(AlreadyExists)
    else Ok(RunRecord(s, Materialize(drafts, 1), None))
  }

  function CommitRecord(
    prior: Option<RunRecord>, s: FlowState, expectedRevision: nat, drafts: seq<Draft>,
    token: Option<Id>, now: Time): Result<RunRecord, RepoError>
  {
    if drafts == [] then Err(InvalidArgument)
    else if prior.None? then Err(NotFound)
    else if !TokenAccepted(prior.value.lease, token, now) then Err(LeaseLost)
    else
      var bad := ReplacementError(prior.value.state, s, expectedRevision);
      if bad.Some? then Err(bad.value)
      else Ok(prior.value.(state := s, events := Extend(prior.value.events, drafts)))
  }

  /** A replacement is accepted exactly as the next revision of the same run, from a client that knows the
      current one and may write. */
  lemma CommitAcceptedIff(record: RunRecord, s: FlowState, expectedRevision: nat, drafts: seq<Draft>,
                          token: Option<Id>, now: Time)
    ensures CommitRecord(Some(record), s, expectedRevision, drafts, token, now).Ok? <==>
      && drafts != [] && SameRun(record.state, s)
      && record.state.revision == expectedRevision == s.revision - 1
      && TokenAccepted(record.lease, token, now)
  {}

  function AppendRecord(
    prior: Option<RunRecord>, expectedRevision: nat, drafts: seq<Draft>,
    token: Option<Id>, now: Time): Result<RunRecord, RepoError>
  {
    if drafts == [] then Err(InvalidArgument)
    else if prior.None? then Err(NotFound)
    else if !TokenAccepted(prior.value.lease, token, now) then Err(LeaseLost)
    else if prior.value.state.revision != expectedRevision then Err(RevisionConflict)
    else Ok(prior.value.(events := Extend(prior.value.events, drafts)))
  }

  predicate BadLeaseArguments(ownerId: string, ttl: int) {
    IsBlank(ownerId) || |ownerId| > 256 || ttl <= 0
  }

  function AcquireRecord(prior: Option<RunRecord>, ownerId: string, ttl: int, token: Id, now: Time)
    : Result<RunRecord, RepoError>
  {
    if BadLeaseArguments(ownerId, ttl) then Err(InvalidArgument)
    else if prior.None? then Err(NotFound)
    else if IsTerminal(prior.value.state.status) then Err(LeaseUnavailable)
    else
      var earlier := prior.value.lease;
      if earlier.Some? && earlier.value.Holds(now) then Err(LeaseUnavailable)
      else
        var attempt := if earlier.Some? then earlier.value.lease.attempt + 1 else 1;
        Ok(prior.value.(lease := Some(StoredLease(
          Lease(token, ownerId, attempt, now, now, now + ttl), true))))
  }

  function RenewRecord(prior: Option<RunRecord>, ownerId: string, token: Id, ttl: int, now: Time)
    : Result<RunRecord, RepoError>
  {
    if BadLeaseArguments(ownerId, ttl) then Err(InvalidArgument)
    else if prior.None? || prior.value.lease.None? then Err(LeaseLost)
    else
      var held := prior.value.lease.value;
      if held.lease.token != token || !held.Holds(now) then Err(LeaseLost)
      else Ok(prior.value.(lease := Some(held.(
        lease := held.lease.(heartbeatAt := now, expiresAt := now + ttl)))))
  }

  function ReleaseRecord(prior: Option<RunRecord>, token: Id): Result<RunRecord, RepoError> {
    if prior.None? || prior.value.lease.None? then Err(LeaseLost)
    else if prior.value.lease.value.lease.token != token then Err(LeaseLost)
    else Ok(prior.value.(lease := Some(prior.value.lease.value.(active := false))))
  }

  type Store = map<Id, RunRecord>

  function Lookup(store: Store, id: Id): Option<RunRecord> {
    if id in store then Some(store[id]) else None
  }

  /** The only thing a call may do: give one run the record that `spec` names, or fail with the
      error that `spec` names and change nothing. */
  ghost predicate Performs<T>(before: Store, after: Store, id: Id,
                              spec: Result<RunRecord, RepoError>, answer: Result<T, RepoError>)
  {
    match spec
    case Ok(record) => answer.Ok? && after == before[id := record]
    case Err(e) => answer == Err(e) && after == before
  }

  class InMemoryFlowRepository {
    var states: map<Id, FlowState>
    var events: map<Id, seq<Event>>
    var leases: map<Id, StoredLease>

    ghost predicate Valid()
      reads this
    {
      && events.Keys == states.Keys
      && leases.Keys <= states.Keys
      && (forall id :: id in states ==> states[id].runId == id)
    }

    /** The dictionaries joined by run. */
    ghost function Records(): Store
      requires Valid()
      reads this
    {
      map id | id in states ::
        RunRecord(states[id], events[id], if id in leases then Some(leases[id]) else None)
    }

    constructor ()
      ensures Valid() && Records() == map[]
    {
      states, events, leases := map[], map[], map[];
    }

    method CreateRun(s: FlowState, drafts: seq<Draft>) returns (r: Result<seq<Event>, RepoError>)
      requires Valid()
      modifies this
      ensures Valid()
      ensures Performs(old(Records()), Records(), s.runId,
                       CreateRecord(Lookup(old(Records()), s.runId), s, drafts), r)
      ensures r.Ok? <==> s.revision == 1 && drafts != [] && s.runId !in old(states)
      ensures r.Ok? ==> states == old(states)[s.runId := s] && r.value == Records()[s.runId].events
      ensures r.Ok? ==> |r.value| == |drafts| && forall i :: 0 <= i < |drafts| ==> r.value[i] == Event(i + 1, drafts[i])
    {
      if s.revision != 1 || drafts == [] { return Err(InvalidArgument); }
      if s.runId in states { return Err(AlreadyExists); }
      var persisted := Materialize(drafts, 1);
      states := states[s.runId := s];
      events := events[s.runId := persisted];
      return Ok(persisted);
    }

    method Get(runId: Id) returns (r: Result<FlowState, RepoError>)
      requires Valid()
      ensures r == if runId in Records() then Ok(Records()[runId].state) else Err(NotFound)
    {
      r := if runId in states then Ok(states[runId]) else Err(NotFound);
    }

    method Commit(s: FlowState, expectedRevision: nat, drafts: seq<Draft>, token: Option<Id>, now: Time)
      returns (r: Result<seq<Event>, RepoError>)
      requires Valid()
      modifies this
      ensures Valid()
      ensures Performs(old(Records()), Records(), s.runId,
                       CommitRecord(Lookup(old(Records()), s.runId), s, expectedRevision, drafts, token, now), r)
      ensures r.Ok? ==> old(Records()[s.runId].events) + r.value == Records()[s.runId].events
    {
      if drafts == [] { return Err(InvalidArgument); }
      if s.runId !in states { return Err(NotFound); }
      var lease := if s.runId in leases then Some(leases[s.runId]) else None;
      if !TokenAccepted(lease, token, now) { return Err(LeaseLost); }
      var bad := ReplacementError(states[s.runId], s, expectedRevision);
      if bad.Some? { return Err(bad.value); }
      var persisted := Materialize(drafts, |events[s.runId]| + 1);
      states := states[s.runId := s];
      events := events[s.runId := events[s.runId] + persisted];
      return Ok(persisted);
    }

    method AppendEvents(runId: Id, expectedRevision: nat, drafts: seq<Draft>, token: Option<Id>, now: Time)
      returns (r: Result<seq<Event>, RepoError>)
      requires Valid()
      modifies this`events
      ensures Valid()
      ensures Performs(old(Records()), Records(), runId,
                       AppendRecord(Lookup(old(Records()), runId), expectedRevision, drafts, token, now), r)
      ensures r.Ok? ==> old(Records()[runId].events) + r.value == Records()[runId].events
    {
      if drafts == [] { return Err(InvalidArgument); }
      if runId !in states { return Err(NotFound); }
      var lease := if runId in leases then Some(leases[runId]) else None;
      if !TokenAccepted(lease, token, now) { return Err(LeaseLost); }
      if states[runId].revision != expectedRevision { return Err(RevisionConflict); }
      var persisted := Materialize(drafts, |events[runId]| + 1);
      events := events[runId := events[runId] + persisted];
      return Ok(persisted);
    }

    method AcquireExecution(runId: Id, ownerId: string, ttl: int, token: Id, now: Time)
      returns (r: Result<Lease, RepoError>)
      requires Valid()
      modifies this`leases
      ensures Valid()
      ensures Performs(old(Records()), Records(), runId,
                       AcquireRecord(Lookup(old(Records()), runId), ownerId, ttl, token, now), r)
      ensures r.Ok? ==> Records()[runId].lease == Some(StoredLease(r.value, true))
    {
      if BadLeaseArguments(ownerId, ttl) { return Err(InvalidArgument); }
      if runId !in states { return Err(NotFound); }
      if IsTerminal(states[runId].status) { return Err(LeaseUnavailable); }
      if runId in leases && leases[runId].Holds(now) { return Err(LeaseUnavailable); }
      var attempt := if runId in leases then leases[runId].lease.attempt + 1 else 1;
      var lease := Lease(token, ownerId, attempt, now, now, now + ttl);
      leases := leases[runId := StoredLease(lease, true)];
      return Ok(lease);
    }

    method RenewExecution(runId: Id, held: Lease, ttl: int, now: Time) returns (r: Result<Lease, RepoError>)
      requires Valid()
      modifies this`leases
      ensures Valid()
      ensures Performs(old(Records()), Records(), runId,
                       RenewRecord(Lookup(old(Records()), runId), held.ownerId, held.token, ttl, now), r)
      ensures r.Ok? ==> Records()[runId].lease == Some(StoredLease(r.value, true))
    {
      if BadLeaseArguments(held.ownerId, ttl) { return Err(InvalidArgument); }
      if runId !in leases { return Err(LeaseLost); }
      var current := leases[runId];
      if !current.active || current.lease.token != held.token || current.lease.IsExpired(now) {
        return Err(LeaseLost);
      }
      var renewed := current.lease.(heartbeatAt := now, expiresAt := now + ttl);
      leases := leases[runId := StoredLease(renewed, true)];
      return Ok(renewed);
    }

    method ReleaseExecution(runId: Id, held: Lease) returns (r: Result<(), RepoError>)
      requires Valid()
      modifies this`leases
      ensures Valid()
      ensures Performs(old(Records()), Records(), runId,
                       ReleaseRecord(Lookup(old(Records()), runId), held.token), r)
    {
      if runId !in leases { return Err(LeaseLost); }
      if leases[runId].lease.token != held.token { return Err(LeaseLost); }
      if leases[runId].active {
        leases := leases[runId := leases[runId].(active := false)];
      }
      return Ok(());
    }
  }

  /** `_execution_token_for`: no lease means no token; a lease of another run is refused. */
  function TokenFor(held: Option<(Id, Id)>, runId: Id): Result<Option<Id>, RepoError> {
    if held.None? then Ok(None)
    else if held.value.0 != runId then Err(InvalidArgument)
    else Ok(Some(held.value.1))
  }

  /** A transition computed from `snapshot` and committed over `prior`, as one of the service's
      methods does it: the snapshot may be older than `prior`. */
  function Transact(prior: Option<RunRecord>, snapshot: FlowState, c: Command, token: Option<Id>, now: Time)
    : Result<RunRecord, RepoError>
  {
    match Apply(c, snapshot, now)
    case Err(e) => Err(Rejected(e))
    case Ok(s') =>
      if !LookupsSucceed(c, snapshot, s') then Err(InvalidArgument)
      else CommitRecord(prior, s', snapshot.revision, Drafts(c, snapshot, s'), token, now)
  }

  class FlowLifecycle {
    const repository: InMemoryFlowRepository
    /** Run and token of the execution lease, when the service was built with one. */
    const held: Option<(Id, Id)>

    constructor (repository: InMemoryFlowRepository, held: Option<(Id, Id)>)
      ensures this.repository == repository && this.held == held
    {
      this.repository, this.held := repository, held;
    }

    method CreateRun(definition: FlowDefinition, runId: Id, now: Time)
      returns (r: Result<FlowState, RepoError>)
      requires repository.Valid()
      modifies repository
      ensures repository.Valid()
      ensures var s := Create(definition, runId, now);
              Performs(old(repository.Records()), repository.Records(), runId,
                       CreateRecord(Lookup(old(repository.Records()), runId), s, CreatedDrafts(s)), r)
      ensures r.Ok? ==> r.value == Create(definition, runId, now)
    {
      var s := Create(definition, runId, now);
      var stored := repository.CreateRun(s, CreatedDrafts(s));
      r := if stored.Ok? then Ok(s) else Err(stored.error);
    }

    /** `start`, `begin_invocation`, `settle_invocation`, `resume_invocation`, `complete`, `fail`,
        `cancel`, `interrupt` and `reach_limit`: read, compute, commit. Called with nobody in
        between, a legal transition is refused only for its lease. */
    method Perform(runId: Id, c: Command, now: Time, ghost seqOf: Id -> nat)
      returns (r: Result<FlowState, RepoError>)
      requires repository.Valid()
      requires runId in repository.Records() ==> Inv(seqOf, repository.Records()[runId].state)
      requires Authentic(seqOf, c)
      modifies repository
      ensures repository.Valid()
      ensures repository.Records().Keys == old(repository.Records()).Keys
      ensures forall id :: id in repository.Records() && id != runId ==>
                repository.Records()[id] == old(repository.Records())[id]
      ensures r.Err? ==> repository.Records() == old(repository.Records())
      ensures runId !in old(repository.Records()) ==> r == Err(NotFound)
      ensures runId in old(repository.Records()) ==>
                var before := old(repository.Records()[runId]);
                match Apply(c, before.state, now)
                case Err(e) => r == Err(Rejected(e))
                case Ok(s') =>
                  if TokenFor(held, runId).Err? then r == Err(InvalidArgument)
                  else if !TokenAccepted(before.lease, TokenFor(held, runId).value, now) then r == Err(LeaseLost)
                  else
                    && r == Ok(s') && Inv(seqOf, s') && LookupsSucceed(c, before.state, s')
                    && repository.Records()[runId]
                       == before.(state := s', events := Extend(before.events, Drafts(c, before.state, s')))
    {
      var got := repository.Get(runId);
      if got.Err? { return Err(got.error); }
      var current := got.value;
      var next := Apply(c, current, now);
      if next.Err? { return Err(Rejected(next.error)); }
      var s' := next.value;
      ServiceLookups(seqOf, c, current, now);
      ApplyKeepsInvariant(seqOf, c, current, now);
      ApplySucceeds(seqOf, c, current, now);
      var token := TokenFor(held, runId);
      if token.Err? { return Err(token.error); }
      var stored := repository.Commit(s', current.revision, Drafts(c, current, s'), token.value, now);
      r := if stored.Ok? then Ok(s') else Err(stored.error);
    }
  }
}
