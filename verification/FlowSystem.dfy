/** Any number of lifecycle clients and lease holders working on one Flow Run.

    A client reads a snapshot, computes a transition from it at some later moment and tries to
    commit it; lease calls and clock ticks fall anywhere in between. The repository compares
    revisions and never checks that the replacement is a legal successor. */
module FlowSystem {
  import opened Common
  import opened Lifecycle
  import opened FlowEvents
  import opened Repository

  /** An accepted commit or append: its time and token, and how many leases had been granted. */
  datatype Write = Write(time: Time, token: Option<Id>, granted: nat)

  /** One lease grant, open from `from` until it expires, is renewed away or is released. */
  datatype Grant = Grant(token: Id, from: Time, until: Time)

  datatype System = System(
    record: RunRecord,
    now: Time,
    snapshots: map<nat, FlowState>,
    // what has happened so far; no step looks at these four
    history: seq<FlowState>,
    log: seq<(Command, Time)>,
    writes: seq<Write>,
    grants: seq<Grant>)

  datatype Step =
    | Tick(delay: nat)
    | Read(client: nat)
    | Transit(client: nat, command: Command, token: Option<Id>)
    | ReportFailure(client: nat, invocationId: Id, token: Option<Id>)
    | Acquire(ownerId: string, ttl: int, newToken: Id)
    | Renew(ownerId: string, leaseToken: Id, ttl: int)
    | Release(leaseToken: Id)

  function Initial(definition: FlowDefinition, runId: Id, now: Time): System {
    var s := Create(definition, runId, now);
    System(RunRecord(s, Materialize(CreatedDrafts(s), 1), None), now, map[], [s], [], [], [])
  }

  function Recorded(y: System, token: Option<Id>): seq<Write> {
    y.writes + [Write(y.now, token, |y.grants|)]
  }

  function Shorten(grants: seq<Grant>, until: Time): seq<Grant> {
    if grants == [] then [] else
      var g := grants[|grants| - 1];
      grants[|grants| - 1 := g.(until := if until < g.until then until else g.until)]
  }

  /** One atomic step. A refused call changes nothing. */
  function Next(y: System, step: Step): System {
    match step
    case Tick(delay) => y.(now := y.now + delay)
    case Read(client) => y.(snapshots := y.snapshots[client := y.record.state])
    case Transit(client, command, token) =>
      if client !in y.snapshots then y else
      (match Transact(Some(y.record), y.snapshots[client], command, token, y.now)
       case Err(_) => y
       case Ok(record) =>
         y.(record := record, history := y.history + [record.state],
            log := y.log + [(command, y.now)], writes := Recorded(y, token)))
    case ReportFailure(client, invocationId, token) =>
      if client !in y.snapshots then y else
      (match AppendRecord(Some(y.record), y.snapshots[client].revision,
                          PropagationFailure(y.snapshots[client], invocationId), token, y.now)
       case Err(_) => y
       case Ok(record) => y.(record := record, writes := Recorded(y, token)))
    case Acquire(ownerId, ttl, newToken) =>
      (match AcquireRecord(Some(y.record), ownerId, ttl, newToken, y.now)
       case Err(_) => y
       case Ok(record) => y.(record := record, grants := y.grants + [Grant(newToken, y.now, y.now + ttl)]))
    case Renew(ownerId, token, ttl) =>
      (match RenewRecord(Some(y.record), ownerId, token, ttl, y.now)
       case Err(_) => y
       case Ok(record) =>
         y.(record := record,
            grants := if y.grants == [] then [] else
              y.grants[|y.grants| - 1 := y.grants[|y.grants| - 1].(until := y.now + ttl)]))
    case Release(token) =>
      (match ReleaseRecord(Some(y.record), token)
       case Err(_) => y
       case Ok(record) => y.(record := record, grants := Shorten(y.grants, y.now)))
  }

  function Run(y: System, steps: seq<Step>): System {
    if steps == [] then y else Next(Run(y, steps[..|steps| - 1]), steps[|steps| - 1])
  }

  /** UUIDs are fresh and results are validated; nothing else is assumed of anybody. */
  ghost predicate StepOk(seqOf: Id -> nat, y: System, step: Step) {
    && (step.Transit? ==> Authentic(seqOf, step.command))
    && (step.Acquire? ==> forall i :: 0 <= i < |y.grants| ==> y.grants[i].token != step.newToken)
  }

  ghost predicate RunOk(seqOf: Id -> nat, y: System, steps: seq<Step>) {
    steps != [] ==>
      && RunOk(seqOf, y, steps[..|steps| - 1])
      && StepOk(seqOf, Run(y, steps[..|steps| - 1]), steps[|steps| - 1])
  }

  // ---------------------------------------------------------------- one path of transitions

  ghost predicate PathInv(seqOf: Id -> nat, y: System) {
    && |y.history| == |y.log| + 1
    && y.history[|y.log|] == y.record.state
    && y.history[0].status.Created?
    && (forall k :: 0 <= k < |y.log| ==> Legal(y, k))
    && (forall k :: 0 <= k < |y.history| ==> Inv(seqOf, y.history[k]) && y.history[k].revision == k + 1)
    && (forall c :: c in y.snapshots ==>
          1 <= y.snapshots[c].revision <= |y.history|
          && y.snapshots[c] == y.history[y.snapshots[c].revision - 1])
  }

  /** Revision k+2 is what some command made of revision k+1. */
  ghost predicate Legal(y: System, k: nat)
    requires k < |y.log| && |y.history| == |y.log| + 1
  {
    Apply(y.log[k].0, y.history[k], y.log[k].1) == Ok(y.history[k + 1])
  }

  /** An accepted transition was computed from the current snapshot: no stale write gets in. */
  lemma AcceptedIsCurrent(seqOf: Id -> nat, y: System, client: nat, c: Command, token: Option<Id>)
    requires PathInv(seqOf, y) && client in y.snapshots
    requires Transact(Some(y.record), y.snapshots[client], c, token, y.now).Ok?
    ensures y.snapshots[client] == y.record.state
    ensures Apply(c, y.record.state, y.now).Ok?
    ensures LookupsSucceed(c, y.record.state, Apply(c, y.record.state, y.now).value)
    ensures Transact(Some(y.record), y.snapshots[client], c, token, y.now).value
         == y.record.(state := Apply(c, y.record.state, y.now).value,
                      events := Extend(y.record.events,
                                       Drafts(c, y.record.state, Apply(c, y.record.state, y.now).value)))
  {}

  /** The path grows by one legal step. */
  lemma PathExtends(seqOf: Id -> nat, y: System, y': System, c: Command, t: Time)
    requires PathInv(seqOf, y) && y'.snapshots == y.snapshots
    requires Apply(c, y.record.state, t) == Ok(y'.record.state) && Inv(seqOf, y'.record.state)
    requires y'.record.state.revision == y.record.state.revision + 1
    requires y'.history == y.history + [y'.record.state] && y'.log == y.log + [(c, t)]
    ensures PathInv(seqOf, y')
  {
    var n := |y.log|;
    assert y'.history[..n + 1] == y.history && y'.log[..n] == y.log;
    forall k | 0 <= k < |y'.log| ensures Legal(y', k) {
      if k < n { assert Legal(y, k); }
    }
    forall k | 0 <= k < |y'.history| ensures Inv(seqOf, y'.history[k]) && y'.history[k].revision == k + 1 {
      if k <= n { assert y'.history[k] == y.history[k]; }
    }
    forall c | c in y'.snapshots
      ensures 1 <= y'.snapshots[c].revision <= |y'.history|
      ensures y'.snapshots[c] == y'.history[y'.snapshots[c].revision - 1]
    {
      assert y'.snapshots[c] == y.snapshots[c];
    }
  }

  /** The path stays; clients may take the current snapshot. */
  lemma PathFrame(seqOf: Id -> nat, y: System, y': System)
    requires PathInv(seqOf, y) && y'.record.state == y.record.state
    requires y'.history == y.history && y'.log == y.log
    requires forall c :: c in y'.snapshots ==>
      y'.snapshots[c] == y.record.state || (c in y.snapshots && y'.snapshots[c] == y.snapshots[c])
    ensures PathInv(seqOf, y')
  {
    forall k | 0 <= k < |y'.log| ensures Legal(y', k) { assert Legal(y, k); }
  }

  lemma TransitKeepsPath(seqOf: Id -> nat, y: System, client: nat, c: Command, token: Option<Id>)
    requires PathInv(seqOf, y) && client in y.snapshots && Authentic(seqOf, c)
    requires Transact(Some(y.record), y.snapshots[client], c, token, y.now).Ok?
    ensures PathInv(seqOf, Next(y, Transit(client, c, token)))
  {
    AcceptedIsCurrent(seqOf, y, client, c, token);
    ApplyKeepsInvariant(seqOf, c, y.record.state, y.now);
    ApplySucceeds(seqOf, c, y.record.state, y.now);
    PathExtends(seqOf, y, Next(y, Transit(client, c, token)), c, y.now);
  }

  lemma StepKeepsPath(seqOf: Id -> nat, y: System, step: Step)
    requires PathInv(seqOf, y) && StepOk(seqOf, y, step)
    ensures PathInv(seqOf, Next(y, step))
  {
    if step.Transit? && Next(y, step) != y {
      TransitKeepsPath(seqOf, y, step.client, step.command, step.token);
    } else {
      PathFrame(seqOf, y, Next(y, step));
    }
  }

  // ---------------------------------------------------------------- lease fencing

  ghost predicate LeaseInv(y: System) {
    && LeaseMatches(y)
    && (forall i, j :: 0 <= i < j < |y.grants| ==>
          y.grants[i].until <= y.grants[j].from && y.grants[i].token != y.grants[j].token)
    && (forall i :: 0 <= i < |y.grants| ==> y.grants[i].from <= y.grants[i].until && y.grants[i].from <= y.now)
    && (forall p :: 0 <= p < |y.writes| ==> WriteFenced(y, y.writes[p]))
    && (forall p, q :: 0 <= p < q < |y.writes| ==>
          y.writes[p].granted <= y.writes[q].granted && y.writes[p].time <= y.writes[q].time)
  }

  /** The stored lease is the latest grant. */
  ghost predicate LeaseMatches(y: System) {
    match y.record.lease
    case None => y.grants == []
    case Some(stored) =>
      && y.grants != []
      && stored.lease.attempt == |y.grants|
      && stored.lease.token == y.grants[|y.grants| - 1].token
      && (if stored.active then stored.lease.expiresAt == y.grants[|y.grants| - 1].until
          else y.grants[|y.grants| - 1].until <= y.now)
  }

  /** A write made before the first grant carries no token; any other carries the token of the
      grant that was the latest when it was made, inside that grant's window. */
  ghost predicate WriteFenced(y: System, w: Write) {
    && w.time <= y.now
    && w.granted <= |y.grants|
    && (if w.granted == 0 then w.token.None?
        else
          var g := y.grants[w.granted - 1];
          w.token == Some(g.token) && g.from <= w.time <= g.until)
  }

  /** Later grants start no earlier than anything already recorded. */
  lemma GrantKeepsWrites(y: System, y': System)
    requires LeaseInv(y)
    requires y'.writes == y.writes && y'.now == y.now && |y.grants| <= |y'.grants|
    requires forall i :: 0 <= i < |y.grants| ==>
      && y'.grants[i].token == y.grants[i].token && y'.grants[i].from == y.grants[i].from
      && (y'.grants[i].until >= y.grants[i].until || y'.grants[i].until >= y.now)
    ensures forall p :: 0 <= p < |y'.writes| ==> WriteFenced(y', y'.writes[p])
  {
    forall p | 0 <= p < |y'.writes| ensures WriteFenced(y', y'.writes[p]) {
      assert WriteFenced(y, y.writes[p]);
    }
  }

  lemma RecordedKeepsLease(y: System, token: Option<Id>, record: RunRecord)
    requires LeaseInv(y) && TokenAccepted(y.record.lease, token, y.now)
    requires record.lease == y.record.lease
    ensures LeaseInv(y.(record := record, writes := Recorded(y, token)))
  {
    var y' := y.(record := record, writes := Recorded(y, token));
    forall p | 0 <= p < |y'.writes| ensures WriteFenced(y', y'.writes[p]) {
      if p < |y.writes| { assert WriteFenced(y, y.writes[p]); }
    }
    forall p, q | 0 <= p < q < |y'.writes|
      ensures y'.writes[p].granted <= y'.writes[q].granted && y'.writes[p].time <= y'.writes[q].time
    {
      assert WriteFenced(y, y.writes[p]);
    }
  }

  /** Fields that fencing does not depend on. */
  lemma LeaseFrame(y: System, y': System)
    requires LeaseInv(y)
    requires y'.record.lease == y.record.lease && y.now <= y'.now
    requires y'.writes == y.writes && y'.grants == y.grants
    ensures LeaseInv(y')
  {
    forall p | 0 <= p < |y'.writes| ensures WriteFenced(y', y'.writes[p]) {
      assert WriteFenced(y, y.writes[p]);
    }
  }

  lemma AcquireKeepsLease(y: System, ownerId: string, ttl: int, newToken: Id)
    requires LeaseInv(y)
    requires forall i :: 0 <= i < |y.grants| ==> y.grants[i].token != newToken
    ensures LeaseInv(Next(y, Acquire(ownerId, ttl, newToken)))
  {
    var y' := Next(y, Acquire(ownerId, ttl, newToken));
    if y' != y {
      GrantKeepsWrites(y, y');
      forall i | 0 <= i < |y.grants| ensures y.grants[i].until <= y.now {
        assert y.grants[|y.grants| - 1].until <= y.now;
        assert y.grants[|y.grants| - 1].from <= y.now;
      }
    }
  }

  lemma RenewKeepsLease(y: System, ownerId: string, token: Id, ttl: int)
    requires LeaseInv(y)
    ensures LeaseInv(Next(y, Renew(ownerId, token, ttl)))
  {
    var y' := Next(y, Renew(ownerId, token, ttl));
    if y' != y {
      GrantKeepsWrites(y, y');
    }
  }

  lemma ReleaseKeepsLease(y: System, token: Id)
    requires LeaseInv(y)
    ensures LeaseInv(Next(y, Release(token)))
  {
    var y' := Next(y, Release(token));
    if y' != y {
      GrantKeepsWrites(y, y');
    }
  }

  lemma StepKeepsLease(seqOf: Id -> nat, y: System, step: Step)
    requires LeaseInv(y) && StepOk(seqOf, y, step)
    ensures LeaseInv(Next(y, step))
  {
    var y' := Next(y, step);
    match step
    case Tick(_) => LeaseFrame(y, y');
    case Read(_) => LeaseFrame(y, y');
    case Transit(client, command, token) =>
      if y' != y {
        RecordedKeepsLease(y, token, y'.record);
        LeaseFrame(y.(record := y'.record, writes := Recorded(y, token)), y');
      }
    case ReportFailure(client, id, token) =>
      if y' != y { RecordedKeepsLease(y, token, y'.record); }
    case Acquire(ownerId, ttl, newToken) => AcquireKeepsLease(y, ownerId, ttl, newToken);
    case Renew(ownerId, token, ttl) => RenewKeepsLease(y, ownerId, token, ttl);
    case Release(token) => ReleaseKeepsLease(y, token);
  }

  // ---------------------------------------------------------------- event log

  function DraftsOf(events: seq<Event>): seq<Draft> {
    seq(|events|, i requires 0 <= i < |events| => events[i].draft)
  }

  /** Sequences are 1..n, replaying rebuilds the snapshot's view, and nothing but propagation
      failures follows the event that ends the run. */
  ghost predicate EventInv(record: RunRecord) {
    && (forall i :: 0 <= i < |record.events| ==> record.events[i].sequence == i + 1)
    && Replay(DraftsOf(record.events)) == ViewOf(record.state)
    && EndsOnce(IsTerminal(record.state.status), DraftsOf(record.events))
  }

  ghost predicate EndsOnce(ended: bool, log: seq<Draft>) {
    && (forall i, j :: 0 <= i < j < |log| && IsTerminalEvent(log[i]) ==>
          log[j].kind.CancellationPropagationFailed?)
    && (ended <==> exists i :: 0 <= i < |log| && IsTerminalEvent(log[i]))
  }

  lemma DraftsOfExtend(events: seq<Event>, drafts: seq<Draft>)
    ensures DraftsOf(Extend(events, drafts)) == DraftsOf(events) + drafts
  {}

  /** The drafts of a transition hold a terminal event exactly when the run ends, and then last. */
  lemma TerminalDraftIsLast(c: Command, s: FlowState, now: Time)
    requires Apply(c, s, now).Ok? && LookupsSucceed(c, s, Apply(c, s, now).value)
    ensures var s' := Apply(c, s, now).value;
            var drafts := Drafts(c, s, s');
            && drafts != []
            && (IsTerminal(s'.status) <==> IsTerminalEvent(drafts[|drafts| - 1]))
            && (forall i :: 0 <= i < |drafts| - 1 ==> !IsTerminalEvent(drafts[i]))
  {}

  lemma ExtendEndsOnce(log: seq<Draft>, drafts: seq<Draft>, ended: bool)
    requires EndsOnce(false, log) && drafts != []
    requires ended <==> IsTerminalEvent(drafts[|drafts| - 1])
    requires forall i :: 0 <= i < |drafts| - 1 ==> !IsTerminalEvent(drafts[i])
    ensures EndsOnce(ended, log + drafts)
  {
    var whole := log + drafts;
    assert whole[|whole| - 1] == drafts[|drafts| - 1];
    forall i | 0 <= i < |whole| - 1 ensures !IsTerminalEvent(whole[i]) {
      if i >= |log| { assert whole[i] == drafts[i - |log|]; }
    }
  }

  lemma ExtendNumbers(events: seq<Event>, drafts: seq<Draft>)
    requires forall i :: 0 <= i < |events| ==> events[i].sequence == i + 1
    ensures var after := Extend(events, drafts);
            forall i :: 0 <= i < |after| ==> after[i].sequence == i + 1
  {}

  /** A log that grows by drafts which replay to the new state and end with the run stays in step. */
  lemma LogExtends(record: RunRecord, after: RunRecord, drafts: seq<Draft>)
    requires EventInv(record) && !IsTerminal(record.state.status) && drafts != []
    requires forall i :: 0 <= i < |after.events| ==> after.events[i].sequence == i + 1
    requires DraftsOf(after.events) == DraftsOf(record.events) + drafts
    requires Replay(DraftsOf(after.events)) == ViewOf(after.state)
    requires IsTerminal(after.state.status) <==> IsTerminalEvent(drafts[|drafts| - 1])
    requires forall i :: 0 <= i < |drafts| - 1 ==> !IsTerminalEvent(drafts[i])
    ensures EventInv(after)
  {
    ExtendEndsOnce(DraftsOf(record.events), drafts, IsTerminal(after.state.status));
  }

  lemma CommitKeepsEvents(seqOf: Id -> nat, c: Command, record: RunRecord, now: Time)
    requires Inv(seqOf, record.state) && Authentic(seqOf, c) && EventInv(record)
    requires Apply(c, record.state, now).Ok?
    requires LookupsSucceed(c, record.state, Apply(c, record.state, now).value)
    ensures var s' := Apply(c, record.state, now).value;
            EventInv(record.(state := s', events := Extend(record.events, Drafts(c, record.state, s'))))
  {
    var s' := Apply(c, record.state, now).value;
    var drafts := Drafts(c, record.state, s');
    var after := record.(state := s', events := Extend(record.events, drafts));
    DraftsOfExtend(record.events, drafts);
    ExtendNumbers(record.events, drafts);
    assert !IsTerminal(record.state.status) by { ApplySucceeds(seqOf, c, record.state, now); }
    assert Replay(DraftsOf(record.events) + drafts) == ViewOf(s') by {
      DraftsFollowTransition(seqOf, c, record.state, now, DraftsOf(record.events));
    }
    TerminalDraftIsLast(c, record.state, now);
    LogExtends(record, after, drafts);
  }

  lemma AppendKeepsEvents(record: RunRecord, d: Draft)
    requires EventInv(record) && d.kind.CancellationPropagationFailed? && d.invocationId.Some?
    ensures EventInv(record.(events := Extend(record.events, [d])))
  {
    var log := DraftsOf(record.events);
    DraftsOfExtend(record.events, [d]);
    ReplayAll(log, [d]);
    ProjectShort(Replay(log), [d]);
    if i :| 0 <= i < |log| && IsTerminalEvent(log[i]) {
      assert IsTerminalEvent((log + [d])[i]);
    }
  }

  lemma StepKeepsEvents(seqOf: Id -> nat, y: System, step: Step)
    requires PathInv(seqOf, y) && EventInv(y.record) && StepOk(seqOf, y, step)
    ensures EventInv(Next(y, step).record)
  {
    var y' := Next(y, step);
    if y'.record == y.record {
    } else if step.Transit? {
      AcceptedIsCurrent(seqOf, y, step.client, step.command, step.token);
      CommitKeepsEvents(seqOf, step.command, y.record, y.now);
    } else if step.ReportFailure? {
      AppendKeepsEvents(y.record, PropagationFailure(y.snapshots[step.client], step.invocationId)[0]);
    }
  }

  // ---------------------------------------------------------------- whole runs

  ghost predicate SystemInv(seqOf: Id -> nat, y: System) {
    PathInv(seqOf, y) && LeaseInv(y) && EventInv(y.record)
  }

  lemma NewLogReplays(s: FlowState)
    requires s.status.Created? && s.revision == 1 && s.invocations == [] && s.active.None?
    ensures EventInv(RunRecord(s, Materialize(CreatedDrafts(s), 1), None))
  {
    var log := CreatedDrafts(s);
    assert DraftsOf(Materialize(log, 1)) == log;
    assert [] + log == log;
    ReplayAll([], log);
    ProjectShort(Replay([]), log);
  }

  lemma InitialIsGood(seqOf: Id -> nat, definition: FlowDefinition, runId: Id, now: Time)
    ensures SystemInv(seqOf, Initial(definition, runId, now))
  {
    CreateIsValid(seqOf, definition, runId, now);
    NewLogReplays(Create(definition, runId, now));
  }

  /** Every interleaving keeps the committed snapshots on one legal path, every write fenced and
      the event log in step with the snapshot. */
  lemma {:induction false} RunsAreSafe(seqOf: Id -> nat, y: System, steps: seq<Step>)
    requires SystemInv(seqOf, y) && RunOk(seqOf, y, steps)
    ensures SystemInv(seqOf, Run(y, steps))
  {
    if steps != [] {
      var before := steps[..|steps| - 1];
      RunsAreSafe(seqOf, y, before);
      var z := Run(y, before);
      StepKeepsPath(seqOf, z, steps[|steps| - 1]);
      StepKeepsLease(seqOf, z, steps[|steps| - 1]);
      StepKeepsEvents(seqOf, z, steps[|steps| - 1]);
    }
  }

  /** The accepted commands, executed one after the other by a single client. */
  function Sequentially(s: FlowState, log: seq<(Command, Time)>): Result<FlowState, FlowError> {
    if log == [] then Ok(s)
    else match Sequentially(s, log[..|log| - 1])
      case Err(e) => Err(e)
      case Ok(t) => Apply(log[|log| - 1].0, t, log[|log| - 1].1)
  }

  lemma {:induction false} PathIsSequential(seqOf: Id -> nat, y: System, k: nat)
    requires PathInv(seqOf, y) && k <= |y.log|
    ensures Sequentially(y.history[0], y.log[..k]) == Ok(y.history[k])
  {
    if k > 0 {
      PathIsSequential(seqOf, y, k - 1);
      assert y.log[..k][..k - 1] == y.log[..k - 1];
      assert Legal(y, k - 1);
    }
  }

  /** `y` is what some interleaving makes of a newly created run. */
  ghost predicate Reachable(seqOf: Id -> nat, y: System) {
    exists definition, runId, now, steps ::
      RunOk(seqOf, Initial(definition, runId, now), steps) && y == Run(Initial(definition, runId, now), steps)
  }

  lemma ReachableIsGood(seqOf: Id -> nat, y: System)
    requires Reachable(seqOf, y)
    ensures PathInv(seqOf, y) && LeaseInv(y) && EventInv(y.record)
  {
    var definition, runId, now, steps :|
      RunOk(seqOf, Initial(definition, runId, now), steps) && y == Run(Initial(definition, runId, now), steps);
    InitialIsGood(seqOf, definition, runId, now);
    RunsAreSafe(seqOf, Initial(definition, runId, now), steps);
  }

  /** Whatever the interleaving, the stored run is the one a single client would have made by
      executing the accepted commands in order; it passes the validators that nobody re-ran, and
      only the last snapshot can be terminal. */
  lemma ConcurrentRunsAreSequential(seqOf: Id -> nat, y: System)
    requires Reachable(seqOf, y)
    ensures y.history != [] && y.history[0].status.Created?
    ensures Sequentially(y.history[0], y.log) == Ok(y.record.state)
    ensures |y.history| == |y.log| + 1 == y.record.state.revision
    ensures forall k :: 0 <= k < |y.log| ==> !IsTerminal(y.history[k].status)
    ensures ValidateState(y.record.state)
    ensures forall i :: 0 <= i < |y.record.state.invocations| ==>
              ValidateResult(y.record.state.invocations[i])
  {
    ReachableIsGood(seqOf, y);
    PathIsSequential(seqOf, y, |y.log|);
    assert y.log[..|y.log|] == y.log;
    forall k | 0 <= k < |y.log| ensures !IsTerminal(y.history[k].status) {
      assert Legal(y, k);
      ApplySucceeds(seqOf, y.log[k].0, y.history[k], y.log[k].1);
    }
    forall i | 0 <= i < |y.record.state.invocations| ensures ValidateResult(y.record.state.invocations[i]) {
      assert InvocationOk(seqOf, y.record.state, i);
    }
  }

  /** A run that is stored as completed has agents behind it, and all of them completed; it was ended by a
      command that said so. */
  lemma CompletedRunsAreWhole(seqOf: Id -> nat, y: System)
    requires Reachable(seqOf, y) && y.record.state.status.Completed?
    ensures y.record.state.invocations != []
    ensures forall i :: 0 <= i < |y.record.state.invocations| ==> y.record.state.invocations[i].status.Completed?
    ensures y.log != [] && y.log[|y.log| - 1].0.CmdComplete?
    ensures y.record.state.output == Some(y.log[|y.log| - 1].0.output)
  {
    ReachableIsGood(seqOf, y);
    var n := |y.log|;
    assert n > 0;
    assert Legal(y, n - 1);
    assert Inv(seqOf, y.history[n - 1]);
    CompletedBy(seqOf, y.log[n - 1].0, y.history[n - 1], y.log[n - 1].1);
  }

  /** Only completing completes. */
  lemma CompletedBy(seqOf: Id -> nat, c: Command, s: FlowState, now: Time)
    requires Inv(seqOf, s) && Apply(c, s, now).Ok? && Apply(c, s, now).value.status.Completed?
    ensures c.CmdComplete? && Apply(c, s, now).value.output == Some(c.output)
    ensures var invs := Apply(c, s, now).value.invocations;
            invs != [] && forall i :: 0 <= i < |invs| ==> invs[i].status.Completed?
  {
    ApplySucceeds(seqOf, c, s, now);
    if c.CmdComplete? { CompleteLeadsTo(seqOf, s, c.output, now); }
  }

  lemma StepKeepsEnded(seqOf: Id -> nat, y: System, step: Step)
    requires PathInv(seqOf, y) && IsTerminal(y.record.state.status)
    ensures Next(y, step).record.state == y.record.state
  {
    if step.Transit? && Next(y, step).record != y.record {
      AcceptedIsCurrent(seqOf, y, step.client, step.command, step.token);
      ApplySucceeds(seqOf, step.command, y.record.state, y.now);
    }
  }

  /** No later step of anybody changes a run that has ended. */
  lemma {:induction false} EndedRunsStayEnded(seqOf: Id -> nat, y: System, steps: seq<Step>)
    requires SystemInv(seqOf, y) && RunOk(seqOf, y, steps) && IsTerminal(y.record.state.status)
    ensures Run(y, steps).record.state == y.record.state
  {
    if steps != [] {
      var before := steps[..|steps| - 1];
      EndedRunsStayEnded(seqOf, y, before);
      RunsAreSafe(seqOf, y, before);
      StepKeepsEnded(seqOf, Run(y, before), steps[|steps| - 1]);
    }
  }

  lemma ViewTotals(seqOf: Id -> nat, s: FlowState)
    requires Inv(seqOf, s)
    ensures ViewOf(s).endedUsage.Plus(ViewOf(s).activeUsage) == SumUsage(s.invocations)
  {}

  /** From the events alone: status, revision, invocation count, active and last invocation and the
      token totals of the stored snapshot. */
  lemma ReplayRebuildsSnapshot(seqOf: Id -> nat, y: System)
    requires Reachable(seqOf, y)
    ensures Replay(DraftsOf(y.record.events)) == ViewOf(y.record.state)
    ensures var v := Replay(DraftsOf(y.record.events));
            v.endedUsage.Plus(v.activeUsage) == SumUsage(y.record.state.invocations)
    ensures forall i :: 0 <= i < |y.record.events| ==> y.record.events[i].sequence == i + 1
    ensures EndsOnce(IsTerminal(y.record.state.status), DraftsOf(y.record.events))
  {
    ReachableIsGood(seqOf, y);
    ViewTotals(seqOf, y.record.state);
  }

  /** Every event of the log is about the invocation that the events before it say is active, and the one
      that completes the run reports the usage of all its invocations. */
  lemma EventsNameTheirInvocation(seqOf: Id -> nat, y: System, k: nat)
    requires Reachable(seqOf, y) && k < |y.record.events|
    ensures var d, before := y.record.events[k].draft, Replay(DraftsOf(y.record.events)[..k]);
            && (d.kind in {InvocationResumed, FlowWaiting, FlowResumed} || d.kind.InvocationSettled? ==>
                  before.active.Some? && d.invocationId == before.active)
            && (d.kind.InvocationStarted? ==> before.active.None? && d.invocationId.Some?)
            && (d.kind.FlowCompleted? ==> d.usage == Some(SumUsage(y.record.state.invocations)))
  {
    ReachableIsGood(seqOf, y);
    var log := DraftsOf(y.record.events);
    CoherentThroughout(log, k);
    if log[k].kind.FlowCompleted? {
      UsageAfterTheEnd(log, k, |log|);
      assert log[..|log|] == log;
      ViewTotals(seqOf, y.record.state);
    }
  }

  /** Nothing is used after a run has been completed. */
  lemma {:induction false} UsageAfterTheEnd(log: seq<Draft>, k: nat, n: nat)
    requires k < n <= |log| && log[k].kind.FlowCompleted? && EndsOnce(true, log)
    ensures Replay(log[..n]).endedUsage == Replay(log[..k]).endedUsage
    ensures Replay(log[..n]).activeUsage == Replay(log[..k]).activeUsage
  {
    assert log[..n][..n - 1] == log[..n - 1];
    assert IsTerminalEvent(log[k]);
    if n > k + 1 { UsageAfterTheEnd(log, k, n - 1); }
  }

  /** Once a lease has been granted, only the holder of the latest grant can write, and only while
      it is active and unexpired. */
  lemma OnlyLatestHolderWrites(seqOf: Id -> nat, y: System, token: Option<Id>)
    requires Reachable(seqOf, y) && y.grants != []
    requires TokenAccepted(y.record.lease, token, y.now)
    ensures token == Some(y.grants[|y.grants| - 1].token)
    ensures y.grants[|y.grants| - 1].from <= y.now < y.grants[|y.grants| - 1].until
    ensures forall i :: 0 <= i < |y.grants| - 1 ==>
              token != Some(y.grants[i].token) && y.grants[i].until <= y.now
  {
    ReachableIsGood(seqOf, y);
    LatestHolder(y, token);
  }

  lemma LatestHolder(y: System, token: Option<Id>)
    requires LeaseInv(y) && y.grants != [] && TokenAccepted(y.record.lease, token, y.now)
    ensures token == Some(y.grants[|y.grants| - 1].token)
    ensures y.grants[|y.grants| - 1].from <= y.now < y.grants[|y.grants| - 1].until
    ensures forall i :: 0 <= i < |y.grants| - 1 ==>
              token != Some(y.grants[i].token) && y.grants[i].until <= y.now
  {
    var last := |y.grants| - 1;
    forall i | 0 <= i < last ensures token != Some(y.grants[i].token) && y.grants[i].until <= y.now {
      assert y.grants[i].until <= y.grants[last].from && y.grants[i].token != y.grants[last].token;
    }
  }

  /** Over a whole run: each write carries the token of the grant that was the latest when it was
      made, grants are used in order, and the windows of different grants do not overlap. */
  lemma WritesAreFenced(seqOf: Id -> nat, y: System, p: nat, q: nat)
    requires Reachable(seqOf, y) && p < q < |y.writes|
    ensures y.writes[p].granted <= y.writes[q].granted <= |y.grants|
    ensures 0 < y.writes[q].granted ==> y.writes[q].token == Some(y.grants[y.writes[q].granted - 1].token)
    ensures 0 < y.writes[p].granted < y.writes[q].granted ==>
              var earlier, later := y.grants[y.writes[p].granted - 1], y.grants[y.writes[q].granted - 1];
              && y.writes[p].token != y.writes[q].token
              && y.writes[p].time <= earlier.until <= later.from <= y.writes[q].time
  {
    ReachableIsGood(seqOf, y);
    assert WriteFenced(y, y.writes[p]) && WriteFenced(y, y.writes[q]);
  }

  // ---------------------------------------------------------------- when a lease is given and what it is good for

  /** Nobody holds the lease: none was ever given, or the last one has run out or was released. */
  ghost predicate LeaseFree(y: System) {
    y.grants == [] || y.grants[|y.grants| - 1].until <= y.now
  }

  /** The token of the last grant, inside its window; no token as long as there is no grant. */
  ghost predicate Entitled(y: System, token: Option<Id>) {
    if y.grants == [] then token.None?
    else token == Some(y.grants[|y.grants| - 1].token) && y.now < y.grants[|y.grants| - 1].until
  }

  /** A lease is given exactly to a named owner for a positive time, while the run has not ended and nobody
      holds it. A holder that crashed is succeeded as soon as its time is up. */
  lemma LeaseIsGivenIff(seqOf: Id -> nat, y: System, ownerId: string, ttl: int, newToken: Id)
    requires Reachable(seqOf, y)
    ensures var y' := Next(y, Acquire(ownerId, ttl, newToken));
            if !IsBlank(ownerId) && |ownerId| <= 256 && ttl > 0 && !IsTerminal(y.record.state.status) && LeaseFree(y)
            then
              && y'.grants == y.grants + [Grant(newToken, y.now, y.now + ttl)]
              && y'.record == y.record.(lease := y'.record.lease)
              && y'.record.lease == Some(StoredLease(
                   Lease(newToken, ownerId, |y.grants| + 1, y.now, y.now, y.now + ttl), true))
            else y' == y
  {
    HeldUnlessFree(seqOf, y);
  }

  lemma HeldUnlessFree(seqOf: Id -> nat, y: System)
    requires Reachable(seqOf, y)
    ensures y.record.lease.None? <==> y.grants == []
    ensures y.record.lease.Some? ==> y.record.lease.value.lease.attempt == |y.grants|
    ensures y.record.lease.Some? ==> (y.record.lease.value.Holds(y.now) <==> !LeaseFree(y))
  {
    assert LeaseMatches(y) by { ReachableIsGood(seqOf, y); }
  }

  /** A token is accepted exactly inside the window of the last grant. */
  lemma TokenAcceptedIff(seqOf: Id -> nat, y: System, token: Option<Id>)
    requires Reachable(seqOf, y)
    ensures TokenAccepted(y.record.lease, token, y.now) <==> Entitled(y, token)
  {
    assert LeaseMatches(y) by { ReachableIsGood(seqOf, y); }
  }

  /** Against the stored record, a transition goes through exactly on the current revision with an accepted
      token. */
  lemma TransactIff(seqOf: Id -> nat, record: RunRecord, s: FlowState, c: Command, token: Option<Id>, now: Time)
    requires Inv(seqOf, s) && Authentic(seqOf, c)
    requires s.revision == record.state.revision ==> s == record.state
    ensures var r := Transact(Some(record), s, c, token, now);
            && (r.Ok? <==> s == record.state && Apply(c, s, now).Ok? && TokenAccepted(record.lease, token, now))
            && (r.Ok? ==> r.value == record.(state := Apply(c, s, now).value, events := r.value.events))
  {
    if Apply(c, s, now).Ok? {
      ServiceLookups(seqOf, c, s, now);
      assert Succeeds(s, Apply(c, s, now).value) by { ApplySucceeds(seqOf, c, s, now); }
      assert Drafts(c, s, Apply(c, s, now).value) != [];
    }
  }

  /** A transition is stored exactly when its client has read the stored snapshot, the aggregate accepts the
      command on it and the client is entitled to write; otherwise nothing changes. */
  lemma TransitionIsStoredIff(seqOf: Id -> nat, y: System, client: nat, c: Command, token: Option<Id>)
    requires Reachable(seqOf, y) && Authentic(seqOf, c)
    ensures var y' := Next(y, Transit(client, c, token));
            if && client in y.snapshots && y.snapshots[client] == y.record.state
               && Apply(c, y.record.state, y.now).Ok? && Entitled(y, token)
            then
              && y'.record.state == Apply(c, y.record.state, y.now).value
              && y'.writes == y.writes + [Write(y.now, token, |y.grants|)]
              && y'.grants == y.grants && y'.record.lease == y.record.lease
            else y' == y
  {
    assert TokenAccepted(y.record.lease, token, y.now) <==> Entitled(y, token) by { TokenAcceptedIff(seqOf, y, token); }
    if client in y.snapshots {
      var s := y.snapshots[client];
      SnapshotIsCurrentIff(seqOf, y, client);
      TransactIff(seqOf, y.record, s, c, token, y.now);
    }
  }

  /** A client's snapshot is the stored one exactly when the revisions agree. */
  lemma SnapshotIsCurrentIff(seqOf: Id -> nat, y: System, client: nat)
    requires Reachable(seqOf, y) && client in y.snapshots
    ensures y.snapshots[client].revision == y.record.state.revision <==> y.snapshots[client] == y.record.state
    ensures Inv(seqOf, y.snapshots[client])
  {
    ReachableIsGood(seqOf, y);
  }

  /** A failed propagation is noted exactly for a client that has read the stored revision and is entitled to
      write; the note names the invocation and leaves the snapshot alone. */
  lemma FailureIsNotedIff(seqOf: Id -> nat, y: System, client: nat, id: Id, token: Option<Id>)
    requires Reachable(seqOf, y)
    ensures var y' := Next(y, ReportFailure(client, id, token));
            if client in y.snapshots && y.snapshots[client] == y.record.state && Entitled(y, token)
            then
              && y'.record.state == y.record.state
              && |y'.record.events| == |y.record.events| + 1
              && y'.record.events[..|y.record.events|] == y.record.events
              && y'.record.events[|y.record.events|].draft
                 == Draft(CancellationPropagationFailed, Some(id), y.record.state.revision, None)
            else y' == y
  {
    assert TokenAccepted(y.record.lease, token, y.now) <==> Entitled(y, token) by { TokenAcceptedIff(seqOf, y, token); }
    if client in y.snapshots { SnapshotIsCurrentIff(seqOf, y, client); }
  }

  /** A lease is extended from now on exactly for the last grant's token inside its window. */
  lemma LeaseIsRenewedIff(seqOf: Id -> nat, y: System, ownerId: string, token: Id, ttl: int)
    requires Reachable(seqOf, y)
    ensures var y' := Next(y, Renew(ownerId, token, ttl));
            if !IsBlank(ownerId) && |ownerId| <= 256 && ttl > 0 && y.grants != [] && Entitled(y, Some(token))
            then
              var last := y.grants[|y.grants| - 1];
              y'.grants == y.grants[..|y.grants| - 1] + [Grant(token, last.from, y.now + ttl)]
            else y' == y
  {
    assert LeaseMatches(y) by { ReachableIsGood(seqOf, y); }
  }

  /** A lease is given back exactly by the last grant's token, even after its time, and ends its window now. */
  lemma LeaseIsReleasedIff(seqOf: Id -> nat, y: System, token: Id)
    requires Reachable(seqOf, y)
    ensures var y' := Next(y, Release(token));
            if y.grants != [] && token == y.grants[|y.grants| - 1].token
            then
              var last := y.grants[|y.grants| - 1];
              && y'.grants == y.grants[..|y.grants| - 1]
                              + [Grant(token, last.from, if y.now < last.until then y.now else last.until)]
              && LeaseFree(y')
            else y' == y
  {
    assert LeaseMatches(y) by { ReachableIsGood(seqOf, y); }
  }

  /** Whoever holds the lease of an unfinished run, waiting for its time to run out is enough to get it, and
      from then on the earlier holder cannot write. */
  lemma TakeoverAfterExpiry(seqOf: Id -> nat, y: System, delay: nat, ownerId: string, ttl: int, newToken: Id)
    requires Reachable(seqOf, y) && y.grants != [] && !IsTerminal(y.record.state.status)
    requires !IsBlank(ownerId) && |ownerId| <= 256 && ttl > 0
    requires forall i :: 0 <= i < |y.grants| ==> y.grants[i].token != newToken
    ensures var last, later := y.grants[|y.grants| - 1], Next(y, Tick(delay));
            var taken := Next(later, Acquire(ownerId, ttl, newToken));
            && (taken != later <==> last.until <= y.now + delay)
            && (taken != later ==> Entitled(taken, Some(newToken)) && !Entitled(taken, Some(last.token)))
            && (taken == later ==> Entitled(taken, Some(last.token)))
  {
    ReachableIsGood(seqOf, y);
    LeaseFrame(y, Next(y, Tick(delay)));
  }
}
