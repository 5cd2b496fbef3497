/** The crash journal of the Raft worker: a spooled batch of messages is claimed, executed, answered
    and completed, with every phase saved, and may be interrupted anywhere. */
module RaftJournal {
  import opened Common

  datatype Task = Task(target: string, number: int)

  /** `refused` stands for the tests that always turn a message away, `addressed` for those that
      select it, `mine` for a task already in progress by this agent. */
  datatype Message = Message(
    id: Id, key: string, refused: bool, addressed: bool, task: Option<Task>, mine: bool)

  datatype Status = Completed | Waiting(run: Id) | Unsuccessful

  datatype AgentResult = AgentResult(status: Status, text: string)

  /** What became of an attempt to resume a waiting run. */
  datatype Resumption = Resumed(result: AgentResult) | RunNotFound

  datatype CachedReply = CachedReply(text: string, review: Option<Task>)

  datatype Journal = Journal(
    completed: seq<Id>, claimed: set<Id>, replied: set<Id>, cached: map<Id, CachedReply>,
    waitingRuns: map<string, Id>, openTasks: map<string, Task>)

  /** The phases of a message that must not be repeated. */
  datatype Phase = Claim | Execute | Send

  /** `Attempt` is the external action, `Durable` the save that records it. */
  datatype Event = Attempt(phase: Phase, id: Id) | Durable(phase: Phase, id: Id)

  /** The outside world, asked by the number of the action. `fails` is a crash or an error just
      before the action takes effect. */
  datatype World = World(
    fails: nat -> bool,
    inbox: nat -> seq<Message>,
    claims: nat -> bool,
    resumes: (nat, Id) -> Resumption,
    runs: nat -> AgentResult)

  ghost predicate Reliable(world: World) {
    forall n :: !world.fails(n)
  }

  function PhaseIds(j: Journal, phase: Phase): set<Id> {
    match phase
    case Claim => j.claimed
    case Execute => j.cached.Keys
    case Send => j.replied
  }

  function Entries(j: Journal): set<Id> {
    j.claimed + j.replied + j.cached.Keys
  }

  function Ids(messages: seq<Message>): set<Id> {
    set m | m in messages :: m.id
  }

  ghost predicate EndsWith(s: seq<Id>, tail: seq<Id>) {
    |tail| <= |s| && forall k :: 0 <= k < |tail| ==> tail[k] == s[|s| - |tail| + k]
  }

  function Latest(ids: seq<Id>, limit: nat): seq<Id> {
    if |ids| > limit then ids[|ids| - limit..] else ids
  }

  /** `mark_completed`, before it is saved. */
  function Complete(j: Journal, id: Id, limit: nat): Journal {
    j.(completed := if id in j.completed then j.completed else Latest(j.completed + [id], limit),
       claimed := j.claimed - {id}, replied := j.replied - {id}, cached := j.cached - {id})
  }

  function CompleteAll(j: Journal, ids: seq<Id>, limit: nat): Journal
  {
    if ids == [] then j
    else Complete(CompleteAll(j, ids[..|ids| - 1], limit), ids[|ids| - 1], limit)
  }

  function TaskFor(j: Journal, message: Message): Option<Task> {
    if message.task.Some? then message.task
    else if message.key in j.openTasks then Some(j.openTasks[message.key])
    else None
  }

  predicate ShouldHandle(j: Journal, message: Message) {
    !message.refused && (message.key in j.waitingRuns || message.addressed)
  }

  /** `_cache_reply`, before it is saved. */
  function CacheReply(j: Journal, message: Message, result: AgentResult, task: Option<Task>): Journal {
    var waiting := result.status.Waiting?;
    j.(waitingRuns := if waiting then j.waitingRuns[message.key := result.status.run]
                      else j.waitingRuns - {message.key},
       openTasks := if waiting && task.Some? then j.openTasks[message.key := task.value] else j.openTasks,
       cached := j.cached[message.id :=
         CachedReply(result.text, if result.status.Completed? then task else None)])
  }

  /** What the journal must say after an agent's result: the reply to send, the task to put up for review,
      which is the message's own or else the conversation's, and only if the agent has completed, and the
      run that waits for the next message of the conversation, with its task. Nothing else changes. */
  ghost predicate Reflects(j: Journal, j': Journal, message: Message, r: AgentResult) {
    var key := message.key;
    && j'.completed == j.completed && j'.claimed == j.claimed && j'.replied == j.replied
    && message.id in j'.cached && j'.cached - {message.id} == j.cached - {message.id}
    && j'.cached[message.id].text == r.text
    && (!r.status.Completed? ==> j'.cached[message.id].review.None?)
    && (r.status.Completed? && message.task.Some? ==> j'.cached[message.id].review == message.task)
    && (r.status.Completed? && message.task.None? && key in j.openTasks ==>
          j'.cached[message.id].review == Some(j.openTasks[key]))
    && (r.status.Completed? && message.task.None? && key !in j.openTasks ==> j'.cached[message.id].review.None?)
    && j'.waitingRuns - {key} == j.waitingRuns - {key} && j'.openTasks - {key} == j.openTasks - {key}
    && (r.status.Waiting? ==> key in j'.waitingRuns && j'.waitingRuns[key] == r.status.run)
    && (!r.status.Waiting? ==> key !in j'.waitingRuns)
    && (r.status.Waiting? && message.task.Some? ==> key in j'.openTasks && j'.openTasks[key] == message.task.value)
    && (!(r.status.Waiting? && message.task.Some?) ==> j'.openTasks == j.openTasks)
  }

  /** The result that a message gets from its conversation's waiting run, or from a new one. */
  ghost function ResultFor(j: Journal, message: Message, action: nat, world: World): AgentResult {
    if message.key !in j.waitingRuns then world.runs(action)
    else
      match world.resumes(action, j.waitingRuns[message.key])
      case Resumed(r) => r
      case RunNotFound => world.runs(action + 2)
  }

  /** The conversation waits exactly for the run that asked. */
  ghost predicate WaitsFor(j: Journal, key: string, r: AgentResult) {
    if r.status.Waiting? then key in j.waitingRuns && j.waitingRuns[key] == r.status.run
    else key !in j.waitingRuns
  }

  lemma CachedReplyReflects(j: Journal, message: Message, r: AgentResult)
    ensures Reflects(j, CacheReply(j, message, r, TaskFor(j, message)), message, r)
  {
    var j' := CacheReply(j, message, r, TaskFor(j, message));
    if r.status.Waiting? && message.task.None? && message.key in j.openTasks {
      assert j'.openTasks == j.openTasks;
    }
  }

  function Forget(j: Journal, key: string): (r: Journal)
    ensures key !in r.waitingRuns && key !in r.openTasks
    ensures r.(waitingRuns := j.waitingRuns, openTasks := j.openTasks) == j
    ensures forall k :: k != key && k in j.waitingRuns ==> k in r.waitingRuns && r.waitingRuns[k] == j.waitingRuns[k]
    ensures forall k :: k != key && k in j.openTasks ==> k in r.openTasks && r.openTasks[k] == j.openTasks[k]
  {
    j.(waitingRuns := j.waitingRuns - {key}, openTasks := j.openTasks - {key})
  }

  /** No phase is attempted after it was saved. */
  ghost predicate OnceOnly(log: seq<Event>) {
    forall a, b :: 0 <= a < b < |log| && log[a].Durable? ==> log[b] != Attempt(log[a].phase, log[a].id)
  }

  /** A journal during the handling of the messages `ids`: `done` are the latest completions, open
      entries belong to these messages or are `stale`, left by an earlier batch, and no saved phase is
      forgotten while its message is open. */
  ghost predicate Sound(j: Journal, done: seq<Id>, ids: set<Id>, stale: set<Id>, log: seq<Event>, limit: nat) {
    && EndsWith(j.completed, done) && Distinct(done) && (forall x :: x in done ==> x in ids)
    && Entries(j) <= ids + stale && (forall x :: x in Entries(j) ==> x !in j.completed)
    && (|ids| <= limit ==> Remembers(j, done, log))
  }

  ghost predicate Remembers(j: Journal, done: seq<Id>, log: seq<Event>) {
    forall e :: e in log && e.Durable? ==> e.id in done || e.id in PhaseIds(j, e.phase)
  }

  lemma EndIsPart(s: seq<Id>, tail: seq<Id>)
    requires EndsWith(s, tail)
    ensures forall x :: x in tail ==> x in s
  {}

  lemma LatestIsPart(s: seq<Id>, limit: nat)
    ensures forall x :: x in Latest(s, limit) ==> x in s
    ensures Distinct(s) ==> Distinct(Latest(s, limit))
  {}

  lemma BothExtend(s: seq<Id>, tail: seq<Id>, id: Id)
    requires EndsWith(s, tail)
    ensures EndsWith(s + [id], tail + [id])
  {}

  lemma LatestEnds(s: seq<Id>, tail: seq<Id>, limit: nat)
    requires EndsWith(s, tail)
    ensures EndsWith(Latest(s, limit), Latest(tail, limit))
  {}

  /** One more completion: the latest ones stay at the end, and stay distinct. */
  lemma LatestExtends(completed: seq<Id>, done: seq<Id>, limit: nat, id: Id)
    requires EndsWith(completed, done) && Distinct(done) && id !in completed
    ensures EndsWith(Latest(completed + [id], limit), Latest(done + [id], limit))
    ensures Distinct(Latest(done + [id], limit))
  {
    BothExtend(completed, done, id);
    LatestEnds(completed + [id], done + [id], limit);
    EndIsPart(completed, done);
    LatestIsPart(done + [id], limit);
  }

  /** Completing a message keeps every saved phase of the others, and closes its own. */
  lemma CompleteKeepsSound(j: Journal, done: seq<Id>, ids: set<Id>, stale: set<Id>, log: seq<Event>, limit: nat, id: Id)
    requires Sound(j, done, ids, stale, log, limit) && id in ids && id !in j.completed
    ensures Sound(Complete(j, id, limit), Latest(done + [id], limit), ids, stale, log, limit)
    ensures Entries(Complete(j, id, limit)) == Entries(j) - {id}
    ensures |ids| <= limit ==> Latest(done + [id], limit) == done + [id]
  {
    LatestExtends(j.completed, done, limit, id);
    CompletesWithin(done, ids, limit, id);
    CompleteCloses(j, id, limit);
    EndIsPart(j.completed, done);
    if |ids| <= limit { CompleteRemembers(j, done, ids, log, limit, id); }
  }

  lemma CompletesWithin(done: seq<Id>, ids: set<Id>, limit: nat, id: Id)
    requires (forall x :: x in done ==> x in ids) && id in ids
    ensures forall x :: x in Latest(done + [id], limit) ==> x in ids
  {
    LatestIsPart(done + [id], limit);
  }

  lemma CompleteCloses(j: Journal, id: Id, limit: nat)
    requires id !in j.completed
    ensures Entries(Complete(j, id, limit)) == Entries(j) - {id}
    ensures Complete(j, id, limit).completed == Latest(j.completed + [id], limit)
    ensures (forall x :: x in Entries(j) ==> x !in j.completed) ==>
              forall x :: x in Entries(Complete(j, id, limit)) ==> x !in Complete(j, id, limit).completed
  {
    LatestIsPart(j.completed + [id], limit);
  }

  lemma CompleteRemembers(j: Journal, done: seq<Id>, ids: set<Id>, log: seq<Event>, limit: nat, id: Id)
    requires Distinct(done) && (forall x :: x in done ==> x in ids) && |ids| <= limit
    requires id in ids && id !in done && Remembers(j, done, log)
    ensures Remembers(Complete(j, id, limit), Latest(done + [id], limit), log)
    ensures Latest(done + [id], limit) == done + [id]
  {
    DistinctSize(done + [id], ids);
    assert Latest(done + [id], limit) == done + [id];
    forall p: Phase ensures PhaseIds(j, p) - {id} <= PhaseIds(Complete(j, id, limit), p) {}
  }

  /** Recording a phase of an open message. */
  lemma NoteKeepsSound(j: Journal, j': Journal, done: seq<Id>, ids: set<Id>, stale: set<Id>, log: seq<Event>,
                       limit: nat, id: Id)
    requires Sound(j, done, ids, stale, log, limit) && id in ids && id !in j.completed
    requires j'.completed == j.completed && Entries(j') <= Entries(j) + {id}
    requires forall p :: PhaseIds(j, p) <= PhaseIds(j', p)
    ensures Sound(j', done, ids, stale, log, limit)
  {}

  /** After any number of completions, all of them are still known exactly when they fit the limit;
      a message completed and forgotten would be handled again if the batch were replayed. */
  lemma {:induction false} CompletionsSurviveIffTheyFit(j: Journal, ids: seq<Id>, limit: nat)
    requires Distinct(ids) && (forall x :: x in ids ==> x !in j.completed)
    requires |j.completed| <= limit
    ensures (forall x :: x in ids ==> x in CompleteAll(j, ids, limit).completed) <==> |ids| <= limit
    ensures CompleteAll(j, ids, limit).completed == Latest(j.completed + ids, limit)
  {
    CompletedAre(j, ids, limit);
    var all := j.completed + ids;
    var kept := Latest(all, limit);
    if |ids| <= limit {
      assert forall a :: 0 <= a < |ids| ==> ids[a] == kept[|kept| - |ids| + a];
    } else {
      assert kept == ids[|ids| - limit..];
      assert ids[0] !in kept;
    }
  }

  lemma {:induction false} CompletedAre(j: Journal, ids: seq<Id>, limit: nat)
    requires Distinct(ids) && (forall x :: x in ids ==> x !in j.completed)
    requires |j.completed| <= limit
    ensures CompleteAll(j, ids, limit).completed == Latest(j.completed + ids, limit)
  {
    if ids == [] {
      assert j.completed + ids == j.completed;
    } else {
      var n := |ids| - 1;
      var first, id := ids[..n], ids[n];
      assert ids == first + [id];
      assert id !in first;
      CompletedAre(j, first, limit);
      LatestIsPart(j.completed + first, limit);
      LatestOnce(j.completed + first, id, limit);
      assert j.completed + ids == j.completed + first + [id];
    }
  }

  lemma LatestOnce(s: seq<Id>, id: Id, limit: nat)
    ensures Latest(Latest(s, limit) + [id], limit) == Latest(s + [id], limit)
  {}

  /** How a message was dealt with, and the journal at that moment. */
  datatype Dealt = Dealt(journal: Journal, handled: bool)

  /** A handled message passed the gate and its reply was sent, now or earlier; any other was completed
      already, was turned away at the gate, or lost its task to somebody else. */
  predicate DealtOk(m: Message, d: Dealt, sent: set<Id>) {
    if d.handled then
      m.id !in d.journal.completed && ShouldHandle(d.journal, m) && (m.id in sent || m.id in d.journal.replied)
    else
      || m.id in d.journal.completed || !ShouldHandle(d.journal, m)
      || (m.task.Some? && m.id !in d.journal.claimed && !m.mine)
  }

  /** A message that the gate lets through whatever the journal says, and whose task nobody can take. */
  predicate Wanted(m: Message) {
    !m.refused && m.addressed && (m.task.None? || m.mine)
  }

  /** A wanted message that was not known to be completed, the first of its id in the batch. */
  predicate Sure(earlier: seq<Message>, m: Message, known: seq<Id>) {
    Wanted(m) && m.id !in known && m.id !in Ids(earlier)
  }

  /** What the messages of a batch have led to: each sure one is among the `replied` and was counted as
      handled, a refused one was not counted; any other may have been. */
  predicate Dispatched(messages: seq<Message>, known: seq<Id>, replied: set<Id>, handled: nat) {
    if messages == [] then handled == 0 else
      var front, m := messages[..|messages| - 1], messages[|messages| - 1];
      || (!m.refused && handled > 0 && (Sure(front, m, known) ==> m.id in replied)
          && Dispatched(front, known, replied, handled - 1))
      || (!Sure(front, m, known) && Dispatched(front, known, replied, handled))
  }

  lemma {:induction false} EachReplied(messages: seq<Message>, known: seq<Id>, replied: set<Id>, handled: nat, k: nat)
    requires Dispatched(messages, known, replied, handled)
    requires k < |messages| && Sure(messages[..k], messages[k], known)
    ensures messages[k].id in replied
  {
    var n := |messages| - 1;
    if k < n {
      assert messages[..n][..k] == messages[..k];
      if Dispatched(messages[..n], known, replied, handled) {
        EachReplied(messages[..n], known, replied, handled, k);
      } else {
        EachReplied(messages[..n], known, replied, handled - 1, k);
      }
    }
  }

  lemma {:induction false} RepliedStays(messages: seq<Message>, known: seq<Id>, replied: set<Id>, replied': set<Id>,
                                        handled: nat)
    requires Dispatched(messages, known, replied, handled) && replied <= replied'
    ensures Dispatched(messages, known, replied', handled)
  {
    if messages != [] {
      var front := messages[..|messages| - 1];
      if Dispatched(front, known, replied, handled) { RepliedStays(front, known, replied, replied', handled); }
      if handled > 0 && Dispatched(front, known, replied, handled - 1) {
        RepliedStays(front, known, replied, replied', handled - 1);
      }
    }
  }

  /** Messages that were sure to be handled. */
  function CountSure(messages: seq<Message>, known: seq<Id>): nat {
    if messages == [] then 0 else
      var n := |messages| - 1;
      CountSure(messages[..n], known) + if Sure(messages[..n], messages[n], known) then 1 else 0
  }

  /** Messages that are not turned away in any case. */
  function CountOpen(messages: seq<Message>): nat {
    if messages == [] then 0 else
      CountOpen(messages[..|messages| - 1]) + if messages[|messages| - 1].refused then 0 else 1
  }

  /** The number of handled messages lies between the sure ones and those not refused. */
  lemma {:induction false} HandledIsBetween(messages: seq<Message>, known: seq<Id>, replied: set<Id>, handled: nat)
    requires Dispatched(messages, known, replied, handled)
    ensures CountSure(messages, known) <= handled <= CountOpen(messages)
  {
    if messages != [] {
      var front, m := messages[..|messages| - 1], messages[|messages| - 1];
      if !Sure(front, m, known) && Dispatched(front, known, replied, handled) {
        HandledIsBetween(front, known, replied, handled);
      } else {
        HandledIsBetween(front, known, replied, handled - 1);
      }
    }
  }

  function OpenIds(messages: seq<Message>): set<Id> {
    set m | m in messages && !m.refused :: m.id
  }

  lemma IdsGrow(messages: seq<Message>, m: Message)
    ensures Ids(messages + [m]) == Ids(messages) + {m.id}
  {
    assert m in messages + [m];
    assert forall x :: x in messages ==> x in messages + [m];
  }

  /** Where the messages so far have led to, since the journal was `memory0`. Nothing else is known to be
      completed but what was known before and these messages. */
  ghost predicate Progress(messages: seq<Message>, memory0: Journal, memory: Journal, sends: set<Id>, handled: nat) {
    && memory.replied <= memory0.replied + sends
    && (forall x :: x in memory.completed ==> x in memory0.completed || x in Ids(messages))
    && Dispatched(messages, memory0.completed, memory0.replied + sends, handled)
  }

  lemma ProgressSkips(messages: seq<Message>, m: Message, memory0: Journal, memory: Journal, sends: set<Id>,
                      handled: nat)
    requires Progress(messages, memory0, memory, sends, handled) && m.id in memory.completed
    ensures Progress(messages + [m], memory0, memory, sends, handled)
  {
    assert (messages + [m])[..|messages|] == messages;
    IdsGrow(messages, m);
  }

  lemma ProgressHandles(messages: seq<Message>, m: Message, memory0: Journal, memory: Journal, sends: set<Id>,
                        handled: nat, memory': Journal, sends': set<Id>, d: bool, limit: nat)
    requires Progress(messages, memory0, memory, sends, handled) && m.id !in memory.completed
    requires DealtOk(m, Dealt(memory, d), sends') && sends <= sends'
    requires memory'.replied <= memory.replied + sends'
    requires memory'.completed == Latest(memory.completed + [m.id], limit)
    ensures Progress(messages + [m], memory0, memory', sends', handled + if d then 1 else 0)
  {
    assert (messages + [m])[..|messages|] == messages;
    RepliedStays(messages, memory0.completed, memory0.replied + sends, memory0.replied + sends', handled);
    IdsGrow(messages, m);
    CompletedFrom(messages, m, memory0.completed, memory.completed, limit);
  }

  lemma CompletedFrom(messages: seq<Message>, m: Message, known: seq<Id>, completed: seq<Id>, limit: nat)
    requires forall x :: x in completed ==> x in known || x in Ids(messages)
    ensures forall x :: x in Latest(completed + [m.id], limit) ==> x in known || x in Ids(messages + [m])
  {
    LatestIsPart(completed + [m.id], limit);
    IdsGrow(messages, m);
  }

  /** The first messages are completed, unless they were known to be from the start; and nothing else is
      known to be completed but what was known then. */
  ghost predicate Remaining(messages: seq<Message>, index: nat, done: seq<Id>, known: seq<Id>, completed: seq<Id>)
    requires index <= |messages|
  {
    && (forall k :: 0 <= k < index ==> messages[k].id in done || messages[k].id in known)
    && (forall x :: x in completed ==> x in done || x in known)
  }

  lemma RemainingGrows(messages: seq<Message>, index: nat, done: seq<Id>, known: seq<Id>, completed: seq<Id>,
                       completed': seq<Id>, limit: nat)
    requires index < |messages| && Remaining(messages, index, done, known, completed)
    requires completed' == Latest(completed + [messages[index].id], limit)
    ensures Remaining(messages, index + 1, done + [messages[index].id], known, completed')
  {
    LatestIsPart(completed + [messages[index].id], limit);
  }

  /** All messages are completed, unless they were known to be from the start. */
  predicate AllCompleted(messages: seq<Message>, completed: seq<Id>, known: seq<Id>) {
    messages != [] ==>
      var n := |messages| - 1;
      (messages[n].id in completed || messages[n].id in known) && AllCompleted(messages[..n], completed, known)
  }

  lemma {:induction false} EachCompleted(messages: seq<Message>, completed: seq<Id>, known: seq<Id>)
    ensures AllCompleted(messages, completed, known)
       <==> forall k :: 0 <= k < |messages| ==> messages[k].id in completed || messages[k].id in known
  {
    if messages != [] {
      var n := |messages| - 1;
      EachCompleted(messages[..n], completed, known);
      assert forall k :: 0 <= k < n ==> messages[k] == messages[..n][k];
    }
  }

  lemma {:induction false} NoneRemains(messages: seq<Message>, done: seq<Id>, known: seq<Id>, completed: seq<Id>)
    requires Remaining(messages, |messages|, done, known, completed) && EndsWith(completed, done)
    ensures AllCompleted(messages, completed, known)
  {
    EndIsPart(completed, done);
    EachCompleted(messages, completed, known);
  }

  /** How far the loop over the messages has come: those up to `index` are closed; as long as they
      were all known to be completed nothing has changed, otherwise the journal has been saved. */
  ghost predicate Reached(messages: seq<Message>, index: nat, memory: Journal, disk: Journal,
                          memory0: Journal, disk0: Journal)
    requires index <= |messages|
  {
    && (forall k :: 0 <= k < index ==> messages[k].id !in Entries(memory))
    && (if forall k :: 0 <= k < index ==> messages[k].id in memory0.completed
        then memory == memory0 && disk == disk0 else memory == disk)
  }

  lemma SkipReaches(messages: seq<Message>, index: nat, memory: Journal, disk: Journal,
                    memory0: Journal, disk0: Journal)
    requires index < |messages| && Reached(messages, index, memory, disk, memory0, disk0)
    requires messages[index].id in memory.completed && messages[index].id !in Entries(memory)
    ensures Reached(messages, index + 1, memory, disk, memory0, disk0)
  {}

  lemma HandleReaches(messages: seq<Message>, index: nat, memory: Journal, disk: Journal, saved: Journal,
                      memory0: Journal, disk0: Journal)
    requires index < |messages| && Reached(messages, index, memory, disk, memory0, disk0)
    requires messages[index].id !in memory.completed
    requires Entries(saved) <= Entries(memory) + {messages[index].id} && messages[index].id !in Entries(saved)
    ensures Reached(messages, index + 1, saved, saved, memory0, disk0)
  {}

  /** The journal in memory and the one on disk, during the handling of the messages `ids`. */
  ghost predicate BothSound(memory: Journal, done: seq<Id>, disk: Journal, doneOnDisk: seq<Id>,
                            ids: set<Id>, stale: set<Id>, log: seq<Event>, limit: nat)
  {
    && Sound(memory, done, ids, stale, log, limit) && Sound(disk, doneOnDisk, ids, stale, log, limit)
    && stale !! ids && (|ids| <= limit ==> OnceOnly(log))
  }

  /** A message was handled or turned away: all that the loop keeps moves on by one. */
  lemma TurnTaken(messages: seq<Message>, index: nat, memory0: Journal, disk0: Journal,
                  memory: Journal, disk: Journal, sends: set<Id>, done: seq<Id>, handled: nat,
                  memory': Journal, sends': set<Id>, d: bool, limit: nat, allowed: set<Id>)
    requires index < |messages| && messages[index].id !in memory.completed
    requires Reached(messages, index, memory, disk, memory0, disk0)
    requires Progress(messages[..index], memory0, memory, sends, handled)
    requires DealtOk(messages[index], Dealt(memory, d), sends')
    requires sends <= sends' <= sends + if messages[index].refused then {} else {messages[index].id}
    requires sends <= allowed && (!messages[index].refused ==> messages[index].id in allowed)
    ensures sends' <= allowed
    requires memory'.replied <= memory.replied + sends'
    requires memory'.completed == Latest(memory.completed + [messages[index].id], limit)
    requires Entries(memory') <= Entries(memory) + {messages[index].id} && messages[index].id !in Entries(memory')
    ensures Reached(messages, index + 1, memory', memory', memory0, disk0)
    ensures Progress(messages[..index + 1], memory0, memory', sends', handled + if d then 1 else 0)
    ensures Remaining(messages, index, done, memory0.completed, memory.completed) ==>
              Remaining(messages, index + 1, done + [messages[index].id], memory0.completed, memory'.completed)
  {
    var m := messages[index];
    assert messages[..index + 1] == messages[..index] + [m];
    HandleReaches(messages, index, memory, disk, memory', memory0, disk0);
    ProgressHandles(messages[..index], m, memory0, memory, sends, handled, memory', sends', d, limit);
    if Remaining(messages, index, done, memory0.completed, memory.completed) {
      RemainingGrows(messages, index, done, memory0.completed, memory.completed, memory'.completed, limit);
    }
  }

  /** Journals at rest are sound at the start of a batch; entries that they hold for messages of the
      batch are not stale any more. */
  lemma StartsSound(memory: Journal, disk: Journal, ids: set<Id>, stale: set<Id>, limit: nat)
    requires BothSound(memory, [], disk, [], {}, stale, [], limit)
    ensures BothSound(memory, [], disk, [], ids, stale - ids, [], limit)
  {}

  /** Saving makes what is known in memory known on disk. */
  lemma SaveKeepsSound(memory: Journal, done: seq<Id>, disk: Journal, doneOnDisk: seq<Id>,
                       ids: set<Id>, stale: set<Id>, log: seq<Event>, limit: nat, news: seq<Event>)
    requires BothSound(memory, done, disk, doneOnDisk, ids, stale, log, limit)
    requires |news| <= 1 && forall e :: e in news ==> e.Durable? && e.id in PhaseIds(memory, e.phase)
    ensures BothSound(memory, done, memory, done, ids, stale, log + news, limit)
  {}

  /** Journals at the end of a batch, with what they still hold declared stale. */
  lemma EndsSound(memory: Journal, done: seq<Id>, disk: Journal, doneOnDisk: seq<Id>,
                  ids: set<Id>, stale: set<Id>, log: seq<Event>, limit: nat)
    requires BothSound(memory, done, disk, doneOnDisk, ids, stale, log, limit)
    ensures BothSound(memory, [], disk, [], {}, Entries(memory) + Entries(disk), [], limit)
  {}

  lemma ClosedBatch(messages: seq<Message>, entries: set<Id>)
    requires forall k :: 0 <= k < |messages| ==> messages[k].id !in entries
    ensures entries !! Ids(messages)
  {}

  /** Entries that are left when a spool is cleared. */
  lemma LeftBehind(memory: set<Id>, disk: set<Id>, batch: set<Id>, stale: set<Id>)
    requires memory <= batch + stale && disk <= batch + stale && stale !! batch && memory !! batch
    ensures memory + disk <= stale <==> disk !! batch
    ensures memory + disk <= stale + disk
  {}

  class RaftWorker {
    const limit: nat
    // the journal as the process sees it, and as it was last saved
    var memory: Journal
    var disk: Journal
    var spool: Option<seq<Message>>
    var actions: nat
    // completions of the current batch, and everything done for it
    ghost var done: seq<Id>
    ghost var doneOnDisk: seq<Id>
    ghost var log: seq<Event>
    // messages of earlier spools that still have entries
    ghost var stale: set<Id>
    // messages whose reply was ever attempted
    ghost var sends: set<Id>
    // actions that failed
    ghost var failures: nat

    ghost function Batch(): set<Id>
      reads this`spool
    {
      if spool.Some? then Ids(spool.value) else {}
    }

    /** Entries name messages of the current spool, in memory and on disk, apart from stale ones; and
        for a batch within the limit nothing that was saved is done again. */
    ghost predicate Valid()
      reads this`memory, this`disk, this`spool, this`done, this`doneOnDisk, this`log, this`stale
    {
      BothSound(memory, done, disk, doneOnDisk, Batch(), stale, log, limit)
    }

    /** The log only grew, and only by events of these phases. */
    ghost predicate OnlyGrowsBy(phases: set<Phase>, before: seq<Event>)
      reads this
    {
      before <= log && forall k :: |before| <= k < |log| ==> log[k].phase in phases
    }

    ghost predicate Open(message: Message)
      reads this`memory, this`disk, this`spool, this`done, this`doneOnDisk, this`log, this`stale
    {
      Valid() && spool.Some? && message.id in Batch() && message.id !in memory.completed
    }

    constructor (limit: nat)
      ensures Valid() && this.limit == limit && spool.None? && memory == disk && stale == {}
      ensures memory == Journal([], {}, {}, map[], map[], map[])
    {
      this.limit := limit;
      memory, disk := Journal([], {}, {}, map[], map[], map[]), Journal([], {}, {}, map[], map[], map[]);
      spool, actions := None, 0;
      done, doneOnDisk, log, stale, sends, failures := [], [], [], {}, {}, 0;
    }

    /** A new process reads what was saved. */
    method Restart()
      requires Valid()
      modifies this`memory, this`done
      ensures Valid() && memory == disk
    {
      memory, done := disk, doneOnDisk;
    }

    /** Actions have failed since `before` were counted, which needs an unreliable world. */
    ghost predicate Failed(before: nat, world: World)
      reads this
    {
      before < failures && !Reliable(world)
    }

    method Act(world: World) returns (ok: bool)
      modifies this`actions, this`failures
      ensures ok <==> !world.fails(old(actions))
      ensures actions == old(actions) + 1 && failures == old(failures) + if ok then 0 else 1
      ensures Reliable(world) ==> ok
    {
      ok := !world.fails(actions);
      actions := actions + 1;
      failures := failures + if ok then 0 else 1;
    }

    /** An external action of a phase that has not been saved. It counts as attempted even where it
        fails, for it may have taken effect. */
    method Try(phase: Phase, message: Message, world: World) returns (ok: bool)
      requires Open(message) && message.id !in PhaseIds(memory, phase)
      modifies this`actions, this`failures, this`log
      ensures Open(message) && log == old(log) + [Attempt(phase, message.id)] && actions == old(actions) + 1
      ensures if ok then failures == old(failures) else Failed(old(failures), world)
    {
      EndIsPart(memory.completed, done);
      log := log + [Attempt(phase, message.id)];
      ok := Act(world);
    }

    method Save(ghost news: seq<Event>, world: World) returns (ok: bool)
      requires Valid() && |news| <= 1
      requires forall e :: e in news ==> e.Durable? && e.id in PhaseIds(memory, e.phase)
      modifies this`disk, this`doneOnDisk, this`log, this`actions, this`failures
      ensures Valid()
      ensures ok ==> disk == memory && log == old(log) + news
      ensures !ok ==> disk == old(disk) && log == old(log)
      ensures ok <==> !world.fails(old(actions))
      ensures actions == old(actions) + 1
      ensures if ok then failures == old(failures) else Failed(old(failures), world)
    {
      ok := Act(world);
      if ok { Write(news); }
    }

    method Write(ghost news: seq<Event>)
      requires Valid() && |news| <= 1
      requires forall e :: e in news ==> e.Durable? && e.id in PhaseIds(memory, e.phase)
      modifies this`disk, this`doneOnDisk, this`log
      ensures Valid() && disk == memory && log == old(log) + news
    {
      SaveKeepsSound(memory, done, disk, doneOnDisk, Batch(), stale, log, limit, news);
      disk, doneOnDisk, log := memory, done, log + news;
    }

    /** Changes the journal while a message is open, and saves it. */
    method Commit(next: Journal, message: Message, ghost news: seq<Event>, world: World) returns (ok: bool)
      requires Open(message) && |news| <= 1
      requires next.completed == memory.completed && Entries(next) <= Entries(memory) + {message.id}
      requires forall p :: PhaseIds(memory, p) <= PhaseIds(next, p)
      requires forall e :: e in news ==> e.Durable? && e.id in PhaseIds(next, e.phase)
      modifies this`memory, this`disk, this`doneOnDisk, this`log, this`actions, this`failures
      ensures Open(message) && memory == next && actions == old(actions) + 1
      ensures ok ==> disk == memory
      ensures !ok ==> disk == old(disk)
      ensures log == if ok then old(log) + news else old(log)
      ensures if ok then failures == old(failures) else Failed(old(failures), world)
    {
      NoteKeepsSound(memory, next, done, Batch(), stale, log, limit, message.id);
      memory := next;
      ok := Save(news, world);
    }

    /** Records that the task was claimed. */
    method RecordClaim(message: Message, world: World) returns (ok: bool)
      requires Open(message)
      modifies this`memory, this`disk, this`doneOnDisk, this`log, this`actions, this`failures
      ensures Open(message) && memory == old(memory).(claimed := old(memory.claimed) + {message.id})
      ensures ok ==> disk == memory
      ensures OnlyGrowsBy({Claim}, old(log))
      ensures if ok then failures == old(failures) else Failed(old(failures), world)
    {
      ok := Commit(memory.(claimed := memory.claimed + {message.id}), message, [Durable(Claim, message.id)], world);
    }

    /** Records that the reply was sent. */
    method RecordReply(message: Message, world: World) returns (ok: bool)
      requires Open(message)
      modifies this`memory, this`disk, this`doneOnDisk, this`log, this`actions, this`failures
      ensures Open(message) && memory == old(memory).(replied := old(memory.replied) + {message.id})
      ensures ok ==> disk == memory
      ensures OnlyGrowsBy({Send}, old(log))
      ensures if ok then failures == old(failures) else Failed(old(failures), world)
    {
      ok := Commit(memory.(replied := memory.replied + {message.id}), message, [Durable(Send, message.id)], world);
    }

    /** `mark_completed` */
    method MarkCompleted(message: Message, world: World) returns (ok: bool)
      requires Open(message)
      modifies this`memory, this`done, this`disk, this`doneOnDisk, this`log, this`actions, this`failures
      ensures Valid() && memory == Complete(old(memory), message.id, limit)
      ensures Entries(memory) == old(Entries(memory)) - {message.id}
      ensures memory.waitingRuns == old(memory.waitingRuns) && memory.openTasks == old(memory.openTasks)
      ensures |Batch()| <= limit ==> done == old(done) + [message.id]
      ensures disk == if ok then memory else old(disk)
      ensures ok <==> !world.fails(old(actions))
      ensures log == old(log)
      ensures if ok then failures == old(failures) else Failed(old(failures), world)
    {
      CompleteKeepsSound(memory, done, Batch(), stale, log, limit, message.id);
      memory, done := Complete(memory, message.id, limit), Latest(done + [message.id], limit);
      ok := Save([], world);
    }

    /** `_claim_if_needed`; None is an error or a crash. */
    method ClaimIfNeeded(message: Message, world: World) returns (claimed: Option<bool>)
      requires Open(message)
      modifies this`memory, this`disk, this`doneOnDisk, this`log, this`actions, this`failures
      ensures memory.completed == old(memory.completed)
      ensures Open(message) && Entries(memory) <= old(Entries(memory)) + {message.id}
      ensures claimed == Some(true) ==> message.id in memory.claimed
      ensures message.id in old(memory.claimed) ==>
                claimed == Some(true) && memory == old(memory) && disk == old(disk) && log == old(log)
      ensures message.id !in old(memory.claimed) && claimed == Some(true) ==> disk == memory
      ensures if claimed.Some? then failures == old(failures) else Failed(old(failures), world)
      ensures claimed == Some(false) ==>
                && message.id !in old(memory.claimed) && !message.mine && !world.claims(old(actions))
                && memory == old(memory)
      ensures memory.replied == old(memory.replied) && OnlyGrowsBy({Claim}, old(log))
    {
      if message.id in memory.claimed { return Some(true); }
      if !message.mine {
        var granted := world.claims(actions);
        var ok := Try(Claim, message, world);
        if !ok { return None; }
        if !granted { return Some(false); }
      }
      var ok := RecordClaim(message, world);
      return if ok then Some(true) else None;
    }

    /** Resumes the waiting run of the conversation, or forgets it when it cannot be found. */
    method ResumeAgent(message: Message, world: World) returns (answer: Option<Resumption>)
      requires Open(message) && message.id !in memory.cached && message.key in memory.waitingRuns
      modifies this`memory, this`disk, this`doneOnDisk, this`log, this`actions, this`failures
      ensures memory.completed == old(memory.completed)
      ensures Open(message) && Entries(memory) == old(Entries(memory)) && message.id !in memory.cached
      ensures log == old(log) + [Attempt(Execute, message.id)]
      ensures answer.Some? ==> answer.value == world.resumes(old(actions), old(memory.waitingRuns[message.key]))
      ensures answer.Some? && answer.value.Resumed? ==> memory == old(memory)
      ensures if answer.Some? then failures == old(failures) else Failed(old(failures), world)
      ensures answer == Some(RunNotFound) ==> memory == Forget(old(memory), message.key) && actions == old(actions) + 2
      ensures memory.replied == old(memory.replied) && OnlyGrowsBy({Execute}, old(log))
    {
      var reply := world.resumes(actions, memory.waitingRuns[message.key]);
      var ok := Try(Execute, message, world);
      if !ok { return None; }
      if reply.RunNotFound? {
        ok := Commit(Forget(memory, message.key), message, [], world);
        if !ok { return None; }
      }
      return Some(reply);
    }

    /** A new run for the message. */
    method StartAgent(message: Message, world: World) returns (result: Option<AgentResult>)
      requires Open(message) && message.id !in memory.cached
      modifies this`log, this`actions, this`failures
      ensures Open(message) && log == old(log) + [Attempt(Execute, message.id)]
      ensures result.Some? ==> result.value == world.runs(old(actions))
      ensures if result.Some? then failures == old(failures) else Failed(old(failures), world)
    {
      var answer := world.runs(actions);
      var ok := Try(Execute, message, world);
      return if ok then Some(answer) else None;
    }

    /** `_execute`: a waiting run of the conversation is resumed, otherwise a run is started. */
    method ExecuteAgent(message: Message, world: World) returns (result: Option<AgentResult>)
      requires Open(message) && message.id !in memory.cached
      modifies this`memory, this`disk, this`doneOnDisk, this`log, this`actions, this`failures
      ensures memory.completed == old(memory.completed)
      ensures Open(message) && Entries(memory) == old(Entries(memory)) && message.id !in memory.cached
      ensures result.Some? && message.key !in old(memory.waitingRuns) ==>
                && result.value == world.runs(old(actions)) && memory == old(memory)
                && log == old(log) + [Attempt(Execute, message.id)]
      ensures result.Some? && message.key in old(memory.waitingRuns) ==>
                match world.resumes(old(actions), old(memory.waitingRuns[message.key]))
                case Resumed(r) =>
                  result.value == r && memory == old(memory) && log == old(log) + [Attempt(Execute, message.id)]
                case RunNotFound =>
                  && result.value == world.runs(old(actions) + 2) && memory == Forget(old(memory), message.key)
                  && log == old(log) + [Attempt(Execute, message.id), Attempt(Execute, message.id)]
      ensures if result.Some? then failures == old(failures) else Failed(old(failures), world)
      ensures memory.replied == old(memory.replied) && OnlyGrowsBy({Execute}, old(log))
    {
      if message.key in memory.waitingRuns {
        var answer := ResumeAgent(message, world);
        if answer.None? { return None; }
        if answer.value.Resumed? { return Some(answer.value.result); }
      }
      result := StartAgent(message, world);
    }

    /** `_cache_reply` */
    method RecordResult(message: Message, result: AgentResult, world: World) returns (ok: bool)
      requires Open(message) && message.id !in memory.cached
      modifies this`memory, this`disk, this`doneOnDisk, this`log, this`actions, this`failures
      ensures Open(message) && Reflects(old(memory), memory, message, result)
      ensures memory.completed == old(memory.completed) && memory.replied == old(memory.replied)
      ensures message.id in memory.cached && Entries(memory) <= old(Entries(memory)) + {message.id}
      ensures ok ==> disk == memory && log == old(log) + [Durable(Execute, message.id)]
      ensures !ok ==> log == old(log)
      ensures if ok then failures == old(failures) else Failed(old(failures), world)
    {
      var next := CacheReply(memory, message, result, TaskFor(memory, message));
      CachedReplyReflects(memory, message, result);
      ok := Commit(next, message, [Durable(Execute, message.id)], world);
    }

    /** Executes the agent and caches the reply to send. */
    method ProduceReply(message: Message, world: World) returns (ok: bool)
      requires Open(message) && message.id !in memory.cached
      modifies this`memory, this`disk, this`doneOnDisk, this`log, this`actions, this`failures
      ensures Open(message) && memory.completed == old(memory.completed) && memory.replied == old(memory.replied)
      ensures Entries(memory) <= old(Entries(memory)) + {message.id} && OnlyGrowsBy({Execute}, old(log))
      ensures ok ==> message.id in memory.cached && disk == memory
      ensures ok && message.key !in old(memory.waitingRuns) ==>
                && Reflects(old(memory), memory, message, world.runs(old(actions)))
                && log == old(log) + [Attempt(Execute, message.id)] + [Durable(Execute, message.id)]
      ensures ok && message.key in old(memory.waitingRuns) ==>
                match world.resumes(old(actions), old(memory.waitingRuns[message.key]))
                case Resumed(r) =>
                  && Reflects(old(memory), memory, message, r)
                  && log == old(log) + [Attempt(Execute, message.id)] + [Durable(Execute, message.id)]
                case RunNotFound =>
                  && Reflects(Forget(old(memory), message.key), memory, message, world.runs(old(actions) + 2))
                  && log == old(log) + [Attempt(Execute, message.id), Attempt(Execute, message.id)]
                            + [Durable(Execute, message.id)]
      ensures ok ==> WaitsFor(memory, message.key, ResultFor(old(memory), message, old(actions), world))
      ensures ok && memory.cached[message.id].review.Some? ==> message.key !in memory.waitingRuns
      ensures if ok then failures == old(failures) else Failed(old(failures), world)
    {
      var result := ExecuteAgent(message, world);
      if result.None? { return false; }
      ok := RecordResult(message, result.value, world);
    }

    /** The reply to send: cached already, or the agent is asked for it. A waiting run of the conversation is
        resumed with the message; when it cannot be found it is forgotten with its task and a new run is
        started, as it is without a waiting run. */
    method ObtainReply(message: Message, world: World) returns (ok: bool)
      requires Open(message)
      modifies this`memory, this`disk, this`doneOnDisk, this`log, this`actions, this`failures
      ensures memory.completed == old(memory.completed)
      ensures Open(message) && Entries(memory) <= old(Entries(memory)) + {message.id}
      ensures message.id in old(memory.cached) ==> ok && log == old(log) && memory == old(memory)
      ensures ok ==> message.id in memory.cached
      ensures message.id !in old(memory.cached) && ok ==> disk == memory
      ensures message.id !in old(memory.cached) && ok && message.key !in old(memory.waitingRuns) ==>
                && Reflects(old(memory), memory, message, world.runs(old(actions)))
                && log == old(log) + [Attempt(Execute, message.id)] + [Durable(Execute, message.id)]
      ensures message.id !in old(memory.cached) && ok && message.key in old(memory.waitingRuns) ==>
                match world.resumes(old(actions), old(memory.waitingRuns[message.key]))
                case Resumed(r) =>
                  && Reflects(old(memory), memory, message, r)
                  && log == old(log) + [Attempt(Execute, message.id)] + [Durable(Execute, message.id)]
                case RunNotFound =>
                  && Reflects(Forget(old(memory), message.key), memory, message, world.runs(old(actions) + 2))
                  && log == old(log) + [Attempt(Execute, message.id), Attempt(Execute, message.id)]
                            + [Durable(Execute, message.id)]
      ensures message.id !in old(memory.cached) && ok ==>
                WaitsFor(memory, message.key, ResultFor(old(memory), message, old(actions), world))
      ensures message.id !in old(memory.cached) && ok && memory.cached[message.id].review.Some? ==>
                message.key !in memory.waitingRuns
      ensures if ok then failures == old(failures) else Failed(old(failures), world)
      ensures memory.replied == old(memory.replied) && OnlyGrowsBy({Execute}, old(log))
    {
      if message.id in memory.cached { return true; }
      ok := ProduceReply(message, world);
    }

    /** The external action of sending. */
    method TrySend(message: Message, world: World) returns (ok: bool)
      requires Open(message) && message.id !in memory.replied
      modifies this`log, this`actions, this`failures, this`sends
      ensures Open(message) && sends == old(sends) + {message.id} && log == old(log) + [Attempt(Send, message.id)]
      ensures if ok then failures == old(failures) else Failed(old(failures), world)
    {
      sends := sends + {message.id};
      ok := Try(Send, message, world);
    }

    method SendReply(message: Message, world: World) returns (ok: bool)
      requires Open(message) && message.id in memory.cached
      modifies this`memory, this`disk, this`doneOnDisk, this`log, this`actions, this`failures, this`sends
      ensures old(sends) <= sends <= old(sends) + {message.id} && memory.completed == old(memory.completed)
      ensures memory.replied <= old(memory.replied) + sends
      ensures Open(message) && Entries(memory) == old(Entries(memory)) && memory.cached == old(memory.cached)
      ensures ok ==> message.id in memory.replied && (message.id in sends || message.id in old(memory.replied))
      ensures message.id in old(memory.replied) ==>
                ok && memory == old(memory) && disk == old(disk) && log == old(log)
      ensures message.id !in old(memory.replied) && ok ==> disk == memory
      ensures if ok then failures == old(failures) else Failed(old(failures), world)
      ensures memory.waitingRuns == old(memory.waitingRuns) && memory.openTasks == old(memory.openTasks)
      ensures OnlyGrowsBy({Send}, old(log))
    {
      if message.id in memory.replied { return true; }
      ok := TrySend(message, world);
      if !ok { return false; }
      ghost var before := memory;
      ok := RecordReply(message, world);
      assert Entries(memory) == Entries(before);
    }

    method MoveToReview(message: Message, world: World) returns (ok: bool)
      requires Open(message) && message.id in memory.cached
      modifies this`memory, this`disk, this`doneOnDisk, this`log, this`actions, this`failures
      ensures memory.completed == old(memory.completed) && memory.replied == old(memory.replied)
      ensures memory.cached == old(memory.cached)
      ensures Open(message) && Entries(memory) == old(Entries(memory)) && log == old(log)
      ensures ok ==> memory == if old(memory.cached[message.id]).review.None? then old(memory)
                               else Forget(old(memory), message.key)
      ensures ok ==> actions == old(actions) + if old(memory.cached[message.id]).review.None? then 0 else 2
      ensures disk == old(disk) || disk == memory
      ensures if ok then failures == old(failures) else Failed(old(failures), world)
    {
      if memory.cached[message.id].review.None? { return true; }
      ok := Act(world);
      if !ok { return false; }
      ok := Commit(Forget(memory, message.key), message, [], world);
    }

    /** Sends the reply, and puts a finished task up for review, which ends the conversation. */
    method Deliver(message: Message, world: World) returns (ok: bool)
      requires Open(message) && message.id in memory.cached
      modifies this`memory, this`disk, this`doneOnDisk, this`log, this`actions, this`failures, this`sends
      ensures Open(message) && memory.completed == old(memory.completed) && memory.cached == old(memory.cached)
      ensures old(sends) <= sends <= old(sends) + {message.id} && memory.replied <= old(memory.replied) + sends
      ensures Entries(memory) == old(Entries(memory))
      ensures ok ==> message.id in sends || message.id in old(memory.replied)
      ensures ok ==> if memory.cached[message.id].review.Some?
                     then message.key !in memory.waitingRuns && message.key !in memory.openTasks
                     else memory.waitingRuns == old(memory.waitingRuns) && memory.openTasks == old(memory.openTasks)
      ensures if ok then failures == old(failures) else Failed(old(failures), world)
    {
      ok := SendReply(message, world);
      if !ok { return; }
      ok := MoveToReview(message, world);
    }

    /** A message that passed the gate and whose claim, if any, was not refused. */
    method Handle(message: Message, world: World) returns (ok: bool)
      requires Open(message)
      modifies this`memory, this`disk, this`doneOnDisk, this`log, this`actions, this`failures, this`sends
      ensures Open(message) && memory.completed == old(memory.completed)
      ensures old(sends) <= sends <= old(sends) + {message.id} && memory.replied <= old(memory.replied) + sends
      ensures Entries(memory) <= old(Entries(memory)) + {message.id}
      ensures ok ==> message.id in sends || message.id in old(memory.replied)
      ensures ok && message.id in memory.cached && memory.cached[message.id].review.Some? ==>
                message.key !in memory.waitingRuns && message.key !in memory.openTasks
      ensures ok && message.id !in old(memory.cached) ==>
                WaitsFor(memory, message.key, ResultFor(old(memory), message, old(actions), world))
      ensures if ok then failures == old(failures) else Failed(old(failures), world)
    {
      ok := ObtainReply(message, world);
      if !ok { return; }
      ok := Deliver(message, world);
    }

    /** Whether a message is handled: the gate, and then the claim of its task. None is an error or a
        crash. */
    method Gate(message: Message, world: World) returns (handle: Option<bool>)
      requires Open(message)
      modifies this`memory, this`disk, this`doneOnDisk, this`log, this`actions, this`failures
      ensures Open(message) && memory.completed == old(memory.completed) && memory.replied == old(memory.replied)
      ensures Entries(memory) <= old(Entries(memory)) + {message.id} && OnlyGrowsBy({Claim}, old(log))
      ensures handle == Some(true) ==>
                !message.refused && (message.addressed || message.key in old(memory.waitingRuns))
      ensures handle == Some(false) && !message.refused
              && (message.addressed || message.key in old(memory.waitingRuns)) ==>
                && message.task.Some? && message.id !in old(memory.claimed) && !message.mine
                && !world.claims(old(actions))
      ensures message.task.None? || handle == Some(false) ==> memory == old(memory)
      ensures message.task.None? ==> actions == old(actions)
      ensures if handle.Some? then failures == old(failures) else Failed(old(failures), world)
    {
      if !ShouldHandle(memory, message) { return Some(false); }
      if message.task.None? { return Some(true); }
      handle := ClaimIfNeeded(message, world);
    }

    /** `_process_message`; None is an error or a crash. A processed message is completed, and that
        is on disk. */
    method ProcessMessage(message: Message, world: World) returns (handled: Option<bool>)
      requires Open(message)
      modifies this`memory, this`done, this`disk, this`doneOnDisk, this`log, this`actions, this`failures, this`sends
      ensures Valid() && old(sends) <= sends <= old(sends) + if message.refused then {} else {message.id}
      ensures memory.replied <= old(memory.replied) + sends
      ensures Entries(memory) <= old(Entries(memory)) + {message.id}
      ensures handled.Some? ==> memory == disk && message.id !in Entries(memory)
      ensures handled.Some? ==> DealtOk(message, Dealt(old(memory), handled.value), sends)
      ensures handled == Some(true) ==>
                !message.refused && (message.addressed || message.key in old(memory.waitingRuns))
      ensures handled == Some(false) && !message.refused
              && (message.addressed || message.key in old(memory.waitingRuns)) ==>
                && message.task.Some? && message.id !in old(memory.claimed) && !message.mine
                && !world.claims(old(actions))
      ensures handled == Some(false) ==> OnlyGrowsBy({Claim}, old(log))
      ensures handled == Some(true) && message.task.None? && message.id !in old(memory.cached) ==>
                WaitsFor(memory, message.key, ResultFor(old(memory), message, old(actions), world))
      ensures handled == Some(false) ==>
                memory.waitingRuns == old(memory.waitingRuns) && memory.openTasks == old(memory.openTasks)
      ensures handled.Some? && |Batch()| <= limit ==> done == old(done) + [message.id]
      ensures handled.Some? ==> memory.completed == Latest(old(memory.completed) + [message.id], limit)
      ensures if handled.Some? then failures == old(failures) else Failed(old(failures), world)
    {
      var handle := Gate(message, world);
      if handle.None? { return None; }
      var ok := HandleAndComplete(message, handle.value, world);
      return if ok then handle else None;
    }

    /** What follows the gate: the message is handled, or not, and is completed. */
    method HandleAndComplete(message: Message, handle: bool, world: World) returns (ok: bool)
      requires Open(message)
      modifies this`memory, this`done, this`disk, this`doneOnDisk, this`log, this`actions, this`failures, this`sends
      ensures Valid()
      ensures old(sends) <= sends <= old(sends) + if handle then {message.id} else {}
      ensures memory.replied <= old(memory.replied) + sends
      ensures Entries(memory) <= old(Entries(memory)) + {message.id}
      ensures !handle ==> log == old(log)
      ensures ok && handle && message.id !in old(memory.cached) ==>
                WaitsFor(memory, message.key, ResultFor(old(memory), message, old(actions), world))
      ensures !handle ==> memory.waitingRuns == old(memory.waitingRuns) && memory.openTasks == old(memory.openTasks)
      ensures ok ==> memory == disk && message.id !in Entries(memory)
      ensures ok && handle ==> message.id in sends || message.id in old(memory.replied)
      ensures ok && |Batch()| <= limit ==> done == old(done) + [message.id]
      ensures ok ==> memory.completed == Latest(old(memory.completed) + [message.id], limit)
      ensures if ok then failures == old(failures) else Failed(old(failures), world)
    {
      if handle {
        ok := Handle(message, world);
        if !ok { return; }
      }
      ok := MarkCompleted(message, world);
    }

    /** Every message of the spool is completed as far as this process knows, but the saved journal
        still has an open entry for one: the last save failed and the process went on. */
    ghost predicate Lagging()
      reads this
    {
      spool.Some? && AllKnown() && !(Entries(disk) !! Batch())
    }

    ghost predicate AllKnown()
      reads this
    {
      spool.Some? ==> forall k :: 0 <= k < |spool.value| ==> spool.value[k].id in memory.completed
    }

    /** The spool to work on: the one left behind, or a new one. */
    method OpenSpool(world: World) returns (ok: bool, messages: seq<Message>)
      requires Valid()
      modifies this`spool, this`log, this`done, this`doneOnDisk, this`actions, this`failures, this`stale
      ensures Valid() && stale <= old(stale)
      ensures ok && messages != [] ==> spool == Some(messages)
      ensures old(spool).Some? ==>
                ok && spool == old(spool) && spool.value == messages && stale == old(stale)
      ensures old(spool).None? && (!ok || messages == []) ==> spool.None? && stale == old(stale)
      ensures old(spool).None? && ok ==> messages == world.inbox(old(actions))
      ensures old(spool).None? ==> Entries(disk) <= old(stale)
      ensures if ok then failures == old(failures) else Failed(old(failures), world)
    {
      if spool.Some? { return true, spool.value; }
      messages := world.inbox(actions);
      ok := Act(world);
      if !ok || messages == [] { return ok, []; }
      ok := Act(world);
      if ok { Adopt(messages); }
    }

    /** The spool is written, and a new batch begins. */
    method Adopt(messages: seq<Message>)
      requires Valid() && spool.None?
      modifies this`spool, this`log, this`done, this`doneOnDisk, this`stale
      ensures Valid() && spool == Some(messages) && stale == old(stale) - Ids(messages)
    {
      Rest();
      ghost var ids := Ids(messages);
      StartsSound(memory, disk, ids, stale, limit);
      spool, stale := Some(messages), stale - ids;
      assert Batch() == ids;
    }

    /** Between batches nothing is remembered of the last one. */
    ghost method Rest()
      requires Valid() && spool.None?
      modifies this`log, this`done, this`doneOnDisk
      ensures BothSound(memory, [], disk, [], {}, stale, [], limit)
      ensures done == [] && doneOnDisk == [] && log == []
    {
      done, doneOnDisk, log := [], [], [];
    }

    /** Where the loop over the messages stands, before message `index`. */
    ghost predicate Standing(messages: seq<Message>, index: nat, memory0: Journal, disk0: Journal, allowed: set<Id>,
                             handled: nat, skipped: nat)
      requires index <= |messages|
      reads this
    {
      && Valid() && spool == Some(messages) && handled + skipped == index
      && Reached(messages, index, memory, disk, memory0, disk0)
      && Progress(messages[..index], memory0, memory, sends, handled)
      && sends <= allowed && (forall k :: 0 <= k < |messages| && !messages[k].refused ==> messages[k].id in allowed)
      && (|Batch()| <= limit ==> Remaining(messages, index, done, memory0.completed, memory.completed))
    }

    /** One turn of the loop. */
    method ProcessNext(messages: seq<Message>, index: nat, world: World, handled: nat, skipped: nat,
                       ghost memory0: Journal, ghost disk0: Journal, ghost allowed: set<Id>)
      returns (ok: bool, handled': nat, skipped': nat)
      requires index < |messages| && Standing(messages, index, memory0, disk0, allowed, handled, skipped)
      modifies this`memory, this`done, this`disk, this`doneOnDisk, this`log, this`actions, this`failures, this`sends
      ensures Valid() && if ok then failures == old(failures) else Failed(old(failures), world)
      ensures ok ==> Standing(messages, index + 1, memory0, disk0, allowed, handled', skipped')
    {
      var message := messages[index];
      assert message.id in Batch();
      if message.id in memory.completed {
        assert messages[..index + 1] == messages[..index] + [message];
        SkipReaches(messages, index, memory, disk, memory0, disk0);
        ProgressSkips(messages[..index], message, memory0, memory, sends, handled);
        return true, handled, skipped + 1;
      }
      ok, handled', skipped' := HandleNext(messages, index, world, handled, skipped, memory0, disk0, allowed);
    }

    method HandleNext(messages: seq<Message>, index: nat, world: World, handled: nat, skipped: nat,
                      ghost memory0: Journal, ghost disk0: Journal, ghost allowed: set<Id>)
      returns (ok: bool, handled': nat, skipped': nat)
      requires index < |messages| && Standing(messages, index, memory0, disk0, allowed, handled, skipped)
      requires Open(messages[index])
      modifies this`memory, this`done, this`disk, this`doneOnDisk, this`log, this`actions, this`failures, this`sends
      ensures Valid() && if ok then failures == old(failures) else Failed(old(failures), world)
      ensures ok ==> handled' + skipped' == index + 1 && sends <= allowed
      ensures ok ==> Reached(messages, index + 1, memory, disk, memory0, disk0)
      ensures ok ==> Progress(messages[..index + 1], memory0, memory, sends, handled')
      ensures ok && |Batch()| <= limit ==>
                Remaining(messages, index + 1, done, memory0.completed, memory.completed)
    {
      ghost var before, saved, sent, was := memory, disk, sends, done;
      var r := ProcessMessage(messages[index], world);
      if r.None? { return false, handled, skipped; }
      TurnTaken(messages, index, memory0, disk0, before, saved, sent, was, handled, memory, sends, r.value,
                limit, allowed);
      ok := true;
      handled', skipped' := if r.value then handled + 1 else handled, if r.value then skipped else skipped + 1;
    }

    /** The loop over the messages of the spool: it closes them all, and unless there was nothing to do
        it ends with a save. */
    method ProcessMessages(messages: seq<Message>, world: World) returns (ok: bool, handled: nat, skipped: nat)
      requires Valid() && spool == Some(messages)
      modifies this`memory, this`done, this`disk, this`doneOnDisk, this`log, this`actions, this`failures, this`sends
      ensures Valid() && if ok then failures == old(failures) else Failed(old(failures), world)
      ensures ok ==>
                Standing(messages, |messages|, old(memory), old(disk), old(sends) + OpenIds(messages), handled, skipped)
    {
      ok, handled, skipped := true, 0, 0;
      ghost var allowed := sends + OpenIds(messages);
      for index := 0 to |messages|
        invariant failures == old(failures)
        invariant Standing(messages, index, old(memory), old(disk), allowed, handled, skipped)
      {
        ok, handled, skipped :=
          ProcessNext(messages, index, world, handled, skipped, old(memory), old(disk), allowed);
        if !ok { return; }
      }
    }

    /** What the end of the loop means. */
    lemma {:induction false} AllStand(messages: seq<Message>, memory0: Journal, disk0: Journal, allowed: set<Id>,
                                      handled: nat, skipped: nat)
      requires Standing(messages, |messages|, memory0, disk0, allowed, handled, skipped)
      ensures Dispatched(messages, memory0.completed, memory0.replied + sends, handled)
      ensures sends <= allowed && Entries(memory) !! Batch()
      ensures if forall k :: 0 <= k < |messages| ==> messages[k].id in memory0.completed
              then disk == disk0 else Entries(disk) !! Batch()
      ensures |Ids(messages)| <= limit ==> AllCompleted(messages, memory.completed, memory0.completed)
    {
      assert messages[..|messages|] == messages;
      ClosedBatch(messages, Entries(memory));
      if |Ids(messages)| <= limit { NoneRemains(messages, done, memory0.completed, memory.completed); }
    }

    /** Removes the spool; `lagging` says that the disk still has entries for its messages. */
    method ClearSpool(world: World, ghost lagging: bool) returns (ok: bool)
      requires Valid() && spool.Some? && Entries(memory) !! Batch()
      requires lagging <==> !(Entries(disk) !! Batch())
      modifies this`spool, this`done, this`doneOnDisk, this`log, this`actions, this`failures, this`stale
      ensures Valid() && if ok then failures == old(failures) else Failed(old(failures), world)
      ensures ok ==> spool.None? && stale <= old(stale) + Entries(disk)
      ensures ok ==> (stale <= old(stale) <==> !lagging)
      ensures !ok ==> stale == old(stale)
    {
      ok := Act(world);
      if ok { Abandon(); }
    }

    /** The spool is gone. */
    method Abandon()
      requires Valid() && spool.Some? && Entries(memory) !! Batch()
      modifies this`spool, this`done, this`doneOnDisk, this`log, this`stale
      ensures Valid() && spool.None? && (stale <= old(stale) <==> Entries(disk) !! old(Batch()))
      ensures stale <= old(stale) + Entries(disk)
    {
      LeftBehind(Entries(memory), Entries(disk), Batch(), stale);
      Leave();
      spool := None;
      assert Batch() == {};
    }

    /** What the journals still hold is stale now. */
    ghost method Leave()
      requires Valid()
      modifies this`done, this`doneOnDisk, this`log, this`stale
      ensures BothSound(memory, [], disk, [], {}, stale, [], limit)
      ensures done == [] && doneOnDisk == [] && log == [] && stale == Entries(memory) + Entries(disk)
    {
      EndsSound(memory, done, disk, doneOnDisk, Batch(), stale, log, limit);
      done, doneOnDisk, log, stale := [], [], [], Entries(memory) + Entries(disk);
    }

    /** The loop, seen from its end. */
    method CloseMessages(messages: seq<Message>, world: World) returns (ok: bool, handled: nat, skipped: nat)
      requires Valid() && spool == Some(messages)
      modifies this`memory, this`done, this`disk, this`doneOnDisk, this`log, this`actions, this`failures, this`sends
      ensures Valid() && if ok then failures == old(failures) else Failed(old(failures), world)
      ensures ok ==> |messages| == handled + skipped && Entries(memory) !! Batch()
      ensures ok ==> Dispatched(messages, old(memory.completed), old(memory.replied) + sends, handled)
      ensures ok ==> sends <= old(sends) + OpenIds(messages)
      ensures ok && !old(Lagging()) ==> Entries(disk) !! Batch()
      ensures ok && old(Lagging()) ==> !(Entries(disk) !! Batch()) && disk == old(disk)
      ensures ok && |Ids(messages)| <= limit ==> AllCompleted(messages, memory.completed, old(memory.completed))
    {
      ok, handled, skipped := ProcessMessages(messages, world);
      if ok { AllStand(messages, old(memory), old(disk), old(sends) + OpenIds(messages), handled, skipped); }
    }

    method DrainSpool(messages: seq<Message>, world: World) returns (ok: bool, handled: nat, skipped: nat)
      requires Valid() && spool == Some(messages)
      modifies this`memory, this`done, this`disk, this`doneOnDisk, this`log, this`actions, this`failures, this`sends,
               this`spool, this`stale
      ensures Valid() && if ok then failures == old(failures) else Failed(old(failures), world)
      ensures ok ==> spool.None? && |messages| == handled + skipped
      ensures ok && old(Lagging()) ==> stale <= old(stale) + old(Entries(disk))
      ensures !ok ==> stale == old(stale)
      ensures ok && !old(Lagging()) ==> stale <= old(stale)
      ensures ok && old(Lagging()) ==> !(stale <= old(stale))
      ensures ok ==> Dispatched(messages, old(memory.completed), old(memory.replied) + sends, handled)
      ensures ok ==> sends <= old(sends) + OpenIds(messages)
      ensures ok && |Ids(messages)| <= limit ==> AllCompleted(messages, memory.completed, old(memory.completed))
    {
      ghost var lagging := Lagging();
      ok, handled, skipped := CloseMessages(messages, world);
      if !ok { return; }
      ok := ClearSpool(world, lagging);
    }

    /** `run_once` succeeds exactly when no action fails. Then every sure message of the batch has its reply,
        no refused one has, and those of a batch within the limit are completed. Entries outlive their
        spool exactly when the disk was lagging behind; whatever was left behind earlier, the invariant
        stands. */
    method RunOnce(world: World) returns (ok: bool, received: nat, handled: nat, skipped: nat)
      requires Valid()
      modifies this
      ensures Valid() && if ok then failures == old(failures) else Failed(old(failures), world)
      ensures ok ==> received == handled + skipped && spool.None?
      ensures stale <= old(stale) <==> !(ok && old(Lagging()))
      ensures ok ==>
                var messages := if old(spool).Some? then old(spool).value else world.inbox(old(actions));
                && received == |messages| && sends <= old(sends) + OpenIds(messages)
                && Dispatched(messages, old(memory.completed), old(memory.replied) + sends, handled)
                && (|Ids(messages)| <= limit ==>
                      AllCompleted(messages, memory.completed, old(memory.completed)))
    {
      if spool.Some? {
        received := |spool.value|;
        ok, handled, skipped := DrainSpool(spool.value, world);
      } else {
        ok, received, handled, skipped := DrainNew(world);
      }
    }

    /** `run_once` where no spool was left behind. */
    method DrainNew(world: World) returns (ok: bool, received: nat, handled: nat, skipped: nat)
      requires Valid() && spool.None?
      modifies this
      ensures Valid() && if ok then failures == old(failures) else Failed(old(failures), world)
      ensures stale <= old(stale)
      ensures ok ==>
                var messages := world.inbox(old(actions));
                && received == |messages| == handled + skipped && spool.None?
                && sends <= old(sends) + OpenIds(messages)
                && Dispatched(messages, old(memory.completed), old(memory.replied) + sends, handled)
                && (|Ids(messages)| <= limit ==>
                      AllCompleted(messages, memory.completed, old(memory.completed)))
    {
      received, handled, skipped := 0, 0, 0;
      var messages;
      ok, messages := OpenSpool(world);
      if !ok || messages == [] { return; }
      ok, handled, skipped := DrainSpool(messages, world);
      received := |messages|;
    }
  }

  /** What `Valid` means for a reader, at any moment of any run: for a batch within the limit, no
      claim, execution or reply is attempted after it was saved, and what is saved about a message
      stays known until its spool is cleared; open entries name messages of the current spool, or
      stale ones. */
  lemma SavedPhasesAreNotRepeated(w: RaftWorker, a: nat)
    requires w.Valid() && a < |w.log| && w.log[a].Durable?
    ensures Entries(w.memory) <= w.Batch() + w.stale && Entries(w.disk) <= w.Batch() + w.stale
    ensures |w.Batch()| <= w.limit ==>
      var id, phase := w.log[a].id, w.log[a].phase;
      && (forall b :: a < b < |w.log| ==> w.log[b] != Attempt(phase, id))
      && (id in w.memory.completed || id in PhaseIds(w.memory, phase))
      && (id in w.disk.completed || id in PhaseIds(w.disk, phase))
  {
    assert w.log[a] in w.log;
    EndIsPart(w.memory.completed, w.done);
    EndIsPart(w.disk.completed, w.doneOnDisk);
  }

  /** A crash alone never leaves entries behind: after a restart, or as long as every save has
      succeeded, the disk is not lagging. */
  lemma CrashesAloneNeverLag(w: RaftWorker)
    requires w.Valid() && w.memory == w.disk
    ensures !w.Lagging()
  {
    if x :| x in Entries(w.disk) && x in w.Batch() {
      var m :| m in w.Batch() && m == x;
    }
  }

  /** In a reliable world, a message of a task that is this agent's is claimed, executed and replied to,
      and all that is saved. */
  method HandleUpToReply(w: RaftWorker, m: Message, world: World)
    requires w.Open(m) && m.mine && Reliable(world) && m.id !in w.memory.replied
    modifies w
    ensures w.Open(m) && w.spool == old(w.spool) && w.stale == old(w.stale)
    ensures m.id in w.memory.cached && m.id in w.memory.replied && w.disk == w.memory
  {
    var claimed := w.ClaimIfNeeded(m, world);
    var ok := w.ObtainReply(m, world);
    ok := w.SendReply(m, world);
  }

  /** The save of its completion fails. */
  method FailToSaveCompletion(w: RaftWorker, m: Message, world: World, broken: World)
    requires w.Open(m) && m.id in w.memory.cached && w.disk == w.memory && w.limit > 0
    requires Reliable(world) && forall n :: broken.fails(n)
    modifies w
    ensures w.Valid() && w.spool == old(w.spool) && w.stale == old(w.stale)
    ensures m.id in w.memory.completed && m.id in Entries(w.disk)
  {
    var ok := w.MoveToReview(m, world);
    ghost var all := w.memory.completed + [m.id];
    ok := w.MarkCompleted(m, broken);
    assert w.memory.completed == Latest(all, w.limit);
    assert w.memory.completed[|w.memory.completed| - 1] == m.id;
  }

  method HandleAndFail(w: RaftWorker, m: Message, world: World, broken: World)
    requires w.Open(m) && m.mine && m.id !in w.memory.replied && w.limit > 0
    requires Reliable(world) && forall n :: broken.fails(n)
    modifies w
    ensures w.Valid() && w.spool == old(w.spool) && w.stale == old(w.stale)
    ensures m.id in w.memory.completed && m.id in Entries(w.disk)
  {
    HandleUpToReply(w, m, world);
    FailToSaveCompletion(w, m, world, broken);
  }

  /** A new worker receives one message. */
  method ReceiveOne(m: Message, world: World) returns (w: RaftWorker)
    requires Reliable(world) && forall n :: world.inbox(n) == [m]
    ensures fresh(w) && w.Open(m) && w.spool == Some([m]) && w.stale == {} && w.limit == 100
    ensures m.id !in w.memory.replied
  {
    w := new RaftWorker(100);
    var ok, messages := w.OpenSpool(world);
    assert w.spool == Some([m]) && m in [m];
  }

  /** How the disk comes to lag: a message goes through every phase and then the save of its completion
      fails. `RunOnce` makes these calls in this order. */
  method LaggingArises() returns (w: RaftWorker)
    ensures fresh(w) && w.Valid() && w.Lagging() && w.stale == {}
  {
    var m := Message(1, "k", false, true, Some(Task("t", 1)), true);
    var world := World(n => false, n => [m], n => true, (n, run) => RunNotFound, n => AgentResult(Unsuccessful, ""));
    w := ReceiveOne(m, world);
    HandleAndFail(w, m, world, world.(fails := n => true));
    assert w.spool.value[0] == m;
  }

  /** A batch one longer than the limit, whatever the limit is: after all but the last message the first
      is still known, after the last it is forgotten, and a replay of the spool would handle it again. */
  lemma {:induction false} CompletionIsForgotten(j: Journal, ids: seq<Id>, limit: nat)
    requires j.completed == [] && Distinct(ids) && |ids| == limit + 1 && limit >= 1
    ensures ids[0] in CompleteAll(j, ids[..limit], limit).completed
    ensures ids[0] !in CompleteAll(j, ids, limit).completed
  {
    CompletedAre(j, ids[..limit], limit);
    CompletedAre(j, ids, limit);
    assert j.completed + ids == ids && j.completed + ids[..limit] == ids[..limit];
    assert ids[..limit][0] == ids[0];
  }
}
