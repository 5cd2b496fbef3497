/** Any number of workers and operators using one queue: fencing of deliveries over whole runs, and
    how often others can be served before an item that is waiting its turn. */
module WorkSystem {
  import opened Common
  import opened Work

  /** The queue and every delivery token ever handed out. */
  datatype System = System(queue: Queue, issued: seq<(Id, Id)>)

  datatype Step =
    | Enqueue(command: Command)
    | Claim(ownerId: string, ttl: int, newToken: Id)
    | Renew(id: Id, token: Id, ttl: int)
    | Complete(id: Id, token: Id)
    | Block(id: Id, token: Id, reason: string)
    | Retry(id: Id, token: Id, delay: int, error: Option<string>)
    | Decide(review: Review)

  const EMPTY := System(Queue(map[], map[], map[], map[]), [])

  ghost function Head(items: map<Id, Item>, now: Time): Option<Id> {
    if id :| IsHead(items, now, id) then Some(id) else None
  }

  function After(q: Queue, r: Result<(Queue, Item), WorkError>): Queue {
    if r.Ok? then r.value.0 else q
  }

  /** One call at time `now`. A refused call changes nothing. */
  ghost function Next(y: System, step: Step, now: Time): System {
    var q := y.queue;
    match step
    case Enqueue(c) => y.(queue := After(q, EnqueueIn(q, c, now)))
    case Claim(ownerId, ttl, token) =>
      var head := Head(q.items, now);
      if BadDeliveryArguments(ownerId, ttl) || head.None? then y
      else
        var id := head.value;
        if id !in q.items then y
        else System(q.(items := q.items[id := ClaimedItem(q.items[id], ownerId, ttl, token, now)]),
                    y.issued + [(id, token)])
    case Renew(id, token, ttl) => y.(queue := After(q, RenewIn(q, id, token, ttl, now)))
    case Complete(id, token) => y.(queue := After(q, CompleteIn(q, id, token, now)))
    case Block(id, token, reason) => y.(queue := After(q, BlockIn(q, id, token, reason, now)))
    case Retry(id, token, delay, error) =>
      y.(queue := After(q, RetryIn(q, id, token, delay, error, now)))
    case Decide(review) => y.(queue := After(q, ReviewIn(q, review, now)))
  }

  type Timed = (Step, Time)

  ghost function Run(y: System, steps: seq<Timed>): System {
    if steps == [] then y
    else Next(Run(y, steps[..|steps| - 1]), steps[|steps| - 1].0, steps[|steps| - 1].1)
  }

  /** UUIDs are fresh: a new command has a new id, a new delivery a new token. Nothing is assumed of
      the clock, and a stored command may be sent again under its key. */
  ghost predicate StepOk(y: System, step: Step) {
    && (step.Enqueue? ==> step.command.key in y.queue.keys || step.command.id !in y.queue.items)
    && (step.Claim? ==> forall i :: 0 <= i < |y.issued| ==> y.issued[i].1 != step.newToken)
  }

  ghost predicate RunOk(y: System, steps: seq<Timed>) {
    steps != [] ==>
      && RunOk(y, steps[..|steps| - 1])
      && StepOk(Run(y, steps[..|steps| - 1]), steps[|steps| - 1].0)
  }

  function Count(issued: seq<(Id, Id)>, id: Id): nat {
    if issued == [] then 0
    else Count(issued[..|issued| - 1], id) + if issued[|issued| - 1].0 == id then 1 else 0
  }

  lemma {:induction false} CountOne(issued: seq<(Id, Id)>, x: (Id, Id), id: Id)
    ensures Count(issued + [x], id) == Count(issued, id) + if x.0 == id then 1 else 0
  {
    assert (issued + [x])[..|issued|] == issued;
  }

  lemma {:induction false} CountZero(issued: seq<(Id, Id)>, id: Id)
    requires forall i :: 0 <= i < |issued| ==> issued[i].0 != id
    ensures Count(issued, id) == 0
  {
    if issued != [] { CountZero(issued[..|issued| - 1], id); }
  }

  /** Tokens are unique, belong to items, and are counted by `attempt`. */
  ghost predicate Inv(y: System) {
    && Indexed(y.queue)
    && (forall i :: 0 <= i < |y.issued| ==> y.issued[i].0 in y.queue.items)
    && (forall i, j :: 0 <= i < j < |y.issued| ==> y.issued[i].1 != y.issued[j].1)
    && (forall id :: id in y.queue.items ==>
          && y.queue.items[id].attempt == Count(y.issued, id)
          && (y.queue.items[id].token.Some? ==> (id, y.queue.items[id].token.value) in y.issued))
  }

  /** The item a step other than enqueue and claim is about. */
  function Target(step: Step): Id {
    match step
    case Enqueue(c) => c.id
    case Claim(_, _, _) => 0
    case Renew(id, _, _) => id
    case Complete(id, _) => id
    case Block(id, _, _) => id
    case Retry(id, _, _, _) => id
    case Decide(review) => review.workId
  }

  /** What such a step may do to its item: a delivery is kept or given up, and an item that returns
      to the queue returns behind everything available now. */
  ghost predicate Updates(before: Item, after: Item, now: Time) {
    && after.command == before.command && after.attempt == before.attempt && ValidDelivery(after)
    && (after.status.Claimed? ==>
          before.status.Claimed? && after.token == before.token && after.availableAt == before.availableAt)
    && (after.status.Pending? ==> now <= after.availableAt)
  }

  /** Nothing but one item that was claimed or blocked is touched; unless it is renewed, its delivery
      is given up. */
  ghost predicate Touches(q: Queue, q': Queue, id: Id, renewal: bool, now: Time) {
    && q'.keys == q.keys
    && (forall key :: key in q'.reviewKeys ==> q'.reviewKeys[key].workId in q.items)
    && (q' != q ==>
          && id in q.items && id in q'.items && q'.items == q.items[id := q'.items[id]]
          && Updates(q.items[id], q'.items[id], now)
          && q.items[id].status in {Claimed, Blocked}
          && (!renewal ==> !q'.items[id].status.Claimed?))
  }

  lemma RenewTouches(q: Queue, id: Id, token: Id, ttl: int, now: Time)
    requires Indexed(q)
    ensures Touches(q, After(q, RenewIn(q, id, token, ttl, now)), id, true, now)
  {}

  lemma CompleteTouches(q: Queue, id: Id, token: Id, now: Time)
    requires Indexed(q)
    ensures Touches(q, After(q, CompleteIn(q, id, token, now)), id, false, now)
  {}

  lemma BlockTouches(q: Queue, id: Id, token: Id, reason: string, now: Time)
    requires Indexed(q)
    ensures Touches(q, After(q, BlockIn(q, id, token, reason, now)), id, false, now)
  {}

  lemma RetryTouches(q: Queue, id: Id, token: Id, delay: int, error: Option<string>, now: Time)
    requires Indexed(q)
    ensures Touches(q, After(q, RetryIn(q, id, token, delay, error, now)), id, false, now)
  {}

  lemma ReviewTouches(q: Queue, review: Review, now: Time)
    requires Indexed(q)
    ensures Touches(q, After(q, ReviewIn(q, review, now)), review.workId, false, now)
  {}

  lemma StepUpdates(y: System, step: Step, now: Time)
    requires Indexed(y.queue) && !step.Enqueue? && !step.Claim?
    ensures Next(y, step, now) == y.(queue := Next(y, step, now).queue)
    ensures Touches(y.queue, Next(y, step, now).queue, Target(step), step.Renew?, now)
  {
    match step
    case Renew(id, token, ttl) => RenewTouches(y.queue, id, token, ttl, now);
    case Complete(id, token) => CompleteTouches(y.queue, id, token, now);
    case Block(id, token, reason) => BlockTouches(y.queue, id, token, reason, now);
    case Retry(id, token, delay, error) => RetryTouches(y.queue, id, token, delay, error, now);
    case Decide(review) => ReviewTouches(y.queue, review, now);
  }

  lemma EnqueueKeepsInv(y: System, c: Command, now: Time)
    requires Inv(y) && StepOk(y, Enqueue(c))
    ensures Inv(Next(y, Enqueue(c), now))
  {
    if c.key !in y.queue.keys { CountZero(y.issued, c.id); }
  }

  /** A claim hands out the head, with one more attempt and a new token. */
  lemma ClaimHandsOut(y: System, step: Step, now: Time) returns (id: Id)
    requires Indexed(y.queue) && step.Claim? && Next(y, step, now).issued != y.issued
    ensures IsHead(y.queue.items, now, id) && Head(y.queue.items, now) == Some(id)
    ensures Next(y, step, now) == System(
      y.queue.(items := y.queue.items[id :=
        ClaimedItem(y.queue.items[id], step.ownerId, step.ttl, step.newToken, now)]),
      y.issued + [(id, step.newToken)])
  {
    id := Head(y.queue.items, now).value;
  }

  /** An item handed out, seen apart from the step that did it. */
  ghost predicate Granted(y: System, y': System, id: Id, token: Id) {
    && id in y.queue.items && id in y'.queue.items
    && y'.issued == y.issued + [(id, token)]
    && y'.queue.keys == y.queue.keys && y'.queue.reviewKeys == y.queue.reviewKeys
    && y'.queue.items == y.queue.items[id := y'.queue.items[id]]
    && y'.queue.items[id].command == y.queue.items[id].command
    && y'.queue.items[id].attempt == y.queue.items[id].attempt + 1
    && y'.queue.items[id].token == Some(token)
    && ValidDelivery(y'.queue.items[id])
  }

  /** A granted token is recorded, and so are all others. */
  lemma GrantRecordsTokens(y: System, y': System, id: Id, token: Id, k: Id)
    requires Inv(y) && Granted(y, y', id, token) && k in y'.queue.items
    ensures y'.queue.items[k].attempt == Count(y'.issued, k)
    ensures y'.queue.items[k].token.Some? ==> (k, y'.queue.items[k].token.value) in y'.issued
  {
    assert y'.issued[|y.issued|] == (id, token);
    CountOne(y.issued, (id, token), k);
    if k != id && y'.queue.items[k].token.Some? { assert (k, y.queue.items[k].token.value) in y.issued; }
  }

  lemma GrantKeepsInv(y: System, y': System, id: Id, token: Id)
    requires Inv(y) && Granted(y, y', id, token)
    requires forall i :: 0 <= i < |y.issued| ==> y.issued[i].1 != token
    ensures Inv(y')
  {
    assert Indexed(y'.queue);
    forall k | k in y'.queue.items
      ensures y'.queue.items[k].attempt == Count(y'.issued, k)
      ensures y'.queue.items[k].token.Some? ==> (k, y'.queue.items[k].token.value) in y'.issued
    {
      GrantRecordsTokens(y, y', id, token, k);
    }
  }

  /** An item updated in place, seen apart from the step that did it. */
  ghost predicate Updated(y: System, y': System, id: Id, now: Time) {
    && id in y.queue.items && id in y'.queue.items
    && y'.issued == y.issued && y'.queue.keys == y.queue.keys
    && (forall key :: key in y'.queue.reviewKeys ==> y'.queue.reviewKeys[key].workId in y.queue.items)
    && y'.queue.items == y.queue.items[id := y'.queue.items[id]]
    && Updates(y.queue.items[id], y'.queue.items[id], now)
  }

  lemma UpdateKeepsInv(y: System, y': System, id: Id, now: Time)
    requires Inv(y) && Updated(y, y', id, now)
    ensures Inv(y')
  {}

  lemma StepKeepsInv(y: System, step: Step, now: Time)
    requires Inv(y) && StepOk(y, step)
    ensures Inv(Next(y, step, now))
  {
    var y' := Next(y, step, now);
    if step.Enqueue? {
      EnqueueKeepsInv(y, step.command, now);
    } else if step.Claim? {
      if y'.issued != y.issued {
        var id := ClaimHandsOut(y, step, now);
        GrantKeepsInv(y, y', id, step.newToken);
      }
    } else {
      StepUpdates(y, step, now);
      if y'.queue != y.queue { UpdateKeepsInv(y, y', Target(step), now); }
    }
  }

  lemma {:induction false} RunsAreSafe(y: System, steps: seq<Timed>)
    requires Inv(y) && RunOk(y, steps)
    ensures Inv(Run(y, steps))
  {
    if steps != [] {
      RunsAreSafe(y, steps[..|steps| - 1]);
      StepKeepsInv(Run(y, steps[..|steps| - 1]), steps[|steps| - 1].0, steps[|steps| - 1].1);
    }
  }

  // ---------------------------------------------------------------- delivery fencing

  /** The delivery that the queue currently accounts for. */
  ghost predicate Live(q: Queue, id: Id, token: Id) {
    id in q.items && q.items[id].status.Claimed? && q.items[id].token == Some(token)
  }

  /** A settle or renew changes the queue only through a live, unexpired delivery; any other token
      fails or gets the item back unchanged. */
  lemma OnlyLiveDeliveriesWrite(q: Queue, id: Id, token: Id, now: Time,
                                ttl: int, reason: string, delay: int, error: Option<string>)
    requires !(Live(q, id, token) && HoldsDelivery(q.items[id], token, now))
    ensures After(q, CompleteIn(q, id, token, now)) == q
    ensures After(q, BlockIn(q, id, token, reason, now)) == q
    ensures After(q, RetryIn(q, id, token, delay, error, now)) == q
    ensures After(q, RenewIn(q, id, token, ttl, now)) == q
  {}

  ghost predicate Ended(q: Queue, id: Id) {
    id in q.items && q.items[id].status in {Completed, Discarded}
  }

  lemma StepFences(y: System, step: Step, now: Time, id: Id, token: Id)
    requires Inv(y) && StepOk(y, step) && (id, token) in y.issued && !Live(y.queue, id, token)
    ensures !Live(Next(y, step, now).queue, id, token)
  {
    if step.Claim? {
      var k :| 0 <= k < |y.issued| && y.issued[k] == (id, token);
      assert y.issued[k].1 != step.newToken;
    } else if !step.Enqueue? {
      StepUpdates(y, step, now);
    }
  }

  lemma StepKeepsEnded(y: System, step: Step, now: Time, id: Id)
    requires Inv(y) && StepOk(y, step) && Ended(y.queue, id)
    ensures Ended(Next(y, step, now).queue, id) && Next(y, step, now).queue.items[id] == y.queue.items[id]
  {
    if !step.Enqueue? && !step.Claim? {
      StepUpdates(y, step, now);
    }
  }

  /** Once a delivery has been superseded or settled, its token never works again. */
  lemma {:induction false} DeadTokensStayDead(y: System, steps: seq<Timed>, id: Id, token: Id)
    requires Inv(y) && RunOk(y, steps) && (id, token) in y.issued && !Live(y.queue, id, token)
    ensures (id, token) in Run(y, steps).issued && !Live(Run(y, steps).queue, id, token)
  {
    if steps != [] {
      var front := steps[..|steps| - 1];
      DeadTokensStayDead(y, front, id, token);
      RunsAreSafe(y, front);
      StepFences(Run(y, front), steps[|steps| - 1].0, steps[|steps| - 1].1, id, token);
    }
  }

  /** Completed and discarded items never change again. */
  lemma {:induction false} EndedItemsNeverChange(y: System, steps: seq<Timed>, id: Id)
    requires Inv(y) && RunOk(y, steps) && Ended(y.queue, id)
    ensures id in Run(y, steps).queue.items && Run(y, steps).queue.items[id] == y.queue.items[id]
  {
    if steps != [] {
      var front := steps[..|steps| - 1];
      EndedItemsNeverChange(y, front, id);
      RunsAreSafe(y, front);
      StepKeepsEnded(Run(y, front), steps[|steps| - 1].0, steps[|steps| - 1].1, id);
    }
  }

  /** In every state reached from the empty queue, `validate_delivery` holds of every item although
      updates skip it, and `attempt` is the number of deliveries ever handed out for it. */
  lemma {:induction false} AttemptsCountDeliveries(steps: seq<Timed>, id: Id)
    requires RunOk(EMPTY, steps) && id in Run(EMPTY, steps).queue.items
    ensures ValidDelivery(Run(EMPTY, steps).queue.items[id])
    ensures Run(EMPTY, steps).queue.items[id].attempt == Count(Run(EMPTY, steps).issued, id)
  {
    RunsAreSafe(EMPTY, steps);
  }

  /** `enqueue` does not check the command id. It keeps every queued item if and only if its
      idempotency key is known or its id is new. */
  lemma EnqueueKeepsItemsIffFresh(q: Queue, c: Command, now: Time)
    requires Indexed(q) && EnqueueIn(q, c, now).Ok?
    ensures (forall id :: id in q.items ==>
               id in EnqueueIn(q, c, now).value.0.items && EnqueueIn(q, c, now).value.0.items[id] == q.items[id])
       <==> (c.key in q.keys || c.id !in q.items)
  {
    if c.key !in q.keys && c.id in q.items {
      assert q.items[c.id].command != c;
    }
  }

  /** An enqueue under a new key with a used id: the item that was there is gone, and the first key now
      leads to the second command. */
  lemma EnqueueOverwrites() returns (q: Queue, c: Command, lost: Item)
    ensures Indexed(q) && lost.command.id == c.id && q.items == map[c.id := lost]
    ensures var r := EnqueueIn(q, c, 0);
            && r.Ok? && lost !in r.value.0.items.Values
            && lost.command.key in r.value.0.keys && r.value.0.keys[lost.command.key] == c.id
            && r.value.0.items[c.id].command.key != lost.command.key
  {
    lost := Item(Command(7, 1, Execute, "first", "", 0), Pending, 0, 0, None, None, None, None, None, None, None, 0);
    q := Queue(map[7 := lost], map["first" := 7], map[], map[]);
    c := Command(7, 2, Execute, "second", "", 0);
    assert "first" != "second" by { assert "first"[0] != "second"[0]; }
    var r := EnqueueIn(q, c, 0);
    assert r.value.0.items == map[7 := r.value.1] && r.value.1.command == c;
  }

  // ---------------------------------------------------------------- bounded overtaking

  /** Unfinished items that would be claimed before `x`. */
  ghost function Ahead(q: Queue, x: Id): set<Id>
    requires x in q.items
  {
    set id | id in q.items && q.items[id].status in {Pending, Claimed} && Before(q.items[id], q.items[x])
  }

  /** Those of them that have not been handed out, or are back in the queue. */
  ghost function AheadPending(q: Queue, x: Id): set<Id>
    requires x in q.items
  {
    set id | id in Ahead(q, x) && q.items[id].status.Pending?
  }

  /** The delivery that this step settles, if it settles one. */
  ghost function Settles(y: System, step: Step, now: Time): Option<Id> {
    if (step.Complete? || step.Block? || step.Retry?) && Next(y, step, now).queue != y.queue
    then Some(step.id) else None
  }

  /** The item that this step hands out, if it hands out one. */
  ghost function HandsOut(y: System, step: Step, now: Time): Option<Id> {
    if step.Claim? && Next(y, step, now).issued != y.issued then Head(y.queue.items, now) else None
  }

  /** `x` has been eligible for some time, and this step leaves it waiting. */
  ghost predicate KeepsWaiting(y: System, step: Step, now: Time, x: Id) {
    && x in y.queue.items && y.queue.items[x].status.Pending?
    && y.queue.items[x].availableAt < now
    && x in Next(y, step, now).queue.items
    && Next(y, step, now).queue.items[x] == y.queue.items[x]
  }

  /** Two items with different ids are ordered. */
  lemma BeforeIsTotal(a: Item, b: Item)
    requires a.command.id != b.command.id
    ensures Before(a, b) || Before(b, a)
  {}

  /** There is one first candidate at most: the item that the queue's `Claim` hands out is the one
      that a step of the system hands out. */
  lemma HeadIsUnique(q: Queue, now: Time, id: Id)
    requires Indexed(q) && IsHead(q.items, now, id)
    ensures Head(q.items, now) == Some(id)
  {
    var head := Head(q.items, now).value;
    if head != id { BeforeIsTotal(q.items[head], q.items[id]); }
  }

  /** The first candidate goes to whoever claims next, who holds it for `ttl`; without a candidate nobody
      gets anything. */
  lemma ClaimDelivers(y: System, ownerId: string, ttl: int, token: Id, now: Time, t: Time)
    requires Inv(y) && !IsBlank(ownerId) && |ownerId| <= 256 && ttl > 0
    ensures var y' := Next(y, Claim(ownerId, ttl, token), now);
            && (y' == y <==> forall id :: id in y.queue.items ==> !IsCandidate(y.queue.items[id], now))
            && forall id :: id in y.queue.items && IsHead(y.queue.items, now, id) ==>
                 && y'.issued == y.issued + [(id, token)]
                 && id in y'.queue.items && y'.queue.items[id].attempt == y.queue.items[id].attempt + 1
                 && (InDelivery(y'.queue.items[id], token, t) <==> t < now + ttl)
  {
    var items := y.queue.items;
    forall id: Id | id in items && IsHead(items, now, id)
      ensures Head(items, now) == Some(id)
    {
      HeadIsUnique(y.queue, now, id);
    }
    if id :| id in items && IsCandidate(items[id], now) {
      SomeoneIsFirst(items, now, {id}, id);
    }
  }

  /** Where there is a candidate there is a first one. */
  lemma {:induction false} SomeoneIsFirst(items: map<Id, Item>, now: Time, seen: set<Id>, best: Id)
    requires best in items && IsCandidate(items[best], now) && seen <= items.Keys
    requires forall x :: x in seen && IsCandidate(items[x], now) ==> !Before(items[x], items[best])
    ensures exists id :: IsHead(items, now, id)
    decreases |items.Keys - seen|
  {
    if x :| x in items && x !in seen {
      assert items.Keys - (seen + {x}) < items.Keys - seen;
      SubsetSize(items.Keys - (seen + {x}), items.Keys - seen - {x});
      var better := if IsCandidate(items[x], now) && Before(items[x], items[best]) then x else best;
      SomeoneIsFirst(items, now, seen + {x}, better);
    } else {
      assert IsHead(items, now, best);
    }
  }

  /** Updating or enqueueing an item cannot put it ahead of one that is already eligible. */
  lemma UpdateStaysBehind(y: System, y': System, id: Id, now: Time, x: Id)
    requires Updated(y, y', id, now) && x in y.queue.items && y.queue.items[x].availableAt < now
    requires y'.queue.items[x] == y.queue.items[x]
    requires !y.queue.items[id].status.Pending?
    ensures Ahead(y'.queue, x) <= Ahead(y.queue, x)
    ensures AheadPending(y'.queue, x) <= AheadPending(y.queue, x)
    ensures !y'.queue.items[id].status.Claimed? ==> id !in Ahead(y'.queue, x)
  {}

  lemma GrantComesFromAhead(y: System, y': System, id: Id, token: Id, now: Time, x: Id)
    requires Inv(y) && Granted(y, y', id, token) && x in y.queue.items && id != x
    requires IsHead(y.queue.items, now, id) && IsCandidate(y.queue.items[x], now)
    requires y'.queue.items[id].status.Claimed? && y'.queue.items[id].availableAt == y.queue.items[id].availableAt
    ensures Ahead(y'.queue, x) <= Ahead(y.queue, x) && id in Ahead(y.queue, x)
    ensures AheadPending(y'.queue, x) <= AheadPending(y.queue, x) && id !in AheadPending(y'.queue, x)
  {
    BeforeIsTotal(y.queue.items[id], y.queue.items[x]);
  }

  /** One step while `x` waits: nobody new gets ahead of it, only items ahead of it are handed out,
      and a settled delivery takes its item out of the way. */
  lemma StepOvertakes(y: System, step: Step, now: Time, x: Id)
    requires Inv(y) && StepOk(y, step) && KeepsWaiting(y, step, now, x)
    ensures Ahead(Next(y, step, now).queue, x) <= Ahead(y.queue, x)
    ensures AheadPending(Next(y, step, now).queue, x) <= AheadPending(y.queue, x)
    ensures Settles(y, step, now).Some? ==> Settles(y, step, now).value !in Ahead(Next(y, step, now).queue, x)
    ensures HandsOut(y, step, now).Some? ==>
              && HandsOut(y, step, now).value in Ahead(y.queue, x)
              && HandsOut(y, step, now).value !in AheadPending(Next(y, step, now).queue, x)
  {
    var y' := Next(y, step, now);
    if step.Claim? {
      if y'.issued != y.issued {
        var id := ClaimHandsOut(y, step, now);
        GrantComesFromAhead(y, y', id, step.newToken, now, x);
      }
    } else if step.Enqueue? {
      EnqueueStaysBehind(y, step.command, now, x);
    } else {
      StepUpdates(y, step, now);
      if y'.queue != y.queue { UpdateStaysBehind(y, y', Target(step), now, x); }
    }
  }

  lemma EnqueueStaysBehind(y: System, c: Command, now: Time, x: Id)
    requires c.key in y.queue.keys || c.id !in y.queue.items
    requires x in y.queue.items && y.queue.items[x].availableAt < now
    ensures var q' := Next(y, Enqueue(c), now).queue;
            && x in q'.items && Ahead(q', x) <= Ahead(y.queue, x)
            && AheadPending(q', x) <= AheadPending(y.queue, x)
  {}

  /** `x` keeps waiting through all the steps. */
  ghost predicate WaitsThrough(y: System, steps: seq<Timed>, x: Id) {
    steps != [] ==>
      && WaitsThrough(y, steps[..|steps| - 1], x)
      && KeepsWaiting(Run(y, steps[..|steps| - 1]), steps[|steps| - 1].0, steps[|steps| - 1].1, x)
  }

  /** Settled deliveries of items that were ahead of `x` at that moment. */
  ghost function SettledAhead(y: System, steps: seq<Timed>, x: Id): nat {
    if steps == [] then 0 else
      var z := Run(y, steps[..|steps| - 1]);
      var id := Settles(z, steps[|steps| - 1].0, steps[|steps| - 1].1);
      SettledAhead(y, steps[..|steps| - 1], x)
      + (if id.Some? && x in z.queue.items && id.value in Ahead(z.queue, x) then 1 else 0)
  }

  /** First deliveries: items handed out that nobody held. The others are expired ones. */
  ghost function FirstDeliveries(y: System, steps: seq<Timed>, x: Id): nat {
    if steps == [] then 0 else
      var z := Run(y, steps[..|steps| - 1]);
      var id := HandsOut(z, steps[|steps| - 1].0, steps[|steps| - 1].1);
      FirstDeliveries(y, steps[..|steps| - 1], x)
      + (if id.Some? && x in z.queue.items && id.value in AheadPending(z.queue, x) then 1 else 0)
  }

  lemma ShrinkBy(a: set<Id>, b: set<Id>, id: Id)
    requires b <= a && id in a && id !in b
    ensures |b| + 1 <= |a|
  {
    SubsetSize(b, a - {id});
  }

  /** `x` is untouched while it waits, and nobody new gets ahead of it. */
  lemma {:induction false} NobodyNewGetsAhead(y: System, steps: seq<Timed>, x: Id)
    requires Inv(y) && RunOk(y, steps) && WaitsThrough(y, steps, x) && x in y.queue.items
    ensures Inv(Run(y, steps))
    ensures x in Run(y, steps).queue.items && Run(y, steps).queue.items[x] == y.queue.items[x]
    ensures Ahead(Run(y, steps).queue, x) <= Ahead(y.queue, x)
  {
    RunsAreSafe(y, steps);
    if steps != [] {
      NobodyNewGetsAhead(y, steps[..|steps| - 1], x);
      StepOvertakes(Run(y, steps[..|steps| - 1]), steps[|steps| - 1].0, steps[|steps| - 1].1, x);
    }
  }

  lemma {:induction false} SettledOnce(y: System, steps: seq<Timed>, x: Id)
    requires Inv(y) && RunOk(y, steps) && WaitsThrough(y, steps, x) && x in y.queue.items
    ensures x in Run(y, steps).queue.items
    ensures SettledAhead(y, steps, x) + |Ahead(Run(y, steps).queue, x)| <= |Ahead(y.queue, x)|
  {
    if steps != [] {
      var front := steps[..|steps| - 1];
      var step, now := steps[|steps| - 1].0, steps[|steps| - 1].1;
      SettledOnce(y, front, x);
      RunsAreSafe(y, front);
      var z := Run(y, front);
      StepOvertakes(z, step, now, x);
      var after := Ahead(Next(z, step, now).queue, x);
      SubsetSize(after, Ahead(z.queue, x));
      if Settles(z, step, now).Some? && Settles(z, step, now).value in Ahead(z.queue, x) {
        ShrinkBy(Ahead(z.queue, x), after, Settles(z, step, now).value);
      }
    }
  }

  lemma {:induction false} HandedOutOnce(y: System, steps: seq<Timed>, x: Id)
    requires Inv(y) && RunOk(y, steps) && WaitsThrough(y, steps, x) && x in y.queue.items
    ensures x in Run(y, steps).queue.items
    ensures FirstDeliveries(y, steps, x) + |AheadPending(Run(y, steps).queue, x)| <= |AheadPending(y.queue, x)|
  {
    if steps != [] {
      var front := steps[..|steps| - 1];
      var step, now := steps[|steps| - 1].0, steps[|steps| - 1].1;
      HandedOutOnce(y, front, x);
      RunsAreSafe(y, front);
      var z := Run(y, front);
      StepOvertakes(z, step, now, x);
      var after := AheadPending(Next(z, step, now).queue, x);
      SubsetSize(after, AheadPending(z.queue, x));
      if HandsOut(z, step, now).Some? && HandsOut(z, step, now).value in AheadPending(z.queue, x) {
        ShrinkBy(AheadPending(z.queue, x), after, HandsOut(z, step, now).value);
      }
    }
  }

  lemma {:induction false} PrefixOfRun(y: System, steps: seq<Timed>, x: Id, k: nat)
    requires RunOk(y, steps) && WaitsThrough(y, steps, x) && k <= |steps|
    ensures RunOk(y, steps[..k]) && WaitsThrough(y, steps[..k], x)
  {
    if k == |steps| {
      assert steps[..k] == steps;
    } else {
      PrefixOfRun(y, steps[..|steps| - 1], x, k);
      assert steps[..|steps| - 1][..k] == steps[..k];
    }
  }

  /** What is handed out in the k-th step was ahead from the start. */
  lemma {:induction false} HandedOutWasAhead(y: System, steps: seq<Timed>, x: Id, k: nat)
    requires Inv(y) && RunOk(y, steps) && WaitsThrough(y, steps, x) && x in y.queue.items && k < |steps|
    ensures HandsOut(Run(y, steps[..k]), steps[k].0, steps[k].1).Some? ==>
              HandsOut(Run(y, steps[..k]), steps[k].0, steps[k].1).value in Ahead(y.queue, x)
  {
    PrefixOfRun(y, steps, x, k);
    NobodyNewGetsAhead(y, steps[..k], x);
    PrefixOfRun(y, steps, x, k + 1);
    assert steps[..k + 1][..k] == steps[..k] && steps[..k + 1][k] == steps[k];
    assert Inv(Run(y, steps[..k])) by { RunsAreSafe(y, steps[..k]); }
    StepOvertakes(Run(y, steps[..k]), steps[k].0, steps[k].1, x);
  }

  /** While an eligible item waits: the set of items ahead of it only shrinks, each of them has at
      most one settled delivery and at most one first delivery, and everything handed out was in
      the set from the start. Only expired deliveries can repeat. */
  lemma {:induction false} OvertakingIsBounded(y: System, steps: seq<Timed>, x: Id, k: nat)
    requires Inv(y) && RunOk(y, steps) && WaitsThrough(y, steps, x) && x in y.queue.items && k < |steps|
    ensures x in Run(y, steps).queue.items && Run(y, steps).queue.items[x] == y.queue.items[x]
    ensures Ahead(Run(y, steps).queue, x) <= Ahead(y.queue, x)
    ensures SettledAhead(y, steps, x) + |Ahead(Run(y, steps).queue, x)| <= |Ahead(y.queue, x)|
    ensures FirstDeliveries(y, steps, x) + |AheadPending(Run(y, steps).queue, x)| <= |AheadPending(y.queue, x)|
    ensures HandsOut(Run(y, steps[..k]), steps[k].0, steps[k].1).Some? ==>
              HandsOut(Run(y, steps[..k]), steps[k].0, steps[k].1).value in Ahead(y.queue, x)
  {
    NobodyNewGetsAhead(y, steps, x);
    SettledOnce(y, steps, x);
    HandedOutOnce(y, steps, x);
    HandedOutWasAhead(y, steps, x, k);
  }
}
