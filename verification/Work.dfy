/** The durable work queue: idempotent enqueue, fenced deliveries, expiry and operator review. */
module Work {
  import opened Common

  datatype WorkKind = Execute | Resume | CancelRun | Recover

  datatype WorkStatus = Pending | Claimed | Completed | Blocked | Discarded

  datatype Command = Command(
    id: Id, runId: Id, kind: WorkKind, key: string, data: string, createdAt: Time)
  {
    predicate HasSameIntent(other: Command) {
      runId == other.runId && kind == other.kind && data == other.data
    }
  }

  datatype Item = Item(
    command: Command,
    status: WorkStatus,
    attempt: nat,
    availableAt: Time,
    ownerId: Option<string>,
    token: Option<Id>,
    lastToken: Option<Id>,
    claimedAt: Option<Time>,
    expiresAt: Option<Time>,
    lastError: Option<string>,
    blockedReason: Option<string>,
    updatedAt: Time)

  /** `FlowWorkItem.validate_delivery` */
  predicate ValidDelivery(i: Item) {
    && (if i.status.Claimed?
        then i.ownerId.Some? && i.token.Some? && i.claimedAt.Some? && i.expiresAt.Some? && i.attempt >= 1
        else i.ownerId.None? && i.token.None? && i.claimedAt.None? && i.expiresAt.None?)
    && (i.status.Blocked? <==> i.blockedReason.Some?)
  }

  datatype Decision = ApproveRetry | Reject

  datatype Review = Review(
    id: Id, workId: Id, decision: Decision, reviewerId: string, reasonCode: string, key: string,
    delay: nat, createdAt: Time)
  {
    predicate HasSameIntent(other: Review) {
      workId == other.workId && decision == other.decision && reviewerId == other.reviewerId
      && reasonCode == other.reasonCode && delay == other.delay
    }
  }

  datatype Queue = Queue(
    items: map<Id, Item>,
    keys: map<string, Id>,
    reviews: map<Id, seq<Review>>,
    reviewKeys: map<string, Review>)

  datatype WorkError =
    | InvalidArgument | NotFound | IdempotencyConflict | DeliveryLost | ReviewConflict | NotBlocked

  // ---------------------------------------------------------------- operations on the value

  function EnqueueIn(q: Queue, c: Command, now: Time): Result<(Queue, Item), WorkError> {
    if c.key in q.keys then
      if q.keys[c.key] !in q.items then Err(NotFound)
      else if !q.items[q.keys[c.key]].command.HasSameIntent(c) then Err(IdempotencyConflict)
      else Ok((q, q.items[q.keys[c.key]]))
    else
      var item := Item(c, Pending, 0, now, None, None, None, None, None, None, None, now);
      Ok((q.(items := q.items[c.id := item], keys := q.keys[c.key := c.id]), item))
  }

  predicate IsCandidate(i: Item, now: Time) {
    || (i.status.Pending? && i.availableAt <= now)
    || (i.status.Claimed? && i.expiresAt.Some? && i.expiresAt.value <= now)
  }

  /** The key `(available_at, created_at, str(id))`. */
  predicate Before(a: Item, b: Item) {
    if a.availableAt != b.availableAt then a.availableAt < b.availableAt
    else if a.command.createdAt != b.command.createdAt then a.command.createdAt < b.command.createdAt
    else a.command.id < b.command.id
  }

  ghost predicate IsHead(items: map<Id, Item>, now: Time, id: Id) {
    && id in items && IsCandidate(items[id], now)
    && (forall other :: other in items && IsCandidate(items[other], now) ==> !Before(items[other], items[id]))
  }

  predicate BadDeliveryArguments(ownerId: string, ttl: int) {
    IsBlank(ownerId) || |ownerId| > 256 || ttl <= 0
  }

  predicate BadText(text: string) { IsBlank(text) || |text| > 256 }

  function ClaimedItem(i: Item, ownerId: string, ttl: int, token: Id, now: Time): Item {
    i.(status := Claimed, attempt := i.attempt + 1, ownerId := Some(ownerId), token := Some(token),
       claimedAt := Some(now), expiresAt := Some(now + ttl), updatedAt := now)
  }

  /** An unexpired delivery with this token. */
  predicate HoldsDelivery(i: Item, token: Id, now: Time) {
    i.status.Claimed? && i.token == Some(token) && i.expiresAt.Some? && now < i.expiresAt.value
  }

  function SettledItem(i: Item, status: WorkStatus, now: Time): Item {
    i.(status := status, ownerId := None, lastToken := i.token, token := None, claimedAt := None,
       expiresAt := None, updatedAt := now)
  }

  /** `_require_delivery` followed by the update: settling the same delivery twice is a no-op. */
  function SettleIn(q: Queue, id: Id, token: Id, settled: Item -> Item, status: WorkStatus, now: Time)
    : Result<(Queue, Item), WorkError>
  {
    if id !in q.items then Err(NotFound)
    else if q.items[id].status == status && q.items[id].lastToken == Some(token) then Ok((q, q.items[id]))
    else if !HoldsDelivery(q.items[id], token, now) then Err(DeliveryLost)
    else Ok((q.(items := q.items[id := settled(q.items[id])]), settled(q.items[id])))
  }

  function CompleteIn(q: Queue, id: Id, token: Id, now: Time): Result<(Queue, Item), WorkError> {
    SettleIn(q, id, token, i => SettledItem(i, Completed, now), Completed, now)
  }

  function BlockIn(q: Queue, id: Id, token: Id, reason: string, now: Time): Result<(Queue, Item), WorkError> {
    if BadText(reason) then Err(InvalidArgument)
    else SettleIn(q, id, token, i => SettledItem(i, Blocked, now).(blockedReason := Some(reason)), Blocked, now)
  }

  function RetryIn(q: Queue, id: Id, token: Id, delay: int, error: Option<string>, now: Time)
    : Result<(Queue, Item), WorkError>
  {
    if delay < 0 || (error.Some? && BadText(error.value)) then Err(InvalidArgument)
    else SettleIn(q, id, token,
                  i => SettledItem(i, Pending, now).(availableAt := now + delay, lastError := error), Pending, now)
  }

  function RenewIn(q: Queue, id: Id, token: Id, ttl: int, now: Time): Result<(Queue, Item), WorkError> {
    if ttl <= 0 then Err(InvalidArgument)
    else if id !in q.items then Err(NotFound)
    else if !HoldsDelivery(q.items[id], token, now) then Err(DeliveryLost)
    else
      var renewed := q.items[id].(expiresAt := Some(now + ttl), updatedAt := now);
      Ok((q.(items := q.items[id := renewed]), renewed))
  }

  /** `_apply_review` */
  function Reviewed(i: Item, r: Review, now: Time): Item {
    match r.decision
    case ApproveRetry =>
      i.(status := Pending, availableAt := now + r.delay, blockedReason := None, lastError := None,
         updatedAt := now)
    case Reject => i.(status := Discarded, blockedReason := None, updatedAt := now)
  }

  function ReviewIn(q: Queue, r: Review, now: Time): Result<(Queue, Item), WorkError> {
    if r.key in q.reviewKeys then
      var existing := q.reviewKeys[r.key];
      if !existing.HasSameIntent(r) then Err(ReviewConflict)
      else if existing.workId !in q.items then Err(NotFound)
      else Ok((q, q.items[existing.workId]))
    else if r.workId !in q.items then Err(NotFound)
    else if !q.items[r.workId].status.Blocked? then Err(NotBlocked)
    else
      var stored := r.(createdAt := now);
      var item := Reviewed(q.items[r.workId], r, now);
      var earlier := if r.workId in q.reviews then q.reviews[r.workId] else [];
      Ok((Queue(q.items[r.workId := item], q.keys, q.reviews[r.workId := earlier + [stored]],
                q.reviewKeys[r.key := stored]), item))
  }

  // ---------------------------------------------------------------- the mutable source

  /** Every lookup through an index finds its item. */
  ghost predicate Indexed(q: Queue) {
    && (forall key :: key in q.keys ==> q.keys[key] in q.items)
    && (forall key :: key in q.reviewKeys ==> q.reviewKeys[key].workId in q.items)
    && (forall id :: id in q.items ==>
          && q.items[id].command.id == id && ValidDelivery(q.items[id])
          && q.items[id].command.key in q.keys && q.keys[q.items[id].command.key] == id)
  }

  ghost predicate Performs(before: Queue, after: Queue, spec: Result<(Queue, Item), WorkError>,
                           answer: Result<Item, WorkError>)
  {
    match spec
    case Ok((q, item)) => answer == Ok(item) && after == q
    case Err(e) => answer == Err(e) && after == before
  }

  // ---------------------------------------------------------------- what each call leads to

  /** Delivered to the holder of this token, and not out of time. */
  ghost predicate InDelivery(i: Item, token: Id, now: Time) {
    i.status.Claimed? && i.token == Some(token) && i.expiresAt.Some? && now < i.expiresAt.value
  }

  /** The queue with one item replaced. */
  ghost predicate OnlyItem(q: Queue, q': Queue, id: Id, item: Item) {
    q' == q.(items := q.items[id := item])
  }

  /** A command under a new key is queued and can be claimed from now on; one under a known key is accepted
      exactly when it asks for the same, and adds nothing. */
  lemma EnqueueLeadsTo(q: Queue, c: Command, now: Time, t: Time)
    requires Indexed(q)
    ensures var r := EnqueueIn(q, c, now);
            if c.key !in q.keys then
              && r.Ok? && r.value.0.items == q.items[c.id := r.value.1] && r.value.0.keys == q.keys[c.key := c.id]
              && r.value.1.command == c && r.value.1.attempt == 0 && (IsCandidate(r.value.1, t) <==> t >= now)
            else
              var known := q.items[q.keys[c.key]];
              if known.command.runId == c.runId && known.command.kind == c.kind && known.command.data == c.data
              then r == Ok((q, known)) else r == Err(IdempotencyConflict)
  {}

  /** A claimed item is its owner's until the time is up, and can be claimed again from then on. */
  lemma ClaimLeadsTo(i: Item, ownerId: string, ttl: int, token: Id, now: Time, other: Id, t: Time)
    requires ttl > 0
    ensures var claimed := ClaimedItem(i, ownerId, ttl, token, now);
            && claimed.command == i.command && claimed.attempt == i.attempt + 1 && claimed.ownerId == Some(ownerId)
            && (InDelivery(claimed, other, t) <==> other == token && t < now + ttl)
            && (IsCandidate(claimed, t) <==> t >= now + ttl)
  {}

  /** A delivery is extended exactly for its holder in time, and then lasts `ttl` from now. */
  lemma RenewLeadsTo(q: Queue, id: Id, token: Id, ttl: int, now: Time, other: Id, t: Time)
    ensures var r := RenewIn(q, id, token, ttl, now);
            && (r.Ok? <==> ttl > 0 && id in q.items && InDelivery(q.items[id], token, now))
            && (r.Ok? ==>
                  && OnlyItem(q, r.value.0, id, r.value.1) && r.value.1.attempt == q.items[id].attempt
                  && (InDelivery(r.value.1, other, t) <==> other == token && t < now + ttl)
                  && (IsCandidate(r.value.1, t) <==> t >= now + ttl))
  {}

  /** A completed item is never claimed again, and completing it twice is the same as once. */
  lemma CompleteLeadsTo(q: Queue, id: Id, token: Id, now: Time, t: Time)
    requires id in q.items && InDelivery(q.items[id], token, now)
    ensures var r := CompleteIn(q, id, token, now);
            && r.Ok? && OnlyItem(q, r.value.0, id, r.value.1)
            && r.value.1.status.Completed? && !IsCandidate(r.value.1, t)
            && CompleteIn(r.value.0, id, token, t) == r
  {}

  /** A blocked item keeps its reason, and is not claimed unless it is reviewed. */
  lemma BlockLeadsTo(q: Queue, id: Id, token: Id, reason: string, now: Time, t: Time)
    requires id in q.items && InDelivery(q.items[id], token, now)
    ensures var r := BlockIn(q, id, token, reason, now);
            && (r.Ok? <==> !IsBlank(reason) && |reason| <= 256)
            && (r.Ok? ==>
                  && OnlyItem(q, r.value.0, id, r.value.1)
                  && r.value.1.status.Blocked? && r.value.1.blockedReason == Some(reason)
                  && !IsCandidate(r.value.1, t) && BlockIn(r.value.0, id, token, reason, t) == r)
  {}

  /** A retried item can be claimed again exactly from the end of the delay on. */
  lemma RetryLeadsTo(q: Queue, id: Id, token: Id, delay: int, error: Option<string>, now: Time, t: Time)
    requires id in q.items && InDelivery(q.items[id], token, now)
    ensures var r := RetryIn(q, id, token, delay, error, now);
            && (r.Ok? <==> delay >= 0 && (error.Some? ==> !IsBlank(error.value) && |error.value| <= 256))
            && (r.Ok? ==>
                  && OnlyItem(q, r.value.0, id, r.value.1)
                  && r.value.1.status.Pending? && r.value.1.lastError == error
                  && r.value.1.attempt == q.items[id].attempt
                  && (IsCandidate(r.value.1, t) <==> t >= now + delay)
                  && RetryIn(r.value.0, id, token, delay, error, t) == r)
  {}

  /** Whoever does not hold the delivery and has not settled it settles nothing. */
  lemma OthersSettleNothing(q: Queue, id: Id, token: Id, reason: string, delay: int, error: Option<string>, now: Time)
    requires id in q.items && !InDelivery(q.items[id], token, now) && q.items[id].lastToken != Some(token)
    ensures CompleteIn(q, id, token, now) == Err(DeliveryLost)
    ensures BlockIn(q, id, token, reason, now).Err? && RetryIn(q, id, token, delay, error, now).Err?
  {}

  /** A first review of a blocked item: approval lets it be claimed exactly from the end of the delay on,
      rejection never again. The decision is on record. */
  lemma ReviewLeadsTo(q: Queue, r: Review, now: Time, t: Time)
    requires r.key !in q.reviewKeys && r.workId in q.items && q.items[r.workId].status.Blocked?
    requires ValidDelivery(q.items[r.workId])
    ensures var done := ReviewIn(q, r, now);
            && done.Ok? && done.value.0.items == q.items[r.workId := done.value.1] && done.value.0.keys == q.keys
            && done.value.1.command == q.items[r.workId].command && done.value.1.blockedReason.None?
            && (r.decision.ApproveRetry? ==>
                  done.value.1.status.Pending? && (IsCandidate(done.value.1, t) <==> t >= now + r.delay))
            && (r.decision.Reject? ==> done.value.1.status.Discarded? && !IsCandidate(done.value.1, t))
            && r.workId in done.value.0.reviews && done.value.0.reviews[r.workId] != []
            && (var recorded := done.value.0.reviews[r.workId];
                recorded[|recorded| - 1] == r.(createdAt := now))
  {}

  /** A second decision under a known key is taken for the first one exactly when it is the same, and is
      refused otherwise. */
  lemma SecondReview(q: Queue, r: Review, now: Time)
    requires r.key in q.reviewKeys && q.reviewKeys[r.key].workId in q.items
    ensures var known := q.reviewKeys[r.key];
            ReviewIn(q, r, now)
            == if && known.workId == r.workId && known.decision == r.decision && known.reviewerId == r.reviewerId
                  && known.reasonCode == r.reasonCode && known.delay == r.delay
               then Ok((q, q.items[known.workId])) else Err(ReviewConflict)
  {}

  /** Only blocked items are reviewed. */
  lemma ReviewNeedsBlocked(q: Queue, r: Review, now: Time)
    requires r.key !in q.reviewKeys
    ensures ReviewIn(q, r, now).Ok? <==> r.workId in q.items && q.items[r.workId].status.Blocked?
  {}

  /** The item handed out is one that has waited longest: since it became available, then since its command
      was created, then by its id. */
  lemma HeadHasWaitedLongest(q: Queue, now: Time, id: Id, other: Id)
    requires Indexed(q) && IsHead(q.items, now, id) && other in q.items && IsCandidate(q.items[other], now)
    ensures q.items[id].availableAt <= q.items[other].availableAt
    ensures q.items[id].availableAt == q.items[other].availableAt ==>
              q.items[id].command.createdAt <= q.items[other].command.createdAt
    ensures (&& q.items[id].availableAt == q.items[other].availableAt
             && q.items[id].command.createdAt == q.items[other].command.createdAt) ==> id <= other
  {}

  class InMemoryFlowWorkSource {
    var items: map<Id, Item>
    var keys: map<string, Id>
    var reviews: map<Id, seq<Review>>
    var reviewKeys: map<string, Review>

    ghost function Value(): Queue
      reads this
    {
      Queue(items, keys, reviews, reviewKeys)
    }

    constructor ()
      ensures Value() == Queue(map[], map[], map[], map[])
    {
      items, keys, reviews, reviewKeys := map[], map[], map[], map[];
    }

    method Enqueue(c: Command, now: Time) returns (r: Result<Item, WorkError>)
      requires Indexed(Value())
      modifies this
      ensures Performs(old(Value()), Value(), EnqueueIn(old(Value()), c, now), r)
      ensures r != Err(NotFound)
    {
      if c.key in keys {
        var existing := items[keys[c.key]];
        return if existing.command.HasSameIntent(c) then Ok(existing) else Err(IdempotencyConflict);
      }
      var item := Item(c, Pending, 0, now, None, None, None, None, None, None, None, now);
      items := items[c.id := item];
      keys := keys[c.key := c.id];
      return Ok(item);
    }

    /** Hands out the first candidate in key order, or nothing when there is none. */
    method Claim(ownerId: string, ttl: int, token: Id, now: Time) returns (r: Result<Option<Item>, WorkError>)
      requires Indexed(Value())
      modifies this`items
      ensures r.Err? ==> r.error == InvalidArgument && BadDeliveryArguments(ownerId, ttl) && Value() == old(Value())
      ensures r == Ok(None) ==>
                Value() == old(Value()) && forall id :: id in items ==> !IsCandidate(items[id], now)
      ensures r.Ok? && r.value.Some? ==>
                var id := r.value.value.command.id;
                && IsHead(old(items), now, id)
                && r.value.value == ClaimedItem(old(items)[id], ownerId, ttl, token, now)
                && Value() == old(Value()).(items := old(items)[id := r.value.value])
    {
      if BadDeliveryArguments(ownerId, ttl) { return Err(InvalidArgument); }
      var best := FirstCandidate(now);
      if best.None? { return Ok(None); }
      var claimed := ClaimedItem(items[best.value], ownerId, ttl, token, now);
      items := items[best.value := claimed];
      return Ok(Some(claimed));
    }

    /** The smallest candidate key, or nothing when there is no candidate. */
    method FirstCandidate(now: Time) returns (best: Option<Id>)
      ensures best.Some? ==> IsHead(items, now, best.value)
      ensures best.None? ==> forall id :: id in items ==> !IsCandidate(items[id], now)
    {
      var rest := items.Keys;
      best := None;
      while rest != {}
        invariant rest <= items.Keys
        invariant best.None? ==> forall id :: id in items && id !in rest ==> !IsCandidate(items[id], now)
        invariant best.Some? ==>
          && best.value in items && IsCandidate(items[best.value], now)
          && forall id :: id in items && id !in rest && IsCandidate(items[id], now) ==>
               !Before(items[id], items[best.value])
        decreases |rest|
      {
        var id :| id in rest;
        rest := rest - {id};
        if IsCandidate(items[id], now) && (best.None? || Before(items[id], items[best.value])) {
          best := Some(id);
        }
      }
    }

    method Renew(id: Id, token: Id, ttl: int, now: Time) returns (r: Result<Item, WorkError>)
      modifies this`items
      ensures Performs(old(Value()), Value(), RenewIn(old(Value()), id, token, ttl, now), r)
    {
      if ttl <= 0 { return Err(InvalidArgument); }
      if id !in items { return Err(NotFound); }
      if !HoldsDelivery(items[id], token, now) { return Err(DeliveryLost); }
      var renewed := items[id].(expiresAt := Some(now + ttl), updatedAt := now);
      items := items[id := renewed];
      return Ok(renewed);
    }

    method Complete(id: Id, token: Id, now: Time) returns (r: Result<Item, WorkError>)
      modifies this`items
      ensures Performs(old(Value()), Value(), CompleteIn(old(Value()), id, token, now), r)
    {
      if id !in items { return Err(NotFound); }
      var current := items[id];
      if current.status.Completed? && current.lastToken == Some(token) { return Ok(current); }
      if !HoldsDelivery(current, token, now) { return Err(DeliveryLost); }
      var completed := SettledItem(current, Completed, now);
      items := items[id := completed];
      return Ok(completed);
    }

    method Block(id: Id, token: Id, reason: string, now: Time) returns (r: Result<Item, WorkError>)
      modifies this`items
      ensures Performs(old(Value()), Value(), BlockIn(old(Value()), id, token, reason, now), r)
    {
      if BadText(reason) { return Err(InvalidArgument); }
      if id !in items { return Err(NotFound); }
      var current := items[id];
      if current.status.Blocked? && current.lastToken == Some(token) { return Ok(current); }
      if !HoldsDelivery(current, token, now) { return Err(DeliveryLost); }
      var blocked := SettledItem(current, Blocked, now).(blockedReason := Some(reason));
      items := items[id := blocked];
      return Ok(blocked);
    }

    method Retry(id: Id, token: Id, delay: int, error: Option<string>, now: Time)
      returns (r: Result<Item, WorkError>)
      modifies this`items
      ensures Performs(old(Value()), Value(), RetryIn(old(Value()), id, token, delay, error, now), r)
    {
      if delay < 0 || (error.Some? && BadText(error.value)) { return Err(InvalidArgument); }
      if id !in items { return Err(NotFound); }
      var current := items[id];
      if current.status.Pending? && current.lastToken == Some(token) { return Ok(current); }
      if !HoldsDelivery(current, token, now) { return Err(DeliveryLost); }
      var pending := SettledItem(current, Pending, now).(availableAt := now + delay, lastError := error);
      items := items[id := pending];
      return Ok(pending);
    }

    method ReviewBlocked(review: Review, now: Time) returns (r: Result<Item, WorkError>)
      requires Indexed(Value())
      modifies this`items, this`reviews, this`reviewKeys
      ensures Performs(old(Value()), Value(), ReviewIn(old(Value()), review, now), r)
    {
      if review.key in reviewKeys {
        var existing := reviewKeys[review.key];
        return if existing.HasSameIntent(review) then Ok(items[existing.workId]) else Err(ReviewConflict);
      }
      if review.workId !in items { return Err(NotFound); }
      if !items[review.workId].status.Blocked? { return Err(NotBlocked); }
      var stored := review.(createdAt := now);
      var replacement := Reviewed(items[review.workId], review, now);
      items := items[review.workId := replacement];
      reviews := reviews[review.workId :=
        (if review.workId in reviews then reviews[review.workId] else []) + [stored]];
      reviewKeys := reviewKeys[review.key := stored];
      return Ok(replacement);
    }
  }
}
