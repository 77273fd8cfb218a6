/** The durable queue of effects: enqueue with folding, claim, settle, reclaim. */
module Outbox {
  import opened Wrappers
  import opened DedupeKeys
  import opened Effects

  const OUTBOX_LANES: nat := 1024

  type WorkerId = string

  datatype Claim = Claim(worker: WorkerId, at: int)

  // The lane column is a function of the key, so it is not carried separately.
  datatype Row = Row(
    effect: Effect,
    dedupeKey: DedupeKey,
    notBefore: int,
    attempts: nat,
    claim: Option<Claim>)
  {
    function LaneOf(): nat {
      Lane(dedupeKey, OUTBOX_LANES)
    }

    predicate HeldBy(worker: WorkerId) {
      claim.Some? && claim.value.worker == worker
    }

    // A row a later item of the same kind for the same card folds into.
    predicate TakesIn(effect: Effect) {
      && claim.None?
      && effect.IsCoalescable()
      && this.effect.Kind() == effect.Kind()
      && this.effect.Card() == effect.Card()
    }

    // The row keeps its place, takes the later payload, and keeps the earlier time.
    function Folded(item: NewOutboxItem): Row {
      this.(effect := item.effect, notBefore := if item.notBefore < notBefore then item.notBefore else notBefore)
    }

    // Claimed before the cutoff.
    predicate Expired(olderThan: int) {
      claim.Some? && claim.value.at < olderThan
    }
  }

  type Rows = map<nat, Row>

  // `next` is the id the next row takes; ids are never reused.
  datatype Queue = Queue(rows: Rows, next: nat) {
    ghost predicate Valid() {
      forall id :: id in rows ==> id < next
    }

    function Folding(effect: Effect): set<nat> {
      set id | id in rows && rows[id].TakesIn(effect)
    }
  }

  const EMPTY: Queue := Queue(map[], 0)

  function NewRow(item: NewOutboxItem): Row {
    Row(item.effect, item.dedupeKey, item.notBefore, 0, None)
  }

  function Enqueue(q: Queue, item: NewOutboxItem): Queue {
    if q.Folding(item.effect) != {} then
      q.(rows := map id | id in q.rows :: if q.rows[id].TakesIn(item.effect) then q.rows[id].Folded(item) else q.rows[id])
    else
      Queue(q.rows[q.next := NewRow(item)], q.next + 1)
  }

  function EnqueueAll(q: Queue, items: seq<NewOutboxItem>): Queue {
    if items == [] then q else Enqueue(EnqueueAll(q, items[..|items| - 1]), items[|items| - 1])
  }

  datatype LaneAssignment = LaneAssignment(index: nat, of: nat)

  // The assignment for worker `index` of `of`, with a zero divisor held at one.
  function NewLaneAssignment(index: nat, of: nat): (lane: LaneAssignment)
    ensures lane.of >= 1 && lane.index < lane.of
  {
    var divisor := if of == 0 then 1 else of;
    LaneAssignment(index % divisor, divisor)
  }

  predicate Owns(lane: Option<LaneAssignment>, row: Row) {
    lane.Some? ==> lane.value.of != 0 && row.LaneOf() % lane.value.of == lane.value.index
  }

  predicate Claimable(row: Row, lane: Option<LaneAssignment>, now: int) {
    row.claim.None? && row.notBefore <= now && Owns(lane, row)
  }

  function ClaimableIds(q: Queue, lane: Option<LaneAssignment>, now: int): set<nat> {
    set id | id in q.rows && Claimable(q.rows[id], lane, now)
  }

  // The claim order: earliest time first, then insertion.
  predicate Before(q: Queue, a: nat, b: nat)
    requires a in q.rows && b in q.rows
  {
    q.rows[a].notBefore < q.rows[b].notBefore || (q.rows[a].notBefore == q.rows[b].notBefore && a < b)
  }

  // The first `limit` claimable rows in claim order, or all of them when there are fewer.
  ghost predicate IsClaim(q: Queue, lane: Option<LaneAssignment>, limit: nat, now: int, chosen: set<nat>) {
    && chosen <= ClaimableIds(q, lane, now)
    && |chosen| <= limit
    && (|chosen| == limit || chosen == ClaimableIds(q, lane, now))
    && forall a, b :: a in chosen && b in ClaimableIds(q, lane, now) - chosen ==> Before(q, a, b)
  }

  function IdSet(ids: seq<nat>): set<nat> {
    set id | id in ids
  }

  function Take(q: Queue, worker: WorkerId, now: int, chosen: set<nat>): Queue {
    q.(rows := map id | id in q.rows ::
      if id in chosen
      then q.rows[id].(claim := Some(Claim(worker, now)), attempts := q.rows[id].attempts + 1)
      else q.rows[id])
  }

  // Removes a finished or abandoned row, if the worker still holds it.
  function Settle(q: Queue, worker: WorkerId, id: nat): Option<Queue> {
    if id in q.rows && q.rows[id].HeldBy(worker) then Some(q.(rows := q.rows - {id})) else None
  }

  // Puts a failed row back for a later attempt, if the worker still holds it.
  function Postpone(q: Queue, worker: WorkerId, id: nat, retryAt: int): Option<Queue> {
    if id in q.rows && q.rows[id].HeldBy(worker)
    then Some(q.(rows := q.rows[id := q.rows[id].(claim := None, notBefore := retryAt)]))
    else None
  }

  // The row out of its holder's hands and due at once.
  function Freed(row: Row, now: int): Row {
    row.(claim := None, notBefore := now)
  }

  function Reclaim(q: Queue, olderThan: int, now: int): Queue {
    q.(rows := map id | id in q.rows ::
      if q.rows[id].Expired(olderThan) then Freed(q.rows[id], now) else q.rows[id])
  }

  function ExpiredIds(q: Queue, olderThan: int): set<nat> {
    set id | id in q.rows && q.rows[id].Expired(olderThan)
  }

  ghost function ExpiredBelow(q: Queue, olderThan: int, n: nat): set<nat> {
    set id | id in q.rows && id < n && q.rows[id].Expired(olderThan)
  }

  lemma OneMoreExpired(q: Queue, olderThan: int, n: nat)
    ensures
      |ExpiredBelow(q, olderThan, n + 1)|
      == |ExpiredBelow(q, olderThan, n)| + if n in q.rows && q.rows[n].Expired(olderThan) then 1 else 0
  {
    var before, after := ExpiredBelow(q, olderThan, n), ExpiredBelow(q, olderThan, n + 1);
    assert after == if n in q.rows && q.rows[n].Expired(olderThan) then before + {n} else before;
  }

  lemma OnlyExpiredClaimsAreLost(q: Queue, olderThan: int, now: int)
    ensures forall worker: WorkerId, id :: id in q.rows && q.rows[id].HeldBy(worker) ==>
      && (id in ExpiredIds(q, olderThan) <==> q.rows[id].claim.value.at < olderThan)
      && (Settle(Reclaim(q, olderThan, now), worker, id).None? <==> id in ExpiredIds(q, olderThan))
  {
  }

  // A claim leaves behind no row of its lane that was due earlier than one it took, nor one due as early and
  // queued before it.
  lemma ClaimsTakeTheEarliest(q: Queue, lane: Option<LaneAssignment>, limit: nat, now: int, chosen: set<nat>, a: nat, b: nat)
    requires IsClaim(q, lane, limit, now, chosen) && a in chosen && b in q.rows && b !in chosen
    requires q.rows[b].claim.None? && q.rows[b].notBefore <= now && Owns(lane, q.rows[b])
    ensures q.rows[a].claim.None? && q.rows[a].notBefore <= now && |chosen| == limit
    ensures q.rows[a].notBefore < q.rows[b].notBefore || (q.rows[a].notBefore == q.rows[b].notBefore && a < b)
  {
    assert b in ClaimableIds(q, lane, now) - chosen;
  }

  ghost predicate InClaimOrder(q: Queue, ids: seq<nat>) {
    forall i, j :: 0 <= i < j < |ids| ==> ids[i] in q.rows && ids[j] in q.rows && Before(q, ids[i], ids[j])
  }

  // Taking the next row in claim order keeps the claim an initial stretch of that order.
  lemma ClaimGrows(q: Queue, lane: Option<LaneAssignment>, now: int, ids: seq<nat>, chosen: set<nat>, best: nat)
    requires |ids| == |chosen| && chosen == IdSet(ids) && chosen <= ClaimableIds(q, lane, now)
    requires best in ClaimableIds(q, lane, now) - chosen
    requires forall b :: b in ClaimableIds(q, lane, now) - chosen && b != best ==> Before(q, best, b)
    requires forall a, b :: a in chosen && b in ClaimableIds(q, lane, now) - chosen ==> Before(q, a, b)
    requires InClaimOrder(q, ids)
    ensures chosen + {best} == IdSet(ids + [best]) && |chosen + {best}| == |ids| + 1
    ensures forall a, b :: a in chosen + {best} && b in ClaimableIds(q, lane, now) - (chosen + {best}) ==> Before(q, a, b)
    ensures InClaimOrder(q, ids + [best])
  {
    assert forall i :: 0 <= i < |ids| ==> ids[i] in chosen;
  }

  // The outbox table, one transaction a method.
  class OutboxStore {
    var rows: Rows
    var next: nat

    function Contents(): Queue
      reads this
    {
      Queue(rows, next)
    }

    constructor ()
      ensures Contents() == EMPTY
    {
      rows, next := map[], 0;
    }

    method EnqueueEffect(item: NewOutboxItem)
      modifies this
      ensures Contents() == Enqueue(old(Contents()), item)
    {
      var folding := Contents().Folding(item.effect);
      if folding != {} {
        rows := map id | id in rows :: if id in folding then rows[id].Folded(item) else rows[id];
      } else {
        rows, next := rows[next := NewRow(item)], next + 1;
      }
    }

    method EnqueueEffects(items: seq<NewOutboxItem>)
      modifies this
      ensures Contents() == EnqueueAll(old(Contents()), items)
    {
      for i := 0 to |items|
        invariant Contents() == EnqueueAll(old(Contents()), items[..i])
      {
        assert items[..i + 1][..i] == items[..i];
        EnqueueEffect(items[i]);
      }
      assert items[..|items|] == items;
    }

    method ClaimOutbox(worker: WorkerId, lane: Option<LaneAssignment>, limit: nat, now: int)
      returns (ids: seq<nat>)
      requires Contents().Valid()
      modifies this
      ensures
        var chosen := IdSet(ids);
        && IsClaim(old(Contents()), lane, limit, now, chosen)
        && Contents() == Take(old(Contents()), worker, now, chosen)
      ensures InClaimOrder(old(Contents()), ids)
    {
      ids := FirstRows(lane, limit, now);
      rows := Take(Contents(), worker, now, IdSet(ids)).rows;
    }

    // Up to `limit` claimable rows, first in claim order.
    method FirstRows(lane: Option<LaneAssignment>, limit: nat, now: int) returns (ids: seq<nat>)
      requires Contents().Valid()
      ensures IsClaim(Contents(), lane, limit, now, IdSet(ids))
      ensures InClaimOrder(Contents(), ids)
    {
      ids := [];
      ghost var q := Contents();
      var chosen: set<nat> := {};
      while |ids| < limit
        invariant Contents() == q && |ids| == |chosen| <= limit && chosen == IdSet(ids)
        invariant chosen <= ClaimableIds(q, lane, now)
        invariant forall a, b :: a in chosen && b in ClaimableIds(q, lane, now) - chosen ==> Before(q, a, b)
        invariant InClaimOrder(q, ids)
        decreases limit - |ids|
      {
        var best := FirstClaimable(lane, now, chosen);
        if best.None? {
          assert chosen == ClaimableIds(q, lane, now);
          return;
        }
        ClaimGrows(q, lane, now, ids, chosen, best.value);
        ids, chosen := ids + [best.value], chosen + {best.value};
      }
    }

    // The next row in claim order that has not been taken yet.
    method FirstClaimable(lane: Option<LaneAssignment>, now: int, taken: set<nat>) returns (best: Option<nat>)
      requires Contents().Valid()
      ensures best.None? ==> ClaimableIds(Contents(), lane, now) <= taken
      ensures best.Some? ==>
        && best.value in ClaimableIds(Contents(), lane, now) - taken
        && forall b :: b in ClaimableIds(Contents(), lane, now) - taken && b != best.value
             ==> Before(Contents(), best.value, b)
    {
      best := None;
      for id := 0 to next
        invariant best.None? ==> forall b :: b < id && b in ClaimableIds(Contents(), lane, now) ==> b in taken
        invariant best.Some? ==>
          && best.value < id && best.value in ClaimableIds(Contents(), lane, now) - taken
          && forall b :: b < id && b in ClaimableIds(Contents(), lane, now) - taken && b != best.value
               ==> Before(Contents(), best.value, b)
      {
        if id in rows && Claimable(rows[id], lane, now) && id !in taken {
          if best.None? || rows[id].notBefore < rows[best.value].notBefore {
            best := Some(id);
          }
        }
      }
    }

    method CompleteOutbox(worker: WorkerId, id: nat) returns (recorded: bool)
      modifies this
      ensures recorded <==> Settle(old(Contents()), worker, id).Some?
      ensures Contents() == Settle(old(Contents()), worker, id).UnwrapOr(old(Contents()))
    {
      recorded := id in rows && rows[id].HeldBy(worker);
      if recorded {
        rows := rows - {id};
      }
    }

    method FailOutbox(worker: WorkerId, id: nat, retryAt: Option<int>) returns (recorded: bool)
      modifies this
      ensures
        var settled :=
          if retryAt.Some? then Postpone(old(Contents()), worker, id, retryAt.value)
          else Settle(old(Contents()), worker, id);
        recorded == settled.Some? && Contents() == settled.UnwrapOr(old(Contents()))
    {
      recorded := id in rows && rows[id].HeldBy(worker);
      if recorded {
        if retryAt.Some? {
          rows := rows[id := rows[id].(claim := None, notBefore := retryAt.value)];
        } else {
          rows := rows - {id};
        }
      }
    }

    // Takes expired claims back, row by row, and counts them. Whoever held such a row has lost it;
    // every other holder can settle what it holds as before.
    method ReclaimExpired(olderThan: int, now: int) returns (reclaimed: nat)
      requires Contents().Valid()
      modifies this
      ensures Contents() == Reclaim(old(Contents()), olderThan, now)
      ensures reclaimed == |ExpiredIds(old(Contents()), olderThan)|
      ensures forall worker: WorkerId, id :: id in old(rows) && old(rows)[id].HeldBy(worker) ==>
        (Settle(Contents(), worker, id).None? <==> id in ExpiredIds(old(Contents()), olderThan))
    {
      reclaimed := 0;
      ghost var q := Contents();
      for id := 0 to next
        invariant next == q.next && rows.Keys == q.rows.Keys && reclaimed == |ExpiredBelow(q, olderThan, id)|
        invariant forall k :: k in rows ==>
          rows[k] == if k < id && q.rows[k].Expired(olderThan) then Freed(q.rows[k], now) else q.rows[k]
      {
        OneMoreExpired(q, olderThan, id);
        if id in rows && rows[id].Expired(olderThan) {
          rows := rows[id := rows[id].(claim := None, notBefore := now)];
          reclaimed := reclaimed + 1;
        }
      }
      assert ExpiredBelow(q, olderThan, next) == ExpiredIds(q, olderThan);
      OnlyExpiredClaimsAreLost(q, olderThan, now);
    }
  }

  // ---- Runs

  datatype Step =
    | Enqueued(item: NewOutboxItem)
    | Claimed(worker: WorkerId, lane: Option<LaneAssignment>, limit: nat, now: int, chosen: set<nat>)
    | Completed(worker: WorkerId, id: nat)
    | Failed(worker: WorkerId, id: nat, retryAt: Option<int>)
    | Reclaimed(olderThan: int, at: int)

  ghost predicate Allowed(q: Queue, step: Step) {
    step.Claimed? ==> IsClaim(q, step.lane, step.limit, step.now, step.chosen)
  }

  // A settlement by a worker that has lost the row changes nothing.
  function Next(q: Queue, step: Step): Queue {
    match step
    case Enqueued(item) => Enqueue(q, item)
    case Claimed(worker, _, _, now, chosen) => Take(q, worker, now, chosen)
    case Completed(worker, id) => Settle(q, worker, id).UnwrapOr(q)
    case Failed(worker, id, retryAt) =>
      if retryAt.Some? then Postpone(q, worker, id, retryAt.value).UnwrapOr(q)
      else Settle(q, worker, id).UnwrapOr(q)
    case Reclaimed(olderThan, at) => Reclaim(q, olderThan, at)
  }

  function After(q: Queue, steps: seq<Step>): Queue {
    if steps == [] then q else Next(After(q, steps[..|steps| - 1]), steps[|steps| - 1])
  }

  ghost predicate Run(q: Queue, steps: seq<Step>) {
    steps == [] || (Run(q, steps[..|steps| - 1]) && Allowed(After(q, steps[..|steps| - 1]), steps[|steps| - 1]))
  }

  predicate Claims(step: Step, worker: WorkerId, id: nat) {
    step.Claimed? && step.worker == worker && id in step.chosen
  }

  lemma NextKeepsValid(q: Queue, step: Step)
    requires q.Valid()
    ensures Next(q, step).Valid() && Next(q, step).next >= q.next
  {
  }

  lemma NextKeepsLost(q: Queue, step: Step, worker: WorkerId, id: nat)
    requires id < q.next && Settle(q, worker, id).None? && !Claims(step, worker, id)
    ensures Settle(Next(q, step), worker, id).None?
  {
  }

  // A worker that does not hold a row, because it never claimed it or the claim was taken back,
  // cannot settle it until it claims it again.
  lemma {:induction false} LostClaimsStayLost(q: Queue, steps: seq<Step>, worker: WorkerId, id: nat)
    requires q.Valid() && id < q.next && Settle(q, worker, id).None?
    requires forall i :: 0 <= i < |steps| ==> !Claims(steps[i], worker, id)
    ensures After(q, steps).Valid() && id < After(q, steps).next
    ensures Settle(After(q, steps), worker, id).None?
    ensures forall retryAt :: Postpone(After(q, steps), worker, id, retryAt).None?
  {
    if steps != [] {
      var before, step := After(q, steps[..|steps| - 1]), steps[|steps| - 1];
      LostClaimsStayLost(q, steps[..|steps| - 1], worker, id);
      NextKeepsValid(before, step);
      NextKeepsLost(before, step, worker, id);
    }
  }

  lemma ReclaimTakesTheRowBack(q: Queue, olderThan: int, now: int, worker: WorkerId, id: nat)
    requires id in q.rows && q.rows[id].HeldBy(worker) && q.rows[id].claim.value.at < olderThan
    ensures Settle(Reclaim(q, olderThan, now), worker, id).None?
  {
  }

  // The row is still waiting, for the same thing, and no later than before.
  ghost predicate StillWaiting(q: Queue, after: Queue, id: nat) {
    && id in q.rows && id in after.rows && after.rows[id].claim.None?
    && after.rows[id].notBefore <= q.rows[id].notBefore
    && after.rows[id].effect.Kind() == q.rows[id].effect.Kind()
    && after.rows[id].effect.Card() == q.rows[id].effect.Card()
    && after.rows[id].dedupeKey == q.rows[id].dedupeKey
  }

  lemma NextKeepsWaiting(q: Queue, step: Step, id: nat)
    requires q.Valid() && id in q.rows && q.rows[id].claim.None?
    requires !(step.Claimed? && id in step.chosen)
    ensures StillWaiting(q, Next(q, step), id)
  {
  }

  // An effect folded into a waiting row is carried out by a claim that comes after the fold: the
  // row leaves the queue only once somebody has claimed it since. Until then it is never put off.
  lemma {:induction false} WaitingRowsLeaveThroughAClaim(q: Queue, steps: seq<Step>, id: nat)
    requires q.Valid() && id in q.rows && q.rows[id].claim.None?
    requires forall i :: 0 <= i < |steps| ==> !(steps[i].Claimed? && id in steps[i].chosen)
    ensures After(q, steps).Valid() && StillWaiting(q, After(q, steps), id)
  {
    if steps != [] {
      var before, step := After(q, steps[..|steps| - 1]), steps[|steps| - 1];
      WaitingRowsLeaveThroughAClaim(q, steps[..|steps| - 1], id);
      NextKeepsValid(before, step);
      NextKeepsWaiting(before, step, id);
    }
  }

  predicate Takes(step: Step, id: nat) {
    step.Claimed? && id in step.chosen
  }

  // A row nothing can fold into stays exactly as it is until it is claimed.
  lemma {:induction false} LoneRowsStayPut(q: Queue, steps: seq<Step>, id: nat)
    requires q.Valid() && id in q.rows && q.rows[id].claim.None? && !q.rows[id].effect.IsCoalescable()
    requires forall i :: 0 <= i < |steps| ==> !Takes(steps[i], id)
    ensures id in After(q, steps).rows && After(q, steps).rows[id] == q.rows[id]
  {
    if steps != [] {
      LoneRowsStayPut(q, steps[..|steps| - 1], id);
      StaysValid(q, steps[..|steps| - 1]);
      assert !Takes(steps[|steps| - 1], id);
      OneStepKeepsItPut(After(q, steps[..|steps| - 1]), steps[|steps| - 1], id);
    }
  }

  lemma {:induction false} StaysValid(q: Queue, steps: seq<Step>)
    requires q.Valid()
    ensures After(q, steps).Valid()
  {
    if steps != [] {
      StaysValid(q, steps[..|steps| - 1]);
      NextKeepsValid(After(q, steps[..|steps| - 1]), steps[|steps| - 1]);
    }
  }

  lemma OneStepKeepsItPut(q: Queue, step: Step, id: nat)
    requires id in q.rows && q.rows[id].claim.None? && !q.rows[id].effect.IsCoalescable() && !Takes(step, id)
    requires step.Enqueued? ==> id != q.next
    ensures id in Next(q, step).rows && Next(q, step).rows[id] == q.rows[id]
  {
    if step.Enqueued? && q.rows[id].TakesIn(step.item.effect) {
      SameKindFoldsAlike(step.item.effect, q.rows[id].effect);
    }
  }

  lemma SameKindFoldsAlike(a: Effect, b: Effect)
    requires a.Kind() == b.Kind()
    ensures a.IsCoalescable() <==> b.IsCoalescable()
  {
  }

  // Wherever a list of claimed rows in claim order names both, it names `early` first.
  ghost predicate Precedes(q: Queue, early: nat, late: nat) {
    forall ids: seq<nat>, a: nat, b: nat ::
      a < |ids| && b < |ids| && InClaimOrder(q, ids) && ids[a] == early && ids[b] == late ==> a < b
  }

  lemma EarlierRowsPrecede(q: Queue, early: nat, late: nat)
    requires early in q.rows && late in q.rows && Before(q, early, late)
    ensures Precedes(q, early, late)
  {
    forall ids: seq<nat>, a: nat, b: nat |
      a < |ids| && b < |ids| && InClaimOrder(q, ids) && ids[a] == early && ids[b] == late
      ensures a < b
    {
    }
  }

  // By the claim that ends the steps and takes `late`, `early` was taken already, or it is taken with
  // it and comes first among the rows claimed.
  ghost predicate TakenFirst(q: Queue, steps: seq<Step>, early: nat, late: nat)
    requires steps != []
  {
    var n := |steps| - 1;
    || (exists j :: 0 <= j < n && Takes(steps[j], early))
    || (Takes(steps[n], early) && Precedes(After(q, steps[..n]), early, late))
  }

  // Of two waiting rows of one lane the earlier is claimed first: whoever first takes the later one
  // finds the earlier taken, or takes it in the same claim and works on it before.
  lemma EarlierRowsAreTakenFirst(q: Queue, steps: seq<Step>, early: nat, late: nat)
    requires q.Valid() && Run(q, steps) && steps != []
    requires early in q.rows && late in q.rows && q.rows[early].claim.None? && q.rows[late].claim.None?
    requires Before(q, early, late) && q.rows[early].dedupeKey == q.rows[late].dedupeKey
    requires !q.rows[late].effect.IsCoalescable()
    requires Takes(steps[|steps| - 1], late)
    requires forall i :: 0 <= i < |steps| - 1 ==> !Takes(steps[i], late)
    ensures TakenFirst(q, steps, early, late)
  {
    var n := |steps| - 1;
    var before, step := After(q, steps[..n]), steps[n];
    if forall i :: 0 <= i < n ==> !Takes(steps[i], early) {
      LoneRowsStayPut(q, steps[..n], late);
      WaitingRowsLeaveThroughAClaim(q, steps[..n], early);
      assert Before(before, early, late) && !Before(before, late, early);
      assert late in ClaimableIds(before, step.lane, step.now);
      assert early in ClaimableIds(before, step.lane, step.now);
      assert Takes(step, early);
      EarlierRowsPrecede(before, early, late);
    }
  }

  // Redraws, forced redraws and retags of one card ask for nothing the row already waiting does not.
  predicate AskForTheSame(a: Effect, b: Effect) {
    a.Card() == b.Card() && ((a.EditCard? && b.EditCard?) || (a.ResyncCard? && b.ResyncCard?) || (a.SetTags? && b.SetTags?))
  }

  // Such an item adds no row while one waits unclaimed, and moves it no later; any other is a row of its own.
  lemma ItemsFoldWhen(q: Queue, item: NewOutboxItem)
    requires q.Valid()
    ensures
      var after := Enqueue(q, item);
      var folds := exists id :: id in q.rows && q.rows[id].claim.None? && AskForTheSame(q.rows[id].effect, item.effect);
      && (folds ==> after.next == q.next && after.rows.Keys == q.rows.Keys)
      && (!folds ==>
            && after.next == q.next + 1 && after.rows.Keys == q.rows.Keys + {q.next}
            && after.rows[q.next] == Row(item.effect, item.dedupeKey, item.notBefore, 0, None))
      && forall id :: id in q.rows ==>
           after.rows[id] ==
           if q.rows[id].claim.None? && AskForTheSame(q.rows[id].effect, item.effect) && item.notBefore < q.rows[id].notBefore
           then q.rows[id].(notBefore := item.notBefore) else q.rows[id]
  {
    forall id | id in q.rows
      ensures q.rows[id].TakesIn(item.effect) <==> q.rows[id].claim.None? && AskForTheSame(q.rows[id].effect, item.effect)
      ensures q.rows[id].TakesIn(item.effect) ==> q.rows[id].effect == item.effect
    {
    }
    if id :| id in q.rows && q.rows[id].claim.None? && AskForTheSame(q.rows[id].effect, item.effect) {
      assert id in q.Folding(item.effect);
    }
  }

  // Folding keeps one row a card and kind, at the earlier of the two times.
  lemma EnqueueNeverPostpones(q: Queue, item: NewOutboxItem)
    requires q.Valid()
    ensures
      var after := Enqueue(q, item);
      && after.Valid()
      && (forall id :: id in q.rows ==> id in after.rows && after.rows[id].notBefore <= q.rows[id].notBefore)
      && (q.Folding(item.effect) != {} ==> after.rows.Keys == q.rows.Keys)
      && exists id :: id in after.rows && after.rows[id].effect == item.effect
                      && after.rows[id].claim.None? && after.rows[id].notBefore <= item.notBefore
  {
    var after := Enqueue(q, item);
    var folding := q.Folding(item.effect);
    if folding != {} {
      assert |folding| > 0;
      var id :| id in q.rows && q.rows[id].TakesIn(item.effect);
      assert after.rows[id] == q.rows[id].Folded(item);
    } else {
      assert after.rows[q.next] == NewRow(item);
    }
  }

  // ---- Conservation: what became of every effect ever enqueued

  datatype Fate = Waiting(row: nat) | FoldedInto(rows: set<nat>) | Done(worker: WorkerId) | Abandoned(worker: WorkerId)

  datatype Ledger = Ledger(queue: Queue, issued: seq<NewOutboxItem>, fates: seq<Fate>)

  function Closed(fates: seq<Fate>, id: nat, end: Fate): seq<Fate> {
    seq(|fates|, i requires 0 <= i < |fates| => if fates[i] == Waiting(id) then end else fates[i])
  }

  function Record(l: Ledger, step: Step): Ledger {
    var queue := Next(l.queue, step);
    match step
    case Enqueued(item) =>
      var folding := l.queue.Folding(item.effect);
      Ledger(queue, l.issued + [item], l.fates + [if folding != {} then FoldedInto(folding) else Waiting(l.queue.next)])
    case Completed(worker, id) =>
      if Settle(l.queue, worker, id).Some? then l.(queue := queue, fates := Closed(l.fates, id, Done(worker)))
      else l.(queue := queue)
    case Failed(worker, id, None) =>
      if Settle(l.queue, worker, id).Some? then l.(queue := queue, fates := Closed(l.fates, id, Abandoned(worker)))
      else l.(queue := queue)
    case _ => l.(queue := queue)
  }

  function Audit(steps: seq<Step>): Ledger {
    if steps == [] then Ledger(EMPTY, [], [])
    else Record(Audit(steps[..|steps| - 1]), steps[|steps| - 1])
  }

  predicate SameTarget(row: Row, item: NewOutboxItem) {
    row.effect.Kind() == item.effect.Kind() && row.effect.Card() == item.effect.Card()
  }

  ghost predicate FateHolds(l: Ledger, t: nat)
    requires t < |l.fates| == |l.issued|
  {
    match l.fates[t]
    case Waiting(id) => id in l.queue.rows && SameTarget(l.queue.rows[id], l.issued[t])
    case FoldedInto(ids) =>
      ids != {} && forall id :: id in ids ==>
        id < l.queue.next && (id in l.queue.rows ==> SameTarget(l.queue.rows[id], l.issued[t]))
    case _ => true
  }

  // Every effect has one fate and it holds; every row is the one that exactly one effect waits in.
  ghost predicate Balanced(l: Ledger) {
    && l.queue.Valid()
    && |l.fates| == |l.issued|
    && (forall t :: 0 <= t < |l.fates| ==> FateHolds(l, t))
    && (forall id :: id in l.queue.rows ==> exists t :: 0 <= t < |l.fates| && l.fates[t] == Waiting(id))
    && (forall t, u :: 0 <= t < u < |l.fates| && l.fates[t].Waiting? ==> l.fates[t] != l.fates[u])
  }

  lemma SettledBalances(l: Ledger, worker: WorkerId, id: nat, end: Fate)
    requires Balanced(l) && Settle(l.queue, worker, id).Some? && (end.Done? || end.Abandoned?)
    ensures Balanced(l.(queue := Settle(l.queue, worker, id).value, fates := Closed(l.fates, id, end)))
  {
    var after := l.(queue := Settle(l.queue, worker, id).value, fates := Closed(l.fates, id, end));
    forall row | row in after.queue.rows
      ensures exists t :: 0 <= t < |after.fates| && after.fates[t] == Waiting(row)
    {
      var t :| 0 <= t < |l.fates| && l.fates[t] == Waiting(row);
      assert after.fates[t] == Waiting(row);
    }
    forall t | 0 <= t < |after.fates| ensures FateHolds(after, t) {
      assert FateHolds(l, t);
      if l.fates[t] == Waiting(id) {
        assert after.fates[t] == end;
      }
    }
  }

  lemma FoldKeepsTargets(q: Queue, item: NewOutboxItem)
    requires q.Valid() && q.Folding(item.effect) != {}
    ensures
      var after := Enqueue(q, item);
      && after.Valid() && after.next == q.next && after.rows.Keys == q.rows.Keys
      && (forall id :: id in q.rows ==>
            && after.rows[id].effect.Kind() == q.rows[id].effect.Kind()
            && after.rows[id].effect.Card() == q.rows[id].effect.Card())
      && (forall id :: id in q.Folding(item.effect) ==> id in after.rows && SameTarget(after.rows[id], item))
  {
  }

  lemma FoldedBalances(l: Ledger, item: NewOutboxItem)
    requires Balanced(l) && l.queue.Folding(item.effect) != {}
    ensures Balanced(Record(l, Enqueued(item)))
  {
    var folding := l.queue.Folding(item.effect);
    FoldKeepsTargets(l.queue, item);
    OneMoreFate(l, Enqueue(l.queue, item), item, FoldedInto(folding));
  }

  // Rows that keep their targets keep every fate.
  lemma FatesOutlastRows(l: Ledger, after: Ledger, t: nat)
    requires t < |l.fates| == |l.issued| && FateHolds(l, t)
    requires |after.fates| == |after.issued| && t < |after.fates|
    requires after.fates[t] == l.fates[t] && after.issued[t] == l.issued[t]
    requires after.queue.next == l.queue.next && after.queue.rows.Keys == l.queue.rows.Keys
    requires forall id :: id in after.queue.rows ==>
      && after.queue.rows[id].effect.Kind() == l.queue.rows[id].effect.Kind()
      && after.queue.rows[id].effect.Card() == l.queue.rows[id].effect.Card()
    ensures FateHolds(after, t)
  {
  }

  // Appending a fate that holds keeps the books balanced while every row keeps its target.
  lemma OneMoreFate(l: Ledger, queue: Queue, item: NewOutboxItem, fate: Fate)
    requires Balanced(l) && queue.Valid() && queue.next == l.queue.next && queue.rows.Keys == l.queue.rows.Keys
    requires forall id :: id in queue.rows ==>
      && queue.rows[id].effect.Kind() == l.queue.rows[id].effect.Kind()
      && queue.rows[id].effect.Card() == l.queue.rows[id].effect.Card()
    requires fate.FoldedInto? && fate.rows != {}
    requires forall id :: id in fate.rows ==> id in queue.rows && SameTarget(queue.rows[id], item)
    ensures Balanced(Ledger(queue, l.issued + [item], l.fates + [fate]))
  {
    var after := Ledger(queue, l.issued + [item], l.fates + [fate]);
    var n := |l.fates|;
    forall t | 0 <= t < |after.fates| ensures FateHolds(after, t) {
      if t < n {
        FatesOutlastRows(l, after, t);
      }
    }
    RowsStillWait(l, after);
    FoldedFateIsNoOther(l.fates, fate);
  }

  lemma FoldedFateIsNoOther(fates: seq<Fate>, fate: Fate)
    requires fate.FoldedInto?
    requires forall t, u :: 0 <= t < u < |fates| && fates[t].Waiting? ==> fates[t] != fates[u]
    ensures
      var more := fates + [fate];
      forall t, u :: 0 <= t < u < |more| && more[t].Waiting? ==> more[t] != more[u]
  {
  }

  // Every row still has its fate when more fates are appended.
  lemma RowsStillWait(l: Ledger, after: Ledger)
    requires l.fates <= after.fates && after.queue.rows.Keys == l.queue.rows.Keys
    requires forall id :: id in l.queue.rows ==> exists t :: 0 <= t < |l.fates| && l.fates[t] == Waiting(id)
    ensures forall id :: id in after.queue.rows ==> exists t :: 0 <= t < |after.fates| && after.fates[t] == Waiting(id)
  {
    forall id | id in after.queue.rows
      ensures exists t :: 0 <= t < |after.fates| && after.fates[t] == Waiting(id)
    {
      var t :| 0 <= t < |l.fates| && l.fates[t] == Waiting(id);
      assert after.fates[t] == Waiting(id);
    }
  }

  lemma NewRowKeepsFates(l: Ledger, item: NewOutboxItem, t: nat)
    requires Balanced(l) && l.queue.Folding(item.effect) == {} && t < |l.fates|
    ensures
      var after := Record(l, Enqueued(item));
      && |after.fates| == |after.issued| == |l.fates| + 1
      && FateHolds(after, t) && after.fates[t] == l.fates[t] && l.fates[t] != Waiting(l.queue.next)
  {
    assert FateHolds(l, t);
  }

  lemma NewRowBalances(l: Ledger, item: NewOutboxItem)
    requires Balanced(l) && l.queue.Folding(item.effect) == {}
    ensures Balanced(Record(l, Enqueued(item)))
  {
    var after := Record(l, Enqueued(item));
    forall t | 0 <= t < |l.fates|
      ensures FateHolds(after, t) && after.fates[t] == l.fates[t] && l.fates[t] != Waiting(l.queue.next)
    {
      NewRowKeepsFates(l, item, t);
    }
    LastFateHolds(l, item);
    OneMoreWaiting(l, after);
  }

  lemma LastFateHolds(l: Ledger, item: NewOutboxItem)
    requires Balanced(l) && l.queue.Folding(item.effect) == {}
    ensures
      var after := Record(l, Enqueued(item));
      && |after.fates| == |after.issued| == |l.fates| + 1 && after.fates[|l.fates|] == Waiting(l.queue.next)
      && FateHolds(after, |l.fates|) && after.queue.Valid()
      && after.queue.rows.Keys == l.queue.rows.Keys + {l.queue.next}
  {
  }

  // The books still balance when one row and the one fate waiting in it came.
  lemma OneMoreWaiting(l: Ledger, after: Ledger)
    requires Balanced(l) && after.queue.Valid() && |after.fates| == |after.issued| == |l.fates| + 1
    requires forall t :: 0 <= t < |after.fates| ==> FateHolds(after, t)
    requires forall t :: 0 <= t < |l.fates| ==> after.fates[t] == l.fates[t] && l.fates[t] != Waiting(l.queue.next)
    requires after.fates[|l.fates|] == Waiting(l.queue.next)
    requires after.queue.rows.Keys == l.queue.rows.Keys + {l.queue.next}
    ensures Balanced(after)
  {
    forall id | id in after.queue.rows
      ensures exists t :: 0 <= t < |after.fates| && after.fates[t] == Waiting(id)
    {
      if id in l.queue.rows {
        var t :| 0 <= t < |l.fates| && l.fates[t] == Waiting(id);
        assert after.fates[t] == Waiting(id);
      } else {
        assert after.fates[|l.fates|] == Waiting(id);
      }
    }
  }

  lemma MarkedBalances(l: Ledger, queue: Queue)
    requires Balanced(l) && queue.next == l.queue.next && queue.rows.Keys == l.queue.rows.Keys
    requires forall id :: id in queue.rows ==>
      && queue.rows[id].effect == l.queue.rows[id].effect
      && queue.rows[id].dedupeKey == l.queue.rows[id].dedupeKey
    ensures Balanced(l.(queue := queue))
  {
    forall t | 0 <= t < |l.fates| ensures FateHolds(l.(queue := queue), t) {
      assert FateHolds(l, t);
    }
  }

  lemma RecordingBalances(l: Ledger, step: Step)
    requires Balanced(l)
    ensures Balanced(Record(l, step)) && Record(l, step).queue == Next(l.queue, step)
  {
    match step
    case Enqueued(item) =>
      if l.queue.Folding(item.effect) != {} {
        FoldedBalances(l, item);
      } else {
        NewRowBalances(l, item);
      }
    case Claimed(_, _, _, _, _) => MarkedBalances(l, Next(l.queue, step));
    case Reclaimed(_, _) => MarkedBalances(l, Next(l.queue, step));
    case Completed(worker, id) =>
      if Settle(l.queue, worker, id).Some? {
        SettledBalances(l, worker, id, Done(worker));
      }
    case Failed(worker, id, retryAt) => FailuresBalance(l, worker, id, retryAt);
  }

  lemma FailuresBalance(l: Ledger, worker: WorkerId, id: nat, retryAt: Option<int>)
    requires Balanced(l)
    ensures Balanced(Record(l, Failed(worker, id, retryAt)))
    ensures Record(l, Failed(worker, id, retryAt)).queue == Next(l.queue, Failed(worker, id, retryAt))
  {
    if retryAt.Some? {
      MarkedBalances(l, Next(l.queue, Failed(worker, id, retryAt)));
    } else if Settle(l.queue, worker, id).Some? {
      SettledBalances(l, worker, id, Abandoned(worker));
    }
  }

  // Conservation over every run of the queue.
  lemma {:induction false} EveryEffectIsAccountedFor(steps: seq<Step>)
    ensures Balanced(Audit(steps)) && Audit(steps).queue == After(EMPTY, steps)
  {
    if steps != [] {
      EveryEffectIsAccountedFor(steps[..|steps| - 1]);
      RecordingBalances(Audit(steps[..|steps| - 1]), steps[|steps| - 1]);
    }
  }

  // A fate other than waiting is final.
  lemma {:induction false} FatesAreFinal(steps: seq<Step>, more: seq<Step>, t: nat)
    requires t < |Audit(steps).fates| && !Audit(steps).fates[t].Waiting?
    ensures t < |Audit(steps + more).fates| && Audit(steps + more).fates[t] == Audit(steps).fates[t]
    decreases |more|
  {
    if more == [] {
      assert steps + more == steps;
    } else {
      FatesAreFinal(steps, more[..|more| - 1], t);
      assert (steps + more)[..|steps + more| - 1] == steps + more[..|more| - 1];
    }
  }

  // ---- Exclusion

  type Pool = map<WorkerId, nat>

  // Every claim is made by a worker of one pool, from the slice of the lanes that is its own.
  ghost predicate LaneOwning(steps: seq<Step>, pool: Pool, of: nat) {
    forall i :: 0 <= i < |steps| && steps[i].Claimed? ==>
      steps[i].worker in pool && steps[i].lane == Some(NewLaneAssignment(pool[steps[i].worker], of))
  }

  lemma {:induction false} ClaimsStayInTheirLanes(steps: seq<Step>, pool: Pool, of: nat)
    requires Run(EMPTY, steps) && LaneOwning(steps, pool, of) && of >= 1
    ensures
      var q := After(EMPTY, steps);
      && q.Valid()
      && forall id :: id in q.rows && q.rows[id].claim.Some? ==>
           && q.rows[id].claim.value.worker in pool
           && q.rows[id].LaneOf() % of == pool[q.rows[id].claim.value.worker] % of
  {
    if steps != [] {
      var step := steps[|steps| - 1];
      ClaimsStayInTheirLanes(steps[..|steps| - 1], pool, of);
      if step.Claimed? {
        assert steps[|steps| - 1].worker in pool;
      }
    }
  }

  // Two workers of one pool never hold effects with the same dedupe key at the same time.
  lemma WorkersNeverShareAKey(steps: seq<Step>, pool: Pool, of: nat, a: nat, b: nat)
    requires Run(EMPTY, steps) && LaneOwning(steps, pool, of) && of >= 1
    requires forall w, v :: w in pool && v in pool && w != v ==> pool[w] % of != pool[v] % of
    requires
      var rows := After(EMPTY, steps).rows;
      && a in rows && b in rows && rows[a].claim.Some? && rows[b].claim.Some?
      && rows[a].claim.value.worker != rows[b].claim.value.worker
    ensures After(EMPTY, steps).rows[a].LaneOf() % of != After(EMPTY, steps).rows[b].LaneOf() % of
    ensures After(EMPTY, steps).rows[a].dedupeKey != After(EMPTY, steps).rows[b].dedupeKey
  {
    ClaimsStayInTheirLanes(steps, pool, of);
  }

  // Exclusion is by key, not by card. A card that gives its key up is owed effects under two keys,
  // the live one of the rows already queued and the retired one of those to come. When the two lie
  // in the lanes of two workers, both can be acting on the card at once.
  lemma TwoKeysTwoWorkers(card: CardId, scope: KeyScope, of: nat, a: WorkerId, b: WorkerId) returns (steps: seq<Step>)
    requires WellFormed(scope) && of >= 1 && a != b
    requires
      Lane(KeyOf(scope), OUTBOX_LANES) % of != Lane(SupersededKey(card, KeyOf(scope)), OUTBOX_LANES) % of
    ensures Run(EMPTY, steps)
    ensures
      var live, retired := KeyOf(scope), SupersededKey(card, KeyOf(scope));
      && LaneOwning(steps, map[a := Lane(live, OUTBOX_LANES) % of, b := Lane(retired, OUTBOX_LANES) % of], of)
      && var rows := After(EMPTY, steps).rows;
      && 0 in rows && rows[0].HeldBy(a) && rows[0].effect.Card() == Some(card) && rows[0].dedupeKey == live
      && 1 in rows && rows[1].HeldBy(b) && rows[1].effect.Card() == Some(card) && rows[1].dedupeKey == retired
  {
    var live, retired := KeyOf(scope), SupersededKey(card, KeyOf(scope));
    var one, two := NewOutboxItem(EditCard(card), live, 0), NewOutboxItem(EditCard(card), retired, 0);
    var x := NewLaneAssignment(Lane(live, OUTBOX_LANES) % of, of);
    var y := NewLaneAssignment(Lane(retired, OUTBOX_LANES) % of, of);
    OwnLane(one, of);
    OwnLane(two, of);
    steps := TwoClaims(one, two, a, Some(x), b, Some(y));
  }

  lemma OwnLane(item: NewOutboxItem, of: nat)
    requires of >= 1
    ensures Owns(Some(NewLaneAssignment(Lane(item.dedupeKey, OUTBOX_LANES) % of, of)), NewRow(item))
  {
    RemaindersStay(Lane(item.dedupeKey, OUTBOX_LANES), of);
  }

  lemma RemaindersStay(n: nat, of: nat)
    requires of >= 1
    ensures n % of < of && n % of % of == n % of
  {
  }

  // One item enqueued and claimed, then another of the same kind and card, by another worker.
  lemma TwoClaims(
    one: NewOutboxItem, two: NewOutboxItem,
    a: WorkerId, x: Option<LaneAssignment>, b: WorkerId, y: Option<LaneAssignment>)
    returns (steps: seq<Step>)
    requires Owns(x, NewRow(one)) && Owns(y, NewRow(two)) && one.notBefore <= 0 && two.notBefore <= 0
    ensures steps == [Enqueued(one), Claimed(a, x, 1, 0, {0}), Enqueued(two), Claimed(b, y, 1, 0, {1})]
    ensures Run(EMPTY, steps)
    ensures
      var rows := After(EMPTY, steps).rows;
      && 0 in rows && rows[0].HeldBy(a) && rows[0].effect == one.effect && rows[0].dedupeKey == one.dedupeKey
      && 1 in rows && rows[1].HeldBy(b) && rows[1].effect == two.effect && rows[1].dedupeKey == two.dedupeKey
  {
    var held := NewRow(one).(claim := Some(Claim(a, 0)), attempts := 1);
    var q1 := Queue(map[0 := NewRow(one)], 1);
    var q2 := Queue(map[0 := held], 1);
    var q3 := Queue(map[0 := held, 1 := NewRow(two)], 2);
    assert Enqueue(EMPTY, one) == q1;
    assert Take(q1, a, 0, {0}) == q2;
    assert Enqueue(q2, two) == q3 by {
      assert q2.Folding(two.effect) == {};
    }
    SoleClaim(q1, x, 0);
    SoleClaim(q3, y, 1);
    steps := [Enqueued(one), Claimed(a, x, 1, 0, {0}), Enqueued(two), Claimed(b, y, 1, 0, {1})];
    FourSteps(steps[0], steps[1], steps[2], steps[3]);
  }

  lemma SoleClaim(q: Queue, lane: Option<LaneAssignment>, id: nat)
    requires id in q.rows && Claimable(q.rows[id], lane, 0)
    requires forall other :: other in q.rows && other != id ==> q.rows[other].claim.Some?
    ensures IsClaim(q, lane, 1, 0, {id})
  {
    assert ClaimableIds(q, lane, 0) == {id};
  }

  lemma FourSteps(s0: Step, s1: Step, s2: Step, s3: Step)
    ensures After(EMPTY, [s0, s1, s2, s3]) == Next(Next(Next(Next(EMPTY, s0), s1), s2), s3)
    ensures Run(EMPTY, [s0, s1, s2, s3]) <==>
      && Allowed(EMPTY, s0) && Allowed(Next(EMPTY, s0), s1)
      && Allowed(Next(Next(EMPTY, s0), s1), s2) && Allowed(Next(Next(Next(EMPTY, s0), s1), s2), s3)
  {
    assert [s0, s1, s2, s3][..3] == [s0, s1, s2];
    assert [s0, s1, s2][..2] == [s0, s1];
    assert [s0, s1][..1] == [s0];
    assert [s0][..0] == [];
    assert After(EMPTY, [s0]) == Next(EMPTY, s0);
    assert After(EMPTY, [s0, s1]) == Next(Next(EMPTY, s0), s1);
    assert After(EMPTY, [s0, s1, s2]) == Next(Next(Next(EMPTY, s0), s1), s2);
    assert Run(EMPTY, [s0]) <==> Allowed(EMPTY, s0);
    assert Run(EMPTY, [s0, s1]) <==> Allowed(EMPTY, s0) && Allowed(Next(EMPTY, s0), s1);
  }
}
