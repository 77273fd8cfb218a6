/** How long an effect that failed is left alone before anybody tries it again. */
module Pacing {
  import opened Wrappers
  import opened Effects
  import opened Decide
  import Outbox
  import opened Dispatch
  import opened Controls

  // Writing a failure down puts the row back for its turn, as often as it may be tried again.
  lemma RecordingWaitsItsTurn(w: World, now: int)
    requires w.job.Some? && w.job.value.phase.Refused? && w.job.value.phase.failure.Retry?
    requires var id := w.job.value.id; id in w.queue.rows && w.queue.rows[id].HeldBy(w.worker)
    ensures
      var job, rows := w.job.value, Record(w, now).queue.rows;
      && (job.item.attempts >= 10 <==> job.id !in rows)
      && (job.id in rows ==>
            && rows[job.id] == w.queue.rows[job.id].(claim := None, notBefore := rows[job.id].notBefore)
            && WaitsItsTurn(rows[job.id].notBefore - now, job.item.attempts, job.phase.failure.after))
  {
    RetriesWaitTheirTurn(w.job.value.phase.failure.after, w.job.value.item.attempts);
  }

  // A card that cannot be read is looked at again after five seconds, or when the row's turn comes if that is
  // later.
  lemma UnreadCardsWaitTheirTurn(h: RenderHash, w: World, now: int)
    requires Can(w, ReadFailed) && w.job.value.item.attempts < 10
    requires var id := w.job.value.id; id in w.queue.rows && w.queue.rows[id].HeldBy(w.worker)
    ensures
      var job, rows := w.job.value, Record(Next(h, w, ReadFailed), now).queue.rows;
      job.id in rows && WaitsItsTurn(rows[job.id].notBefore - now, job.item.attempts, 5)
  {
    RecordingWaitsItsTurn(Next(h, w, ReadFailed), now);
  }

  // ---- What the worker has in hand counts the tries its row counts

  predicate CountsAlike(w: World, id: nat, item: Outbox.Row) {
    id in w.queue.rows && w.queue.rows[id].HeldBy(w.worker) ==> w.queue.rows[id].attempts == item.attempts
  }

  ghost predicate Counted(w: World) {
    && w.queue.Valid()
    && (w.job.Some? ==> CountsAlike(w, w.job.value.id, w.job.value.item) && w.job.value.id < w.queue.next)
    && forall i :: 0 <= i < |w.batch| ==> CountsAlike(w, w.batch[i].0, w.batch[i].1) && w.batch[i].0 < w.queue.next
  }

  // Rows that are held, and rows nothing folds into, are left alone by everything that is queued.
  ghost predicate Left(before: Outbox.Queue, after: Outbox.Queue) {
    && after.Valid() && before.next <= after.next
    && (forall id :: id in before.rows ==>
          && id in after.rows && after.rows[id].attempts == before.rows[id].attempts
          && after.rows[id].claim == before.rows[id].claim
          && (before.rows[id].claim.Some? || !before.rows[id].effect.IsCoalescable() ==> after.rows[id] == before.rows[id]))
    && (forall id :: id in after.rows && id !in before.rows ==> id >= before.next && after.rows[id].claim.None?)
  }

  lemma EnqueueLeaves(q: Outbox.Queue, item: NewOutboxItem)
    requires q.Valid()
    ensures Left(q, Outbox.Enqueue(q, item))
  {
    forall id | id in q.rows && q.rows[id].TakesIn(item.effect) ensures q.rows[id].effect.IsCoalescable() {
      Outbox.SameKindFoldsAlike(item.effect, q.rows[id].effect);
    }
  }

  lemma {:induction false} EnqueueAllLeaves(q: Outbox.Queue, items: seq<NewOutboxItem>)
    requires q.Valid()
    ensures Left(q, Outbox.EnqueueAll(q, items))
  {
    if items != [] {
      var rest := items[..|items| - 1];
      EnqueueAllLeaves(q, rest);
      EnqueueLeaves(Outbox.EnqueueAll(q, rest), items[|items| - 1]);
    }
  }

  lemma RecordsAreCounted(w: World, now: int)
    requires Counted(w) && Can(w, Recorded(now))
    ensures Counted(Record(w, now)) && w.queue.next == Record(w, now).queue.next
  {
    SettledTouchesOneRow(w.queue, w.worker, w.job.value, now);
    RecordKeepsTheRest(w, now);
  }

  lemma NextIsCounted(h: RenderHash, w: World, step: Step)
    requires Counted(w) && Can(w, step)
    ensures Counted(Next(h, w, step)) && w.queue.next <= Next(h, w, step).queue.next
  {
    match step
    case Decided(at) => EnqueueAllLeaves(w.queue, w.plan.value.update.effects);
    case Asked(item) => EnqueueLeaves(w.queue, item);
    case Claimed(ids, _, now) => BatchCopies(Outbox.Take(w.queue, w.worker, now, Outbox.IdSet(ids)), ids);
    case Recorded(now) => RecordsAreCounted(w, now);
    case _ =>
  }

  // ---- Between two claims of one row

  predicate Takes(step: Step, id: nat) {
    step.Claimed? && id in step.ids
  }

  // The instant of a step, for those that look at the clock.
  function TimeOf(step: Step, clock: int): int {
    match step
    case Claimed(_, _, now) => now
    case Recorded(now) => now
    case Reclaimed(_, at) => at
    case _ => clock
  }

  // Clocks do not go back, and claims are taken back only once they are `lease` old.
  predicate Timed(steps: seq<Step>, lease: int, clock: int)
    decreases |steps|
  {
    steps == []
    || (clock <= TimeOf(steps[0], clock) && (steps[0].Reclaimed? ==> steps[0].at - steps[0].olderThan >= lease)
        && Timed(steps[1..], lease, TimeOf(steps[0], clock)))
  }

  // What is queued meanwhile does not fold into the row.
  predicate Unfolded(effect: Effect, step: Step) {
    effect.IsCoalescable() ==> !step.Asked? && !step.Decided?
  }

  // Held since `since`, or put back to wait.
  predicate Cools(row: Outbox.Row, effect: Effect, tries: nat, since: int, lease: int) {
    && row.effect == effect && row.attempts == tries
    && (if row.claim.Some? then row.claim.value.at == since
        else row.notBefore >= since + Min(lease, Doubling(tries) * SECOND))
  }

  ghost predicate Cooling(w: World, id: nat, effect: Effect, tries: nat, since: int, lease: int) {
    Counted(w) && id < w.queue.next && (id in w.queue.rows ==> Cools(w.queue.rows[id], effect, tries, since, lease))
  }

  lemma ClaimsStartCooling(h: RenderHash, w: World, step: Step, id: nat, lease: int)
    requires Counted(w) && Can(w, step) && Takes(step, id)
    ensures id in w.queue.rows
    ensures Cooling(Next(h, w, step), id, w.queue.rows[id].effect, w.queue.rows[id].attempts + 1, step.now, lease)
  {
    NextIsCounted(h, w, step);
    assert id in Outbox.ClaimableIds(w.queue, step.lane, step.now);
  }

  lemma RecordsCool(w: World, id: nat, effect: Effect, tries: nat, since: int, lease: int, now: int)
    requires Cooling(w, id, effect, tries, since, lease) && Can(w, Recorded(now)) && since <= now
    ensures id in Record(w, now).queue.rows ==> Cools(Record(w, now).queue.rows[id], effect, tries, since, lease)
  {
    var job := w.job.value;
    SettledTouchesOneRow(w.queue, w.worker, job, now);
    RecordKeepsTheRest(w, now);
    if job.id == id && id in w.queue.rows && w.queue.rows[id].HeldBy(w.worker) && id in Record(w, now).queue.rows {
      RecordingWaitsItsTurn(w, now);
    }
  }

  lemma StepsCool(h: RenderHash, w: World, step: Step, id: nat, effect: Effect, tries: nat, since: int, lease: int, clock: int)
    requires Cooling(w, id, effect, tries, since, lease) && Can(w, step) && !Takes(step, id) && Unfolded(effect, step)
    requires since <= clock <= TimeOf(step, clock)
    requires step.Reclaimed? ==> step.at - step.olderThan >= lease
    ensures Cooling(Next(h, w, step), id, effect, tries, since, lease)
  {
    NextIsCounted(h, w, step);
    match step
    case Decided(at) => EnqueueAllLeaves(w.queue, w.plan.value.update.effects);
    case Asked(item) => EnqueueLeaves(w.queue, item);
    case Recorded(now) => RecordsCool(w, id, effect, tries, since, lease, now);
    case _ =>
  }

  lemma {:induction false} RunsCool(
    h: RenderHash, w: World, steps: seq<Step>, end: World, id: nat, effect: Effect, tries: nat, since: int, lease: int,
    clock: int)
    returns (late: int)
    requires Cooling(w, id, effect, tries, since, lease) && Reaches(h, w, steps, end) && Timed(steps, lease, clock)
    requires since <= clock && forall s :: s in steps ==> !Takes(s, id) && Unfolded(effect, s)
    ensures Cooling(end, id, effect, tries, since, lease) && since <= late
    decreases steps
  {
    if steps == [] {
      late := clock;
    } else {
      assert steps[0] in steps;
      StepsCool(h, w, steps[0], id, effect, tries, since, lease, clock);
      late := RunsCool(
        h, Next(h, w, steps[0]), steps[1..], end, id, effect, tries, since, lease, TimeOf(steps[0], clock));
    }
  }

  // A row claimed, and claimed again: in between, its turn has passed or its lease.
  lemma NextTryWaits(
    h: RenderHash, w: World, first: Step, between: seq<Step>, again: World, next: Step, id: nat, lease: int)
    requires Counted(w) && Can(w, first) && Takes(first, id)
    requires Reaches(h, Next(h, w, first), between, again) && Timed(between, lease, first.now)
    requires Can(again, next) && Takes(next, id)
    requires id in w.queue.rows && forall s :: s in between ==> !Takes(s, id) && Unfolded(w.queue.rows[id].effect, s)
    ensures next.now - first.now >= Min(lease, Doubling(w.queue.rows[id].attempts + 1) * SECOND)
  {
    ClaimsStartCooling(h, w, first, id, lease);
    var row := w.queue.rows[id];
    var late := RunsCool(
      h, Next(h, w, first), between, again, id, row.effect, row.attempts + 1, first.now, lease, first.now);
    assert id in Outbox.ClaimableIds(again.queue, next.lane, next.now);
  }

  // ---- Positions in a run

  // The stretch of a run between two positions is a run, and as well timed.
  lemma {:induction false} PrefixReaches(h: RenderHash, w: World, steps: seq<Step>, end: World, k: nat)
    requires Reaches(h, w, steps, end) && k <= |steps|
    ensures Reaches(h, w, steps[..k], WorldAt(h, w, steps, k))
    decreases k
  {
    if k > 0 {
      PrefixReaches(h, Next(h, w, steps[0]), steps[1..], end, k - 1);
      assert steps[..k][1..] == steps[1..][..k - 1];
    }
  }

  lemma {:induction false} PrefixIsTimed(steps: seq<Step>, lease: int, clock: int, k: nat)
    requires Timed(steps, lease, clock) && k <= |steps|
    ensures Timed(steps[..k], lease, clock)
    decreases k
  {
    if k > 0 {
      PrefixIsTimed(steps[1..], lease, TimeOf(steps[0], clock), k - 1);
      assert steps[..k][1..] == steps[1..][..k - 1];
    }
  }

  lemma {:induction false} CountedAt(h: RenderHash, w: World, steps: seq<Step>, end: World, lease: int, clock: int, k: nat)
    returns (late: int)
    requires Counted(w) && Reaches(h, w, steps, end) && Timed(steps, lease, clock) && k <= |steps|
    ensures Counted(WorldAt(h, w, steps, k)) && Timed(steps[k..], lease, late)
    decreases k
  {
    if k == 0 {
      late := clock;
    } else {
      NextIsCounted(h, w, steps[0]);
      late := CountedAt(h, Next(h, w, steps[0]), steps[1..], end, lease, TimeOf(steps[0], clock), k - 1);
      assert steps[1..][k - 1..] == steps[k..];
    }
  }

  lemma NextWorld(h: RenderHash, w: World, steps: seq<Step>, end: World, k: nat)
    requires Reaches(h, w, steps, end) && k < |steps|
    ensures Can(WorldAt(h, w, steps, k), steps[k])
    ensures WorldAt(h, w, steps, k + 1) == Next(h, WorldAt(h, w, steps, k), steps[k])
  {
    WorldsShift(h, w, steps, end, k);
    assert WorldAt(h, WorldAt(h, w, steps, k), steps[k..], 1) == Next(h, WorldAt(h, w, steps, k), steps[k]);
  }

  lemma {:induction false} StretchIsARun(h: RenderHash, w: World, steps: seq<Step>, end: World, i: nat, j: nat)
    requires Reaches(h, w, steps, end) && i <= j <= |steps|
    ensures Reaches(h, WorldAt(h, w, steps, i), steps[i..j], WorldAt(h, w, steps, j))
    decreases i
  {
    if i == 0 {
      PrefixReaches(h, w, steps, end, j);
      assert steps[0..j] == steps[..j];
    } else {
      StretchIsARun(h, Next(h, w, steps[0]), steps[1..], end, i - 1, j - 1);
      assert steps[1..][i - 1..j - 1] == steps[i..j];
    }
  }

  lemma StretchIsTimed(steps: seq<Step>, lease: int, clock: int, i: nat, j: nat)
    requires i < j <= |steps| && Timed(steps[i..], lease, clock)
    ensures Timed(steps[i + 1..j], lease, TimeOf(steps[i], clock))
  {
    assert steps[i..][1..] == steps[i + 1..] && steps[i..][0] == steps[i];
    PrefixIsTimed(steps[i + 1..], lease, TimeOf(steps[i], clock), j - i - 1);
    assert steps[i + 1..][..j - i - 1] == steps[i + 1..j];
  }

  // A run cut at two steps: the worlds they are taken in, and what lies between.
  lemma Between(
    h: RenderHash, w: World, steps: seq<Step>, end: World, lease: int, clock: int, i: nat, j: nat)
    returns (before: World, again: World, late: int)
    requires Counted(w) && Reaches(h, w, steps, end) && Timed(steps, lease, clock) && i < j < |steps|
    ensures before == WorldAt(h, w, steps, i) && again == WorldAt(h, w, steps, j)
    ensures Counted(before) && Can(before, steps[i]) && Can(again, steps[j])
    ensures Reaches(h, Next(h, before, steps[i]), steps[i + 1..j], again)
    ensures Timed(steps[i + 1..j], lease, TimeOf(steps[i], late))
  {
    before, again := WorldAt(h, w, steps, i), WorldAt(h, w, steps, j);
    late := CountedAt(h, w, steps, end, lease, clock, i);
    NextWorld(h, w, steps, end, i);
    NextWorld(h, w, steps, end, j);
    StretchIsARun(h, w, steps, end, i + 1, j);
    StretchIsTimed(steps, lease, late, i, j);
  }

  // Over any run of a card from its start: between the claim that begins the n-th try of an effect and the
  // claim after it lie at least 2^n seconds, or 300 from the ninth try on, unless the claim was left to
  // expire. Something that folds into a waiting row is news, and may bring its turn forward.
  lemma TriesAreSpaced(
    h: RenderHash, w: World, mention: bool, steps: seq<Step>, end: World, lease: int, clock: int, i: nat, j: nat, id: nat)
    requires Start(w, mention) && Reaches(h, w, steps, end) && Timed(steps, lease, clock)
    requires i < j < |steps| && Takes(steps[i], id) && Takes(steps[j], id)
    requires forall s :: s in steps[i + 1..j] ==> !Takes(s, id)
    requires id in WorldAt(h, w, steps, i).queue.rows
    requires forall s :: s in steps[i + 1..j] ==> Unfolded(WorldAt(h, w, steps, i).queue.rows[id].effect, s)
    ensures
      var tries := WorldAt(h, w, steps, i).queue.rows[id].attempts + 1;
      steps[j].now - steps[i].now >= Min(lease, Doubling(tries) * SECOND)
  {
    var before, again, late := Between(h, w, steps, end, lease, clock, i, j);
    NextTryWaits(h, before, steps[i], steps[i + 1..j], again, steps[j], id, lease);
  }
}
