/** One card, its effects and the worker that owns its lane, step by step. */
module Dispatch {
  import opened Wrappers
  import opened States
  import opened Labels
  import opened DedupeKeys
  import opened Alerts
  import opened Routing
  import opened Effects
  import opened Decide
  import opened Cards
  import opened CardFacts
  import opened Outbox

  const MAX_ATTEMPTS: nat := 10
  const MAX_BACKOFF_SECS: nat := 300
  const READ_RETRY_SECS: nat := 5

  // What the renderer draws and hashes. `extra` is what a card draws besides its row and its alert:
  // the acknowledgement, the silence, the mute, the digest notice. The controls under a card go by
  // its state, so a view settles which ones are drawn, but not that they are still there.
  datatype View = View(state: NotificationState, fingerprint: Fingerprint, alert: int, extra: int)

  // The renderer's hash of what it drew.
  type RenderHash = View -> int

  // Discord's side of the card. `stripped` says that the controls drawn with the view are gone.
  datatype Post = Absent | Posted(shown: View, stripped: bool, archived: bool, locked: bool) {
    predicate Archived() {
      Posted? && archived
    }
  }

  datatype Failure = Retry(after: nat) | Drop

  // How far a worker is with one item. A refusal remembers whether the effect was still wanted:
  // dropping one that no longer applies loses nothing.
  datatype Phase =
    | Fresh
    | SawCard(card: Notification)
    | Calling(card: Notification, view: Option<View>)
    | Finished(report: Report)
    | Refused(failure: Failure, wanted: bool)

  datatype Job = Job(id: nat, item: Row, phase: Phase)

  datatype Plan = Plan(before: Notification, update: CardUpdate)

  // `lapsed`, `lostEdit`, `torn`, `stale` and `gone` are history, kept to say what went wrong:
  // an opening was given up since the card last came back, an edit was given up since the last one
  // was queued, a change to the post was never recorded, the view moved since an edit was last
  // queued, and the message was deleted.
  datatype World = World(
    card: Notification,
    queue: Queue,
    post: Post,
    alerts: map<Fingerprint, int>,
    extra: int,
    plan: Option<Plan>,
    worker: WorkerId,
    batch: seq<(nat, Row)>,
    job: Option<Job>,
    lapsed: bool,
    lostEdit: bool,
    torn: bool,
    stale: bool,
    gone: bool)
  {
    function Draw(card: Notification): Option<View> {
      if card.fingerprint in alerts
      then Some(View(card.state, card.fingerprint, alerts[card.fingerprint], extra))
      else None
    }

    function Current(): Option<View> {
      Draw(card)
    }

    function Live(): bool {
      card.state.HoldsThreadOpen()
    }
  }

  function Min(a: int, b: int): int {
    if a <= b then a else b
  }

  function Max(a: int, b: int): int {
    if a >= b then a else b
  }

  function PowerOfTwo(n: nat): nat {
    if n == 0 then 1 else 2 * PowerOfTwo(n - 1)
  }

  // The wait after a failed attempt: doubling, capped.
  function BackoffSecs(attempts: nat): int {
    Min(PowerOfTwo(Min(attempts, 20)), MAX_BACKOFF_SECS)
  }

  lemma {:induction false} PowersGrow(a: nat, b: nat)
    requires a <= b
    ensures PowerOfTwo(a) <= PowerOfTwo(b)
    decreases b
  {
    if a < b {
      PowersGrow(a, b - 1);
    }
  }

  // Up to eight attempts the wait doubles; from the ninth on it is the cap.
  lemma BackoffDoublesToTheCap(attempts: nat)
    ensures attempts <= 8 ==> BackoffSecs(attempts) == PowerOfTwo(attempts)
    ensures attempts >= 9 ==> BackoffSecs(attempts) == MAX_BACKOFF_SECS
  {
    assert PowerOfTwo(4) == 16;
    assert PowerOfTwo(8) == 256;
    assert PowerOfTwo(9) == 512;
    if attempts <= 8 {
      PowersGrow(attempts, 8);
    } else {
      PowersGrow(9, Min(attempts, 20));
    }
  }

  // The seconds a row waits after its `attempts`-th failure if the failure asks for less.
  function Doubling(attempts: nat): nat {
    if attempts <= 8 then PowerOfTwo(attempts) else 300
  }

  // No less than the failure asked for, no less than the doubling wait, and no more than the larger.
  predicate WaitsItsTurn(wait: int, attempts: nat, asked: nat) {
    && wait >= asked * SECOND && wait >= Doubling(attempts) * SECOND
    && (wait == asked * SECOND || wait == Doubling(attempts) * SECOND)
  }

  lemma RetriesWaitTheirTurn(asked: nat, attempts: nat)
    ensures WaitsItsTurn(Max(asked, BackoffSecs(attempts)) * SECOND, attempts, asked)
  {
    BackoffDoublesToTheCap(attempts);
  }

  datatype Answer =
    | Done(reopened: bool, message: nat, thread: Option<nat>)
    | Skipped
    | Failed(failure: Failure, happened: bool, reopened: bool)
    | UnknownMessage(released: bool)

  datatype Step =
    | Planned(delta: AlertDelta, route: Route, ignored: bool, acknowledged: bool, siblings: seq<Alert>,
              settings: DecisionSettings, now: int)
    | Decided(at: int)
    | Acked(revoke: bool, held: bool, extra: int, at: int)
    | Touched(alerts: map<Fingerprint, int>, extra: int)
    | Asked(item: NewOutboxItem)
    | Claimed(ids: seq<nat>, lane: Option<LaneAssignment>, now: int)
    | Begun
    | Read
    | ReadFailed
    | Drew
    | Called(answer: Answer)
    | Recorded(now: int)
    | Unrecorded
    | Reclaimed(olderThan: int, at: int)
    | Crashed(worker: WorkerId)

  // ---- The worker's own moves

  predicate Draws(effect: Effect) {
    effect.PostCard? || effect.EditCard? || effect.ResyncCard?
  }

  predicate Redraws(effect: Effect, card: CardId) {
    effect == EditCard(card) || effect == ResyncCard(card)
  }

  // What reading the card settles, before anything is drawn or sent.
  function AfterRead(effect: Effect, card: Notification): Phase {
    match effect
    case PostCard(_, _) => SawCard(card)
    case EditCard(_) => SawCard(card)
    case ResyncCard(_) => SawCard(card)
    case SetFlags(_, _, _, _, planned) =>
      if planned.Some? && planned.value.HoldsThreadOpen() != card.state.HoldsThreadOpen() then Finished(NOTHING)
      else if card.thread.None? then Refused(Drop, false)
      else Calling(card, None)
    case SetTags(_) => if card.thread.None? then Refused(Drop, false) else Calling(card, None)
    case SetPinned(_, _) => if card.thread.None? then Refused(Drop, false) else Calling(card, None)
    case ThreadNote(_, _, _, _) => if card.thread.None? then Refused(Drop, false) else Calling(card, None)
    case OpenThread(_) => if card.message.None? then Refused(Drop, false) else Calling(card, None)
    case DisableComponents(_) => if card.message.None? then Refused(Drop, false) else Calling(card, None)
    case Escalate(_) => if !card.state.Firing? then Refused(Drop, false) else Calling(card, None)
    case _ => Calling(card, None)
  }

  // What drawing settles: nothing to draw, nothing to draw on, or nothing new to show.
  function AfterDraw(h: RenderHash, effect: Effect, card: Notification, view: Option<View>): Phase {
    if view.None? then Refused(Drop, false)
    else if effect.PostCard? then
      if card.IsPosted() then Refused(Drop, false) else Calling(card, view)
    else if card.message.None? then Refused(Drop, false)
    else if effect.EditCard? && !card.NeedsEdit(h(view.value)) then Finished(NOTHING)
    else Calling(card, view)
  }

  // What the call leaves on Discord.
  function Sent(post: Post, effect: Effect, view: Option<View>, reopened: bool): Post {
    if effect.PostCard? && view.Some? then Posted(view.value, false, false, false)
    else if post.Absent? then post
    else
      var open := if reopened then post.(archived := false, locked := false) else post;
      match effect
      case EditCard(_) => if view.Some? then open.(shown := view.value, stripped := false) else open
      case ResyncCard(_) => if view.Some? then open.(shown := view.value, stripped := false) else open
      case SetFlags(_, archived, locked, _, _) => post.(archived := archived, locked := locked)
      case DisableComponents(_) => open.(stripped := true)
      case _ => open
  }

  // A thread reopened on the way to a refused call stays open.
  function Reopened(post: Post, effect: Effect, reopened: bool): Post {
    if reopened && post.Posted? && !effect.SetFlags? then post.(archived := false, locked := false) else post
  }

  function ReportOf(h: RenderHash, effect: Effect, view: Option<View>, answer: Answer): Report
    requires answer.Done?
  {
    var reopened := if answer.reopened then Some(false) else None;
    match effect
    case PostCard(_, _) =>
      NOTHING.(message := Some(answer.message), thread := answer.thread,
               renderHash := if view.Some? then Some(h(view.value)) else None)
    case EditCard(_) => NOTHING.(renderHash := if view.Some? then Some(h(view.value)) else None, archived := reopened)
    case ResyncCard(_) => NOTHING.(renderHash := if view.Some? then Some(h(view.value)) else None, archived := reopened)
    case SetFlags(_, archived, _, _, _) => NOTHING.(archived := Some(archived))
    case SetPinned(_, pinned) => NOTHING.(pinned := Some(pinned))
    case OpenThread(_) => NOTHING.(thread := answer.thread)
    case _ => NOTHING.(archived := reopened)
  }

  // The queue once a refusal is written down: put back for later, or given up.
  function Settled(q: Queue, worker: WorkerId, job: Job, now: int): Option<Queue>
    requires job.phase.Finished? || job.phase.Refused?
  {
    match job.phase
    case Finished(_) => Settle(q, worker, job.id)
    case Refused(Drop, _) => Settle(q, worker, job.id)
    case Refused(Retry(after), _) =>
      if job.item.attempts >= MAX_ATTEMPTS then Settle(q, worker, job.id)
      else Postpone(q, worker, job.id, now + Max(after, BackoffSecs(job.item.attempts)) * SECOND)
  }

  predicate GivenUp(job: Job) {
    job.phase.Refused? && job.phase.wanted && (job.phase.failure.Drop? || job.item.attempts >= MAX_ATTEMPTS)
  }

  // ---- One step of the whole

  ghost predicate Can(w: World, step: Step) {
    match step
    case Planned(_, _, _, _, _, _, _) => w.plan.None? && !w.card.state.Orphaned?
    case Decided(_) => w.plan.Some?
    case Acked(_, _, _, _) => true
    case Touched(_, _) => true
    case Asked(item) =>
      && item.effect.Card() == Some(w.card.id)
      && (Redraws(item.effect, w.card.id) || item.effect.SetTags? || item.effect.OpenThread? || item.effect.Escalate?)
    case Claimed(ids, lane, now) =>
      && w.job.None? && w.batch == []
      && (forall i, j :: 0 <= i < j < |ids| ==> ids[i] != ids[j])
      && (forall i :: 0 <= i < |ids| ==> ids[i] in ClaimableIds(w.queue, lane, now))
    case Begun => w.job.None? && w.batch != []
    case Read => w.job.Some? && w.job.value.phase.Fresh?
    case ReadFailed => w.job.Some? && (w.job.value.phase.Fresh? || w.job.value.phase.SawCard?)
    case Drew => w.job.Some? && w.job.value.phase.SawCard?
    case Called(answer) =>
      && w.job.Some? && w.job.value.phase.Calling?
      && (answer.Skipped? ==> w.job.value.item.effect.SetTags? || w.job.value.item.effect.SetPinned?)
      && (answer.UnknownMessage? ==> w.job.value.item.effect.EditCard? || w.job.value.item.effect.ResyncCard?)
      && (answer.Done? && w.job.value.item.effect.OpenThread? ==> answer.thread.Some?)
    case Recorded(_) => w.job.Some? && (w.job.value.phase.Finished? || w.job.value.phase.Refused?)
    case Unrecorded => w.job.Some? && (w.job.value.phase.Finished? || w.job.value.phase.Refused?)
    case Reclaimed(_, _) => true
    case Crashed(_) => true
  }

  function Batch(q: Queue, ids: seq<nat>): seq<(nat, Row)> {
    if ids == [] then [] else
      var id := ids[|ids| - 1];
      Batch(q, ids[..|ids| - 1]) + (if id in q.rows then [(id, q.rows[id])] else [])
  }

  function ApplyPlan(w: World, at: int): World
    requires w.plan.Some?
  {
    var update := w.plan.value.update;
    var card := Shown(w.card, update, at);
    w.(card := card, queue := EnqueueAll(w.queue, update.effects), plan := None,
       lapsed := w.lapsed && (w.card.state.HoldsThreadOpen() || !card.state.HoldsThreadOpen()),
       lostEdit := false, stale := false)
  }

  function Ask(w: World, item: NewOutboxItem): World {
    var redraws := Redraws(item.effect, w.card.id);
    w.(queue := Enqueue(w.queue, item), lostEdit := w.lostEdit && !redraws, stale := w.stale && !redraws)
  }

  function WithPhase(w: World, phase: Phase): World
    requires w.job.Some?
  {
    w.(job := Some(w.job.value.(phase := phase)))
  }

  // What is left to write down once the call was answered.
  function AfterCall(h: RenderHash, effect: Effect, view: Option<View>, answer: Answer): (phase: Phase)
    ensures phase.Finished? || phase.Refused?
    ensures answer.Failed? ==> phase.Refused? && phase.wanted
  {
    match answer
    case Done(_, _, _) => Finished(ReportOf(h, effect, view, answer))
    case Skipped => Finished(NOTHING)
    case Failed(failure, _, _) => Refused(failure, true)
    case UnknownMessage(_) => Refused(Drop, false)
  }

  function PostAfterCall(post: Post, effect: Effect, view: Option<View>, answer: Answer): Post {
    match answer
    case Done(reopened, _, _) => Sent(post, effect, view, reopened)
    case Failed(_, happened, reopened) =>
      if happened then Sent(post, effect, view, reopened) else Reopened(post, effect, reopened)
    case _ => post
  }

  function Call(h: RenderHash, w: World, answer: Answer): World
    requires w.job.Some? && w.job.value.phase.Calling?
  {
    var effect, view := w.job.value.item.effect, w.job.value.phase.view;
    w.(job := Some(w.job.value.(phase := AfterCall(h, effect, view, answer))),
       post := PostAfterCall(w.post, effect, view, answer),
       torn := w.torn || (answer.Failed? && answer.happened && Draws(effect)),
       card := if answer.UnknownMessage? && answer.released then Orphan(w.card) else w.card,
       gone := w.gone || answer.UnknownMessage?)
  }

  // A change to what the post shows that the store has not heard of.
  predicate Unreported(job: Job) {
    job.phase.Finished? && job.phase.report.renderHash.Some?
  }

  function Record(w: World, now: int): World
    requires w.job.Some? && (w.job.value.phase.Finished? || w.job.value.phase.Refused?)
  {
    var job := w.job.value;
    var settled := Settled(w.queue, w.worker, job, now);
    var kept := settled.Some?;
    w.(queue := settled.UnwrapOr(w.queue),
       job := None,
       card := if kept && job.phase.Finished? then Written(w.card, job.phase.report) else w.card,
       torn := if kept then w.torn && !Unreported(job) else w.torn || Unreported(job),
       lapsed := w.lapsed || (kept && GivenUp(job) && Opens(job.item.effect, w.card.id)),
       lostEdit := w.lostEdit || (kept && GivenUp(job) && Redraws(job.item.effect, w.card.id)))
  }

  function Next(h: RenderHash, w: World, step: Step): World
    requires Can(w, step)
  {
    match step
    case Planned(delta, route, ignored, acknowledged, siblings, settings, now) =>
      (match UpdateFor(delta, route, w.card, ignored, acknowledged, siblings, settings, now)
       case None => w
       case Some(update) => w.(plan := Some(Plan(w.card, update))))
    case Decided(at) => ApplyPlan(w, at)
    case Acked(revoke, held, extra, at) =>
      var next := NextState(w.card.state, if revoke then Trigger.AckRevoked else Trigger.Acknowledged, held);
      w.(card := if next.Some? then Moved(w.card, next.value, at) else w.card, extra := extra, stale := true)
    case Touched(alerts, extra) => w.(alerts := alerts, extra := extra, stale := true)
    case Asked(item) => Ask(w, item)
    case Claimed(ids, _, now) =>
      var queue := Take(w.queue, w.worker, now, IdSet(ids));
      w.(queue := queue, batch := Batch(queue, ids))
    case Begun => w.(job := Some(Job(w.batch[0].0, w.batch[0].1, Fresh)), batch := w.batch[1..])
    case Read => WithPhase(w, AfterRead(w.job.value.item.effect, w.card))
    case ReadFailed => WithPhase(w, Refused(Retry(READ_RETRY_SECS), true))
    case Drew =>
      var seen := w.job.value.phase.card;
      WithPhase(w, AfterDraw(h, w.job.value.item.effect, seen, w.Draw(seen)))
    case Called(answer) => Call(h, w, answer)
    case Recorded(now) => Record(w, now)
    case Unrecorded => w.(job := None, torn := w.torn || Unreported(w.job.value))
    case Reclaimed(olderThan, at) => w.(queue := Reclaim(w.queue, olderThan, at))
    case Crashed(worker) =>
      w.(worker := worker, batch := [], job := None, torn := w.torn || (w.job.Some? && Unreported(w.job.value)))
  }

  // ---- What every step keeps, before anything is promised about the post

  predicate Stamped(effect: Effect) {
    effect.SetFlags? ==>
      effect.plannedFor.Some? && (effect.archived ==> !effect.plannedFor.value.HoldsThreadOpen())
  }

  ghost predicate QueueSound(w: World) {
    && w.queue.Valid()
    && (forall id :: id in w.queue.rows ==>
          w.queue.rows[id].effect.Card() == Some(w.card.id) && Stamped(w.queue.rows[id].effect))
  }

  predicate Matches(q: Queue, id: nat, item: Row) {
    id in q.rows && q.rows[id].effect == item.effect
  }

  ghost predicate BatchSound(w: World) {
    && (forall i :: 0 <= i < |w.batch| ==> Matches(w.queue, w.batch[i].0, w.batch[i].1))
    && (forall i, j :: 0 <= i < j < |w.batch| ==> w.batch[i].0 != w.batch[j].0)
    && (w.job.Some? ==>
          && Matches(w.queue, w.job.value.id, w.job.value.item)
          && forall i :: 0 <= i < |w.batch| ==> w.batch[i].0 != w.job.value.id)
  }

  // What the worker saw still stands, apart from the state and the alert on show.
  predicate StillTrue(w: World, seen: Notification) {
    && seen.id == w.card.id
    && (!w.gone ==> seen.renderHash == w.card.renderHash && seen.message == w.card.message)
    && (seen.thread.Some? ==> w.card.thread.Some?)
  }

  predicate PhaseSound(w: World, effect: Effect, phase: Phase) {
    match phase
    case Fresh => true
    case SawCard(seen) => StillTrue(w, seen) && Draws(effect)
    case Calling(seen, view) =>
      && StillTrue(w, seen)
      && (view.Some? <==> Draws(effect))
      && (Draws(effect) ==> (effect.PostCard? <==> seen.message.None?))
      && (effect.DisableComponents? ==> seen.message.Some?)
      && (effect.SetFlags? ==>
            && seen.thread.Some? && effect.plannedFor.Some?
            && effect.plannedFor.value.HoldsThreadOpen() == seen.state.HoldsThreadOpen())
    case Finished(report) =>
      && (report.renderHash.Some? ==> Draws(effect))
      && (report.message.Some? ==> report.renderHash.Some? && effect.PostCard?)
      && (report.renderHash.Some? && effect.PostCard? && !w.gone ==> w.card.message.None?)
      && (report.renderHash.Some? && !effect.PostCard? && !w.gone ==> w.card.message.Some?)
    case Refused(_, _) => true
  }

  ghost predicate PlanSound(w: World) {
    w.plan.Some? ==>
      var before, update := w.plan.value.before, w.plan.value.update;
      && before.id == w.card.id
      && (!w.gone ==> before.state.HoldsThreadOpen() == w.card.state.HoldsThreadOpen())
      && (update.state.Some? ==> !update.state.value.Orphaned?)
      && (before.state.HoldsThreadOpen() || before.state.Resolved?)
      && (forall item :: item in update.effects ==>
            && item.effect.Card() == Some(w.card.id) && WellPlanned(item.effect, Landed(before, update)))
      && (exists item :: item in update.effects && item.effect == EditCard(w.card.id))
  }

  ghost predicate Sound(w: World) {
    && QueueSound(w) && BatchSound(w) && PlanSound(w)
    && (w.job.Some? ==> PhaseSound(w, w.job.value.item.effect, w.job.value.phase))
    && (w.card.thread.None? ==> !w.post.Archived())
    && (w.card.state.Orphaned? ==> w.gone)
  }

  // A card fresh out of its decision: one effect queued, to post it.
  ghost predicate Start(w: World, mention: bool) {
    && w.queue.Valid()
    && (forall id :: id in w.queue.rows ==> w.queue.rows[id].effect == PostCard(w.card.id, mention))
    && w.card.message.None? && w.card.thread.None? && w.card.renderHash.None? && w.card.state.IsOpen()
    && w.post.Absent? && w.plan.None? && w.job.None? && w.batch == []
    && !w.lapsed && !w.lostEdit && !w.torn && !w.gone
  }

  lemma StartIsSound(w: World, mention: bool)
    requires Start(w, mention)
    ensures Sound(w)
  {
  }

  // Enqueueing leaves every row's effect and claim as they were.
  ghost predicate Extends(before: Queue, after: Queue) {
    && after.Valid() && before.next <= after.next
    && (forall id :: id in before.rows ==>
          && id in after.rows
          && after.rows[id].effect == before.rows[id].effect
          && after.rows[id].claim == before.rows[id].claim)
  }

  // A row for this effect that came after the queue was as `before`, or a waiting one it folded into.
  ghost predicate Queued(before: Queue, after: Queue, effect: Effect) {
    if effect.IsCoalescable() then
      exists id :: id in after.rows && after.rows[id].claim.None? && after.rows[id].effect == effect
    else
      exists id :: id in after.rows && id >= before.next && after.rows[id].effect == effect
  }

  // A coalescable effect carries nothing but its card.
  lemma KindFixesTheEffect(a: Effect, b: Effect)
    requires a.Kind() == b.Kind() && a.Card() == b.Card() && a.IsCoalescable()
    ensures a == b
  {
  }

  lemma EnqueueExtends(q: Queue, item: NewOutboxItem)
    requires q.Valid()
    ensures Extends(q, Enqueue(q, item)) && Queued(q, Enqueue(q, item), item.effect)
    ensures forall id :: id in Enqueue(q, item).rows && id !in q.rows ==> Enqueue(q, item).rows[id].effect == item.effect
  {
    var after := Enqueue(q, item);
    var folding := q.Folding(item.effect);
    if folding != {} {
      forall id | id in q.rows ensures after.rows[id].effect == q.rows[id].effect {
        if q.rows[id].TakesIn(item.effect) {
          KindFixesTheEffect(item.effect, q.rows[id].effect);
        }
      }
      assert |folding| > 0;
      var id :| id in q.rows && q.rows[id].TakesIn(item.effect);
      assert after.rows[id].effect == item.effect;
    } else {
      assert after.rows[q.next] == NewRow(item);
    }
  }

  lemma {:induction false} EnqueueAllExtends(q: Queue, items: seq<NewOutboxItem>)
    requires q.Valid()
    ensures Extends(q, EnqueueAll(q, items))
  {
    if items != [] {
      EnqueueAllExtends(q, items[..|items| - 1]);
      EnqueueExtends(EnqueueAll(q, items[..|items| - 1]), items[|items| - 1]);
    }
  }

  lemma QueuedStays(before: Queue, middle: Queue, after: Queue, effect: Effect)
    requires Queued(before, middle, effect) && Extends(middle, after)
    ensures Queued(before, after, effect)
  {
  }

  // Every item asked for is in the queue afterwards.
  lemma {:induction false} ItemsAreQueued(q: Queue, items: seq<NewOutboxItem>, i: nat)
    requires q.Valid() && i < |items|
    ensures Queued(q, EnqueueAll(q, items), items[i].effect)
  {
    var n := |items| - 1;
    var middle := EnqueueAll(q, items[..n]);
    EnqueueAllExtends(q, items[..n]);
    EnqueueExtends(middle, items[n]);
    if i < n {
      ItemsAreQueued(q, items[..n], i);
      QueuedStays(q, middle, Enqueue(middle, items[n]), items[i].effect);
    }
  }

  // And every row that came is for one of the items.
  lemma {:induction false} NewRowsAreItems(q: Queue, items: seq<NewOutboxItem>, id: nat) returns (i: nat)
    requires q.Valid() && id in EnqueueAll(q, items).rows && id !in q.rows
    ensures i < |items| && EnqueueAll(q, items).rows[id].effect == items[i].effect
  {
    var n := |items| - 1;
    var middle := EnqueueAll(q, items[..n]);
    EnqueueAllExtends(q, items[..n]);
    EnqueueExtends(middle, items[n]);
    if id in middle.rows {
      i := NewRowsAreItems(q, items[..n], id);
    } else {
      i := n;
    }
  }

  lemma PlannedIsSound(h: RenderHash, w: World, step: Step)
    requires Sound(w) && step.Planned? && Can(w, step)
    ensures Sound(Next(h, w, step))
  {
    EveryUpdateOwes(step.delta, step.route, w.card, step.ignored, step.acknowledged, step.siblings, step.settings, step.now);
  }

  // A queue that only grew keeps what the worker relies on.
  lemma ExtendedBatches(w: World, queue: Queue)
    requires BatchSound(w) && Extends(w.queue, queue)
    ensures BatchSound(w.(queue := queue))
  {
  }

  lemma AppliedIsSound(w: World, at: int)
    requires Sound(w) && w.plan.Some?
    ensures Sound(ApplyPlan(w, at))
  {
    var update := w.plan.value.update;
    var after := ApplyPlan(w, at);
    EnqueueAllExtends(w.queue, update.effects);
    ExtendedBatches(w, after.queue);
    forall id | id in after.queue.rows
      ensures after.queue.rows[id].effect.Card() == Some(w.card.id) && Stamped(after.queue.rows[id].effect)
    {
      if id !in w.queue.rows {
        var i := NewRowsAreItems(w.queue, update.effects, id);
        var item := update.effects[i];
        assert item in update.effects && WellPlanned(item.effect, Landed(w.plan.value.before, update));
      }
    }
    assert QueueSound(after);
  }

  lemma AskedIsSound(w: World, item: NewOutboxItem)
    requires Sound(w) && Can(w, Asked(item))
    ensures Sound(Ask(w, item))
  {
    EnqueueExtends(w.queue, item);
    ExtendedBatches(w, Enqueue(w.queue, item));
  }

  lemma {:induction false} BatchCopies(q: Queue, ids: seq<nat>)
    requires forall i :: 0 <= i < |ids| ==> ids[i] in q.rows
    ensures |Batch(q, ids)| == |ids|
    ensures forall i :: 0 <= i < |ids| ==> Batch(q, ids)[i] == (ids[i], q.rows[ids[i]])
  {
    if ids != [] {
      BatchCopies(q, ids[..|ids| - 1]);
    }
  }

  lemma ClaimedIsSound(h: RenderHash, w: World, step: Step)
    requires Sound(w) && step.Claimed? && Can(w, step)
    ensures Sound(Next(h, w, step))
  {
    BatchCopies(Take(w.queue, w.worker, step.now, IdSet(step.ids)), step.ids);
  }

  lemma CalledIsSound(h: RenderHash, w: World, answer: Answer)
    requires Sound(w) && Can(w, Called(answer))
    ensures Sound(Call(h, w, answer))
  {
  }

  // Writing a refusal or a result down touches no row but the worker's own.
  lemma SettledTouchesOneRow(q: Queue, worker: WorkerId, job: Job, now: int)
    requires q.Valid() && (job.phase.Finished? || job.phase.Refused?)
    ensures
      var settled := Settled(q, worker, job, now);
      && (settled.Some? <==> job.id in q.rows && q.rows[job.id].HeldBy(worker))
      && (settled.Some? ==>
            && settled.value.Valid() && settled.value.next == q.next
            && (job.phase.Refused? && job.phase.failure.Retry? && job.item.attempts < MAX_ATTEMPTS
                <==> job.id in settled.value.rows)
            && (forall id :: id in settled.value.rows ==> id in q.rows && settled.value.rows[id].effect == q.rows[id].effect)
            && (forall id :: id in q.rows && id != job.id ==> id in settled.value.rows && settled.value.rows[id] == q.rows[id]))
      && (settled.Some? && job.id in settled.value.rows ==> settled.value.rows[job.id].claim.None?)
  {
  }

  // Once the row is settled the rest of the batch is still as it was claimed.
  lemma SettledBatches(w: World, queue: Queue, id: nat)
    requires BatchSound(w) && QueueSound(w) && w.job.Some? && w.job.value.id == id
    requires queue.Valid()
    requires forall other :: other in queue.rows ==>
      other in w.queue.rows && queue.rows[other].effect == w.queue.rows[other].effect
    requires forall other :: other in w.queue.rows && other != id ==>
      other in queue.rows && queue.rows[other] == w.queue.rows[other]
    ensures BatchSound(w.(queue := queue, job := None)) && QueueSound(w.(queue := queue, job := None))
  {
  }

  // Recording keeps the state, the message and the history that the promises turn on.
  lemma RecordKeepsTheRest(w: World, now: int)
    requires w.job.Some? && (w.job.value.phase.Finished? || w.job.value.phase.Refused?)
    ensures
      var after := Record(w, now);
      var settled := Settled(w.queue, w.worker, w.job.value, now);
      && after.job.None? && after.gone == w.gone && after.post == w.post && after.stale == w.stale
      && after.card.id == w.card.id && after.card.state == w.card.state
      && (w.card.thread.Some? ==> after.card.thread.Some?)
      && after.plan == w.plan && after.batch == w.batch
      && after.queue == settled.UnwrapOr(w.queue)
      && (w.lapsed ==> after.lapsed)
      && (settled.Some? && GivenUp(w.job.value) && Opens(w.job.value.item.effect, w.card.id) ==> after.lapsed)
  {
  }

  lemma RecordedIsSound(w: World, now: int)
    requires Sound(w) && Can(w, Recorded(now))
    ensures Sound(Record(w, now))
  {
    var job := w.job.value;
    var queue := Settled(w.queue, w.worker, job, now).UnwrapOr(w.queue);
    SettledTouchesOneRow(w.queue, w.worker, job, now);
    SettledBatches(w, queue, job.id);
    RecordKeepsTheRest(w, now);
    RecordedParts(w, Record(w, now), queue);
  }

  lemma RecordedParts(w: World, after: World, queue: Queue)
    requires Sound(w) && after.job.None? && after.plan == w.plan && after.batch == w.batch
    requires after.queue == queue && after.post == w.post && after.gone == w.gone
    requires after.card.id == w.card.id && after.card.state == w.card.state
    requires w.card.thread.Some? ==> after.card.thread.Some?
    requires QueueSound(w.(queue := queue, job := None)) && BatchSound(w.(queue := queue, job := None))
    ensures Sound(after)
  {
    assert QueueSound(after) && BatchSound(after);
    assert PlanSound(after);
  }

  lemma ReadIsSound(h: RenderHash, w: World, step: Step)
    requires Sound(w) && Can(w, step) && (step.Read? || step.ReadFailed? || step.Drew?)
    ensures Sound(Next(h, w, step))
  {
    var after := Next(h, w, step);
    assert QueueSound(after) && PlanSound(after);
    assert BatchSound(after);
  }

  lemma WorkerRestsSoundly(h: RenderHash, w: World, step: Step)
    requires Sound(w) && Can(w, step) && (step.Begun? || step.Unrecorded? || step.Crashed?)
    ensures Sound(Next(h, w, step))
  {
    var after := Next(h, w, step);
    assert QueueSound(after) && PlanSound(after);
  }

  lemma AckedIsSound(h: RenderHash, w: World, step: Step)
    requires Sound(w) && Can(w, step) && step.Acked?
    ensures Sound(Next(h, w, step))
  {
    var after := Next(h, w, step);
    assert QueueSound(after) && PlanSound(after);
    assert BatchSound(after);
  }

  lemma OthersMoveSoundly(h: RenderHash, w: World, step: Step)
    requires Sound(w) && Can(w, step) && (step.Touched? || step.Reclaimed?)
    ensures Sound(Next(h, w, step))
  {
    var after := Next(h, w, step);
    assert QueueSound(after) && PlanSound(after);
    assert BatchSound(after);
  }

  lemma NextIsSound(h: RenderHash, w: World, step: Step)
    requires Sound(w) && Can(w, step)
    ensures Sound(Next(h, w, step))
  {
    match step
    case Planned(_, _, _, _, _, _, _) => PlannedIsSound(h, w, step);
    case Decided(at) => AppliedIsSound(w, at);
    case Asked(item) => AskedIsSound(w, item);
    case Claimed(_, _, _) => ClaimedIsSound(h, w, step);
    case Called(answer) => CalledIsSound(h, w, answer);
    case Recorded(now) => RecordedIsSound(w, now);
    case Begun => WorkerRestsSoundly(h, w, step);
    case Unrecorded => WorkerRestsSoundly(h, w, step);
    case Crashed(_) => WorkerRestsSoundly(h, w, step);
    case Acked(_, _, _, _) => AckedIsSound(h, w, step);
    case Touched(_, _) => OthersMoveSoundly(h, w, step);
    case Reclaimed(_, _) => OthersMoveSoundly(h, w, step);
    case Read => ReadIsSound(h, w, step);
    case ReadFailed => ReadIsSound(h, w, step);
    case Drew => ReadIsSound(h, w, step);
  }

  // ---- A live card's forum post is never left closed

  // The worker is past reading the card and about to close its post.
  predicate Sealing(w: World) {
    w.job.Some? && w.job.value.phase.Calling? && w.job.value.item.effect.SetFlags? && w.job.value.item.effect.archived
  }

  // The row is about to be settled with nothing more to come of it.
  predicate Spent(job: Job) {
    job.phase.Finished? || (job.phase.Refused? && !job.phase.wanted)
  }

  predicate WillOpen(w: World, id: nat) {
    && id in w.queue.rows && Opens(w.queue.rows[id].effect, w.card.id)
    && !(w.job.Some? && w.job.value.id == id && Spent(w.job.value))
  }

  ghost predicate OpeningQueued(w: World) {
    exists id :: WillOpen(w, id)
  }

  // A plan that brings the card back brings an opening with it.
  ghost predicate PlanOpens(w: World) {
    w.plan.Some? ==>
      var before, update := w.plan.value.before, w.plan.value.update;
      before.state.Resolved? && Landed(before, update).HoldsThreadOpen() ==>
        exists item :: item in update.effects && Opens(item.effect, w.card.id)
  }

  predicate ForumStep(step: Step) {
    step.Planned? ==> step.route.target.Forum?
  }

  lemma NextPlansOpen(h: RenderHash, w: World, step: Step)
    requires Sound(w) && PlanOpens(w) && Can(w, step) && ForumStep(step)
    ensures PlanOpens(Next(h, w, step))
  {
    if step.Planned? {
      EveryUpdateOwes(step.delta, step.route, w.card, step.ignored, step.acknowledged, step.siblings, step.settings, step.now);
    } else {
      assert Next(h, w, step).plan == w.plan || Next(h, w, step).plan.None?;
      assert Next(h, w, step).card.id == w.card.id;
    }
  }

  ghost predicate NeverLeftClosed(w: World) {
    w.Live() && !w.gone ==> w.lapsed || OpeningQueued(w) || (!w.post.Archived() && !Sealing(w))
  }

  lemma OpeningStays(w: World, after: World)
    requires OpeningQueued(w) && after.card.id == w.card.id
    requires forall id :: id in w.queue.rows ==>
      id in after.queue.rows && after.queue.rows[id].effect == w.queue.rows[id].effect
    requires after.job == w.job || after.job.None? || !Spent(after.job.value)
    ensures OpeningQueued(after)
  {
    var id :| WillOpen(w, id);
    assert WillOpen(after, id);
  }

  lemma PlansOpenWhatTheyRevive(w: World, at: int)
    requires Sound(w) && PlanOpens(w) && NeverLeftClosed(w) && w.plan.Some?
    ensures NeverLeftClosed(ApplyPlan(w, at))
  {
    var after := ApplyPlan(w, at);
    var before, update := w.plan.value.before, w.plan.value.update;
    EnqueueAllExtends(w.queue, update.effects);
    if after.Live() && !after.gone {
      if w.Live() {
        if OpeningQueued(w) {
          OpeningStays(w, after);
        }
      } else {
        assert before.state.Resolved? && Landed(before, update).HoldsThreadOpen();
        var item :| item in update.effects && Opens(item.effect, w.card.id);
        var i :| 0 <= i < |update.effects| && update.effects[i] == item;
        ItemsAreQueued(w.queue, update.effects, i);
        var id :| id in after.queue.rows && id >= w.queue.next && after.queue.rows[id].effect == item.effect;
        assert WillOpen(after, id);
      }
    }
  }

  lemma AsksKeepItOpen(w: World, item: NewOutboxItem)
    requires Sound(w) && NeverLeftClosed(w) && Can(w, Asked(item))
    ensures NeverLeftClosed(Ask(w, item))
  {
    EnqueueExtends(w.queue, item);
    if OpeningQueued(w) {
      OpeningStays(w, Ask(w, item));
    }
  }

  lemma ReadsKeepItOpen(h: RenderHash, w: World, step: Step)
    requires Sound(w) && NeverLeftClosed(w) && Can(w, step) && (step.Read? || step.ReadFailed? || step.Drew?)
    ensures NeverLeftClosed(Next(h, w, step))
  {
    var after := Next(h, w, step);
    var job := w.job.value;
    if OpeningQueued(w) {
      var id :| WillOpen(w, id);
      assert id != job.id || !Spent(after.job.value) ==> WillOpen(after, id);
    }
  }

  // Only a seal closes a post.
  lemma OnlySealsClose(h: RenderHash, w: World, answer: Answer)
    requires w.job.Some? && w.job.value.phase.Calling?
    ensures
      var after, effect := Call(h, w, answer), w.job.value.item.effect;
      && (after.post.Archived() ==> w.post.Archived() || (effect.SetFlags? && effect.archived))
      && (answer.Done? && effect.SetFlags? && !effect.archived ==> !after.post.Archived())
  {
  }

  lemma CallsKeepTheRest(h: RenderHash, w: World, answer: Answer)
    requires w.job.Some? && w.job.value.phase.Calling?
    ensures
      var after := Call(h, w, answer);
      && after.queue == w.queue && after.lapsed == w.lapsed && after.card.id == w.card.id
      && after.job.Some? && after.job.value.id == w.job.value.id && after.job.value.item == w.job.value.item
      && (after.job.value.phase.Finished? || after.job.value.phase.Refused?)
      && (answer.Failed? ==> !Spent(after.job.value))
      && (!answer.UnknownMessage? ==> after.gone == w.gone && after.card == w.card)
      && (answer.UnknownMessage? ==> after.gone)
  {
  }

  lemma CallsKeepItOpen(h: RenderHash, w: World, answer: Answer)
    requires Sound(w) && NeverLeftClosed(w) && Can(w, Called(answer))
    ensures NeverLeftClosed(Call(h, w, answer))
  {
    var after := Call(h, w, answer);
    OnlySealsClose(h, w, answer);
    CallsKeepTheRest(h, w, answer);
    if OpeningQueued(w) && !answer.UnknownMessage? {
      var id :| WillOpen(w, id);
      if id != w.job.value.id || answer.Failed? {
        assert WillOpen(after, id);
      }
    }
  }

  lemma RecordsKeepItOpen(w: World, now: int)
    requires Sound(w) && NeverLeftClosed(w) && Can(w, Recorded(now))
    ensures NeverLeftClosed(Record(w, now))
  {
    var after := Record(w, now);
    SettledTouchesOneRow(w.queue, w.worker, w.job.value, now);
    RecordKeepsTheRest(w, now);
    if OpeningQueued(w) {
      var id :| WillOpen(w, id);
      assert id in after.queue.rows ==> WillOpen(after, id);
      assert id !in after.queue.rows ==> after.lapsed;
    }
  }

  lemma QueueMovesKeepItOpen(h: RenderHash, w: World, step: Step)
    requires Sound(w) && NeverLeftClosed(w) && Can(w, step) && (step.Claimed? || step.Begun? || step.Reclaimed?)
    ensures NeverLeftClosed(Next(h, w, step))
  {
    if OpeningQueued(w) {
      OpeningStays(w, Next(h, w, step));
    }
  }

  lemma OthersKeepItOpen(h: RenderHash, w: World, step: Step)
    requires Sound(w) && NeverLeftClosed(w) && Can(w, step)
    requires step.Planned? || step.Acked? || step.Touched? || step.Unrecorded? || step.Crashed?
    ensures NeverLeftClosed(Next(h, w, step))
  {
    if OpeningQueued(w) {
      OpeningStays(w, Next(h, w, step));
    }
  }

  lemma NextKeepsItOpen(h: RenderHash, w: World, step: Step)
    requires Sound(w) && PlanOpens(w) && NeverLeftClosed(w) && Can(w, step)
    ensures NeverLeftClosed(Next(h, w, step))
  {
    match step
    case Decided(at) => PlansOpenWhatTheyRevive(w, at);
    case Asked(item) => AsksKeepItOpen(w, item);
    case Called(answer) => CallsKeepItOpen(h, w, answer);
    case Recorded(now) => RecordsKeepItOpen(w, now);
    case Read => ReadsKeepItOpen(h, w, step);
    case ReadFailed => ReadsKeepItOpen(h, w, step);
    case Drew => ReadsKeepItOpen(h, w, step);
    case Claimed(_, _, _) => QueueMovesKeepItOpen(h, w, step);
    case Begun => QueueMovesKeepItOpen(h, w, step);
    case Reclaimed(_, _) => QueueMovesKeepItOpen(h, w, step);
    case _ => OthersKeepItOpen(h, w, step);
  }

  // ---- A drained queue means the post shows the card as it is

  predicate PastReading(job: Job) {
    job.phase.SawCard? || job.phase.Calling? || Spent(job)
  }

  // This row will still draw the card again, from a reading yet to come.
  predicate WillRedraw(w: World, id: nat) {
    && id in w.queue.rows && Redraws(w.queue.rows[id].effect, w.card.id)
    && !(w.job.Some? && w.job.value.id == id && w.queue.rows[id].HeldBy(w.worker) && PastReading(w.job.value))
  }

  ghost predicate RedrawQueued(w: World) {
    exists id :: WillRedraw(w, id)
  }

  // The worker has read the card and means to put what it read on the post.
  predicate Drawing(w: World) {
    && w.job.Some? && Draws(w.job.value.item.effect)
    && match w.job.value.phase
       case SawCard(seen) => w.job.value.item.effect.PostCard? <==> seen.message.None?
       case Calling(_, _) => true
       case Finished(report) => report.renderHash.Some?
       case _ => false
  }

  // What the worker is drawing from has not changed under it.
  predicate StillFresh(h: RenderHash, w: World)
    requires Drawing(w)
  {
    match w.job.value.phase
    case SawCard(seen) => seen.state == w.card.state && seen.fingerprint == w.card.fingerprint
    case Calling(_, view) => view == w.Current()
    case Finished(report) => w.Current().Some? ==> report.renderHash == Some(h(w.Current().value))
  }

  // While nothing was lost, the latest change is on its way to the post or recorded as shown.
  ghost predicate OnItsWay(h: RenderHash, w: World) {
    !w.stale && !w.gone && w.Current().Some? ==>
      || w.lostEdit
      || RedrawQueued(w)
      || (if Drawing(w) then StillFresh(h, w)
          else w.card.message.Some? ==> w.card.renderHash == Some(h(w.Current().value)))
  }

  lemma RedrawStays(w: World, after: World)
    requires RedrawQueued(w) && after.card.id == w.card.id
    requires forall id :: id in w.queue.rows ==>
      && id in after.queue.rows && after.queue.rows[id].effect == w.queue.rows[id].effect
      && (after.job.Some? && after.queue.rows[id].HeldBy(after.worker) ==> w.queue.rows[id].HeldBy(w.worker))
    requires after.job == w.job || after.job.None? || !PastReading(after.job.value)
    ensures RedrawQueued(after)
  {
    var id :| WillRedraw(w, id);
    assert WillRedraw(after, id);
  }

  // A fresh edit of this card is in nobody's hands.
  lemma QueuedEditWillRedraw(w: World, before: Queue, effect: Effect)
    requires Redraws(effect, w.card.id) && Queued(before, w.queue, effect)
    ensures RedrawQueued(w)
  {
    var id :| id in w.queue.rows && w.queue.rows[id].claim.None? && w.queue.rows[id].effect == effect;
    assert WillRedraw(w, id);
  }

  lemma PlansQueueARedraw(h: RenderHash, w: World, at: int)
    requires Sound(w) && w.plan.Some?
    ensures RedrawQueued(ApplyPlan(w, at)) && OnItsWay(h, ApplyPlan(w, at))
  {
    var update := w.plan.value.update;
    EnqueueAllExtends(w.queue, update.effects);
    var item :| item in update.effects && item.effect == EditCard(w.card.id);
    var i :| 0 <= i < |update.effects| && update.effects[i] == item;
    ItemsAreQueued(w.queue, update.effects, i);
    QueuedEditWillRedraw(ApplyPlan(w, at), w.queue, item.effect);
  }

  lemma AsksStayOnTheirWay(h: RenderHash, w: World, item: NewOutboxItem)
    requires Sound(w) && OnItsWay(h, w) && Can(w, Asked(item))
    ensures OnItsWay(h, Ask(w, item))
  {
    var after := Ask(w, item);
    EnqueueExtends(w.queue, item);
    if Redraws(item.effect, w.card.id) {
      QueuedEditWillRedraw(after, w.queue, item.effect);
    } else if RedrawQueued(w) {
      RedrawStays(w, after);
    }
  }

  lemma ReadsStayOnTheirWay(h: RenderHash, w: World, step: Step)
    requires Sound(w) && OnItsWay(h, w) && Can(w, step) && (step.Read? || step.ReadFailed? || step.Drew?)
    ensures OnItsWay(h, Next(h, w, step))
  {
    var after := Next(h, w, step);
    var job := w.job.value;
    if RedrawQueued(w) {
      var id :| WillRedraw(w, id);
      assert id != job.id || !PastReading(after.job.value) || !w.queue.rows[id].HeldBy(w.worker) ==> WillRedraw(after, id);
    }
    if step.ReadFailed? && Redraws(job.item.effect, w.card.id) {
      assert WillRedraw(after, job.id);
    }
  }

  lemma CallsStayOnTheirWay(h: RenderHash, w: World, answer: Answer)
    requires Sound(w) && OnItsWay(h, w) && Can(w, Called(answer))
    ensures OnItsWay(h, Call(h, w, answer))
  {
    var after := Call(h, w, answer);
    var job := w.job.value;
    CallsKeepTheRest(h, w, answer);
    if RedrawQueued(w) && !after.gone {
      var id :| WillRedraw(w, id);
      assert WillRedraw(after, id);
    }
    if answer.Failed? && Redraws(job.item.effect, w.card.id) {
      assert WillRedraw(after, job.id);
    }
  }

  lemma RecordsStayOnTheirWay(h: RenderHash, w: World, now: int)
    requires Sound(w) && OnItsWay(h, w) && Can(w, Recorded(now))
    ensures OnItsWay(h, Record(w, now))
  {
    var after := Record(w, now);
    var job := w.job.value;
    SettledTouchesOneRow(w.queue, w.worker, job, now);
    if RedrawQueued(w) {
      var id :| WillRedraw(w, id);
      assert id in after.queue.rows ==> WillRedraw(after, id);
      assert id !in after.queue.rows ==> after.lostEdit;
    }
    if Settled(w.queue, w.worker, job, now).None? && Redraws(job.item.effect, w.card.id) {
      assert WillRedraw(after, job.id);
    }
  }

  lemma RestsStayOnTheirWay(h: RenderHash, w: World, step: Step)
    requires Sound(w) && OnItsWay(h, w) && Can(w, step) && (step.Unrecorded? || step.Crashed?)
    ensures OnItsWay(h, Next(h, w, step))
  {
    var after := Next(h, w, step);
    if RedrawQueued(w) {
      RedrawStays(w, after);
    }
    if w.job.Some? && Redraws(w.job.value.item.effect, w.card.id) {
      assert WillRedraw(after, w.job.value.id);
    }
  }

  // Taking rows, or starting on one, reads nothing.
  lemma ClaimsKeepRedraws(h: RenderHash, w: World, step: Step)
    requires Can(w, step) && (step.Claimed? || step.Begun?) && RedrawQueued(w)
    ensures RedrawQueued(Next(h, w, step))
  {
    var id :| WillRedraw(w, id);
    assert WillRedraw(Next(h, w, step), id);
  }

  lemma ClaimsStayOnTheirWay(h: RenderHash, w: World, step: Step)
    requires OnItsWay(h, w) && Can(w, step) && (step.Claimed? || step.Begun?)
    ensures OnItsWay(h, Next(h, w, step))
  {
    assert !Drawing(w) && !Drawing(Next(h, w, step));
    if RedrawQueued(w) {
      ClaimsKeepRedraws(h, w, step);
    }
  }

  lemma OthersStayOnTheirWay(h: RenderHash, w: World, step: Step)
    requires Sound(w) && OnItsWay(h, w) && Can(w, step)
    requires step.Planned? || step.Acked? || step.Touched? || step.Reclaimed?
    ensures OnItsWay(h, Next(h, w, step))
  {
    if RedrawQueued(w) {
      RedrawStays(w, Next(h, w, step));
    }
  }

  lemma NextStaysOnItsWay(h: RenderHash, w: World, step: Step)
    requires Sound(w) && OnItsWay(h, w) && Can(w, step)
    ensures OnItsWay(h, Next(h, w, step))
  {
    match step
    case Decided(at) => PlansQueueARedraw(h, w, at);
    case Asked(item) => AsksStayOnTheirWay(h, w, item);
    case Called(answer) => CallsStayOnTheirWay(h, w, answer);
    case Recorded(now) => RecordsStayOnTheirWay(h, w, now);
    case Read => ReadsStayOnTheirWay(h, w, step);
    case ReadFailed => ReadsStayOnTheirWay(h, w, step);
    case Drew => ReadsStayOnTheirWay(h, w, step);
    case Unrecorded => RestsStayOnTheirWay(h, w, step);
    case Crashed(_) => RestsStayOnTheirWay(h, w, step);
    case Claimed(_, _, _) => ClaimsStayOnTheirWay(h, w, step);
    case Begun => ClaimsStayOnTheirWay(h, w, step);
    case _ => OthersStayOnTheirWay(h, w, step);
  }

  // ---- What the store says is on the post is on the post

  ghost predicate Honest(h: RenderHash, w: World) {
    !w.gone ==>
      && (w.card.message.Some? ==> w.post.Posted?)
      && (w.job.Some? && Unreported(w.job.value) ==>
            w.post.Posted? && w.job.value.phase.report.renderHash == Some(h(w.post.shown)))
      && (!w.torn && w.card.message.Some? && !(w.job.Some? && Unreported(w.job.value)) ==>
            w.card.renderHash == Some(h(w.post.shown)))
  }

  lemma CallsStayHonest(h: RenderHash, w: World, answer: Answer)
    requires Sound(w) && Honest(h, w) && Can(w, Called(answer))
    ensures Honest(h, Call(h, w, answer))
  {
    CallsKeepTheRest(h, w, answer);
  }

  lemma RecordsStayHonest(h: RenderHash, w: World, now: int)
    requires Sound(w) && Honest(h, w) && Can(w, Recorded(now))
    ensures Honest(h, Record(w, now))
  {
  }

  lemma PlansStayHonest(h: RenderHash, w: World, at: int)
    requires Honest(h, w) && w.plan.Some?
    ensures Honest(h, ApplyPlan(w, at))
  {
  }

  lemma ReadsStayHonest(h: RenderHash, w: World, step: Step)
    requires Sound(w) && Honest(h, w) && Can(w, step) && (step.Read? || step.ReadFailed? || step.Drew?)
    ensures Honest(h, Next(h, w, step))
  {
    assert !Unreported(Next(h, w, step).job.value);
  }

  lemma OthersStayHonest(h: RenderHash, w: World, step: Step)
    requires Sound(w) && Honest(h, w) && Can(w, step)
    requires step.Acked? || step.Touched? || step.Asked? || step.Claimed? || step.Begun?
      || step.Unrecorded? || step.Reclaimed? || step.Crashed?
    ensures Honest(h, Next(h, w, step))
  {
  }

  lemma NextStaysHonest(h: RenderHash, w: World, step: Step)
    requires Sound(w) && Honest(h, w) && Can(w, step)
    ensures Honest(h, Next(h, w, step))
  {
    match step
    case Planned(_, _, _, _, _, _, _) =>
    case Decided(at) => PlansStayHonest(h, w, at);
    case Called(answer) => CallsStayHonest(h, w, answer);
    case Recorded(now) => RecordsStayHonest(h, w, now);
    case Read => ReadsStayHonest(h, w, step);
    case ReadFailed => ReadsStayHonest(h, w, step);
    case Drew => ReadsStayHonest(h, w, step);
    case _ => OthersStayHonest(h, w, step);
  }

  // ---- Over whole runs

  ghost predicate Reaches(h: RenderHash, w: World, steps: seq<Step>, end: World)
    decreases steps
  {
    if steps == [] then end == w
    else Can(w, steps[0]) && Reaches(h, Next(h, w, steps[0]), steps[1..], end)
  }

  ghost predicate Kept(h: RenderHash, w: World) {
    Sound(w) && OnItsWay(h, w) && Honest(h, w)
  }

  lemma NextIsKept(h: RenderHash, w: World, step: Step)
    requires Kept(h, w) && Can(w, step)
    ensures Kept(h, Next(h, w, step))
  {
    NextIsSound(h, w, step);
    NextStaysOnItsWay(h, w, step);
    NextStaysHonest(h, w, step);
  }

  lemma {:induction false} EveryRunKeeps(h: RenderHash, w: World, steps: seq<Step>, end: World)
    requires Kept(h, w) && Reaches(h, w, steps, end)
    ensures Kept(h, end)
    decreases steps
  {
    if steps != [] {
      NextIsKept(h, w, steps[0]);
      EveryRunKeeps(h, Next(h, w, steps[0]), steps[1..], end);
    }
  }

  // Every change in the run was decided for a forum route.
  predicate ForumRun(steps: seq<Step>) {
    forall i :: 0 <= i < |steps| ==> ForumStep(steps[i])
  }

  lemma {:induction false} ForumRunsStayOpen(h: RenderHash, w: World, steps: seq<Step>, end: World)
    requires Sound(w) && PlanOpens(w) && NeverLeftClosed(w) && Reaches(h, w, steps, end) && ForumRun(steps)
    ensures PlanOpens(end) && NeverLeftClosed(end)
    decreases steps
  {
    if steps != [] {
      NextIsSound(h, w, steps[0]);
      NextPlansOpen(h, w, steps[0]);
      NextKeepsItOpen(h, w, steps[0]);
      ForumRunsStayOpen(h, Next(h, w, steps[0]), steps[1..], end);
    }
  }

  // In every interleaving, the bot never leaves a live card's forum post closed: it is open with no
  // seal on its way, or the opening is still queued, or that opening was given up.
  lemma LiveCardsStayOpen(h: RenderHash, w: World, mention: bool, steps: seq<Step>, end: World)
    requires Start(w, mention) && Reaches(h, w, steps, end) && ForumRun(steps)
    ensures end.card.state.HoldsThreadOpen() && !end.gone ==>
      || end.lapsed
      || (exists id :: WillOpen(end, id))
      || (!end.post.Archived() && !Sealing(end))
  {
    StartIsSound(w, mention);
    ForumRunsStayOpen(h, w, steps, end);
  }

  ghost predicate CollisionFree(h: RenderHash) {
    forall a, b :: h(a) == h(b) ==> a == b
  }

  // Nothing is queued, nothing is under way, and no edit is owed or was given up.
  ghost predicate Drained(w: World) {
    w.queue.rows == map[] && !w.stale && !w.lostEdit && !w.gone
  }

  // Whatever kind of route a posted card is on, once the queue is drained it shows its current row,
  // provided no change to the message went unrecorded.
  lemma DrainedCardsShowTheirRow(h: RenderHash, w: World, mention: bool, steps: seq<Step>, end: World)
    requires Start(w, mention) && Reaches(h, w, steps, end) && CollisionFree(h)
    requires Drained(end) && end.card.IsPosted() && end.Current().Some?
    ensures end.post.Posted? && end.card.renderHash == Some(h(end.Current().value))
    ensures !end.torn ==> end.post.shown == end.Current().value
  {
    StartIsSound(w, mention);
    EveryRunKeeps(h, w, steps, end);
    assert end.job.None?;
  }

  // And a drained live card's forum post is open.
  lemma DrainedPostsAreOpen(h: RenderHash, w: World, mention: bool, steps: seq<Step>, end: World)
    requires Start(w, mention) && Reaches(h, w, steps, end) && ForumRun(steps)
    requires Drained(end) && end.card.state.HoldsThreadOpen() && !end.lapsed
    ensures !end.post.Archived()
  {
    LiveCardsStayOpen(h, w, mention, steps, end);
  }

  lemma OneMoreStep(h: RenderHash, w: World, step: Step, rest: seq<Step>, end: World)
    requires Can(w, step) && Reaches(h, Next(h, w, step), rest, end)
    ensures Reaches(h, w, [step] + rest, end)
  {
    assert ([step] + rest)[1..] == rest;
  }

  lemma {:induction false} RunsJoin(h: RenderHash, w: World, first: seq<Step>, middle: World, second: seq<Step>, end: World)
    requires Reaches(h, w, first, middle) && Reaches(h, middle, second, end)
    ensures Reaches(h, w, first + second, end)
    decreases first
  {
    if first == [] {
      assert first + second == second;
    } else {
      RunsJoin(h, Next(h, w, first[0]), first[1..], middle, second, end);
      assert (first + second)[1..] == first[1..] + second;
    }
  }

  // A posted card at rest, with one effect waiting and nothing else queued.
  ghost predicate OneWaiting(w: World, id: nat, effect: Effect) {
    && w.queue.Valid() && w.queue.rows.Keys == {id}
    && w.queue.rows[id].effect == effect && w.queue.rows[id].claim.None?
    && w.job.None? && w.batch == [] && w.card.IsPosted() && w.card.fingerprint in w.alerts
  }

  lemma ClaimingTheRow(h: RenderHash, w: World, id: nat, effect: Effect) returns (step: Step, row: Row)
    requires OneWaiting(w, id, effect)
    ensures row.effect == effect && row.HeldBy(w.worker)
    ensures Can(w, step)
    ensures Next(h, w, step) == w.(queue := Queue(map[id := row], w.queue.next), batch := [(id, row)])
  {
    var now := w.queue.rows[id].notBefore;
    step := Step.Claimed([id], None, now);
    row := w.queue.rows[id].(claim := Some(Claim(w.worker, now)), attempts := w.queue.rows[id].attempts + 1);
    assert IdSet([id]) == {id} by { assert id in [id]; }
    var queue := Take(w.queue, w.worker, now, {id});
    assert queue.rows == map[id := row];
    assert id in ClaimableIds(w.queue, None, now);
    BatchCopies(queue, [id]);
    assert Batch(queue, [id]) == [(id, row)];
  }

  // One edit in the worker's hands, and the world as it is after one phase of it.
  ghost predicate OneEditHeld(w: World, id: nat, row: Row) {
    && w.queue.rows == map[id := row] && row.effect == EditCard(w.card.id) && row.HeldBy(w.worker)
    && w.card.IsPosted() && w.Current().Some?
  }

  function Holding(w: World, id: nat, row: Row, phase: Phase): World {
    w.(job := Some(Job(id, row, phase)))
  }

  lemma ReadingTheEdit(h: RenderHash, w: World, id: nat, row: Row)
    requires OneEditHeld(w, id, row) && w.card.renderHash == Some(h(w.Current().value))
    ensures Next(h, Holding(w, id, row, Fresh), Step.Read) == Holding(w, id, row, SawCard(w.card))
    ensures Next(h, Holding(w, id, row, SawCard(w.card)), Drew) == Holding(w, id, row, Finished(NOTHING))
  {
  }

  // Writing down a result that says nothing empties a queue of one.
  lemma Emptied(h: RenderHash, w: World, id: nat, row: Row)
    requires w.queue.rows == map[id := row] && row.HeldBy(w.worker)
    ensures
      Next(h, Holding(w, id, row, Finished(NOTHING)), Recorded(0))
      == w.(queue := w.queue.(rows := map[]), job := None)
  {
    assert map[id := row] - {id} == map[];
    assert Settled(w.queue, w.worker, Job(id, row, Finished(NOTHING)), 0) == Some(w.queue.(rows := map[]));
    assert Written(w.card, NOTHING) == w.card;
  }

  lemma DroppingTheEdit(h: RenderHash, w: World, id: nat, row: Row) returns (steps: seq<Step>, end: World)
    requires OneEditHeld(w, id, row) && w.card.renderHash == Some(h(w.Current().value))
    ensures Reaches(h, Holding(w, id, row, Fresh), steps, end)
    ensures end == w.(queue := w.queue.(rows := map[]), job := None)
  {
    ReadingTheEdit(h, w, id, row);
    Emptied(h, w, id, row);
    end := w.(queue := w.queue.(rows := map[]), job := None);
    OneMoreStep(h, Holding(w, id, row, Finished(NOTHING)), Recorded(0), [], end);
    steps := [Recorded(0)];
    OneMoreStep(h, Holding(w, id, row, SawCard(w.card)), Drew, steps, end);
    steps := [Drew] + steps;
    OneMoreStep(h, Holding(w, id, row, Fresh), Read, steps, end);
    steps := [Step.Read] + steps;
  }

  // A waiting edit whose card already has the hash of its current view is taken and dropped: the
  // queue drains and the post is not touched.
  lemma EqualHashSkipsTheEdit(h: RenderHash, w: World, id: nat) returns (steps: seq<Step>, end: World)
    requires OneWaiting(w, id, EditCard(w.card.id)) && w.card.renderHash == Some(h(w.Current().value))
    ensures Reaches(h, w, steps, end)
    ensures end == w.(queue := w.queue.(rows := map[]))
  {
    var claim, row := ClaimingTheRow(h, w, id, EditCard(w.card.id));
    var w1 := w.(queue := Queue(map[id := row], w.queue.next), batch := [(id, row)]);
    var w2 := w1.(job := Some(Job(id, row, Fresh)), batch := []);
    assert Next(h, w1, Begun) == w2;
    steps, end := DroppingTheEdit(h, w2, id, row);
    OneMoreStep(h, w1, Begun, steps, end);
    steps := [Begun] + steps;
    OneMoreStep(h, w, claim, steps, end);
    steps := [claim] + steps;
  }

  lemma LosingTheLease(h: RenderHash, w: World, id: nat, row: Row, report: Report)
    requires OneEditHeld(w, id, row) && w.queue.Valid() && report.renderHash.Some?
    ensures
      var held := Holding(w, id, row, Finished(report));
      var waiting := w.queue.(rows := map[id := row.(claim := None, notBefore := 0)]);
      && Next(h, held, Step.Reclaimed(row.claim.value.at + 1, 0)) == held.(queue := waiting)
      && Can(held.(queue := waiting), Recorded(0))
      && Next(h, held.(queue := waiting), Recorded(0)) == w.(queue := waiting, job := None, torn := true)
  {
    var waiting := w.queue.(rows := map[id := row.(claim := None, notBefore := 0)]);
    assert Reclaim(w.queue, row.claim.value.at + 1, 0).rows == waiting.rows;
    assert Settled(waiting, w.worker, Job(id, row, Finished(report)), 0).None?;
  }

  lemma FoldingAnEdit(w: World, id: nat)
    requires OneWaiting(w, id, EditCard(w.card.id))
    ensures
      var after := Ask(w, NewOutboxItem(EditCard(w.card.id), w.card.dedupeKey, 0));
      && OneWaiting(after, id, EditCard(w.card.id))
      && after == w.(queue := after.queue, lostEdit := false, stale := false)
  {
    var item := NewOutboxItem(EditCard(w.card.id), w.card.dedupeKey, 0);
    assert w.queue.rows[id].TakesIn(item.effect);
    assert id in w.queue.Folding(item.effect);
  }

  // The one way to a drained queue and a stale post. An edit went through and its lease was lost
  // before that was recorded; the alert then went back to what the card showed before. The next
  // edit finds the stored hash equal to the card's, and is dropped.
  lemma LostLeaseLeavesThePostStale(
    h: RenderHash, w: World, id: nat, row: Row, reverted: map<Fingerprint, int>)
    returns (steps: seq<Step>, end: World)
    requires OneEditHeld(w, id, row) && w.queue.Valid() && w.batch == [] && !w.gone
    requires w.post.Posted? && w.post.shown == w.Current().value
    requires w.card.fingerprint in reverted && reverted[w.card.fingerprint] != w.alerts[w.card.fingerprint]
    requires w.card.renderHash == Some(h(w.post.shown.(alert := reverted[w.card.fingerprint])))
    ensures Reaches(h, Holding(w, id, row, Finished(NOTHING.(renderHash := Some(h(w.post.shown))))), steps, end)
    ensures Drained(end) && end.card.IsPosted() && end.post.Posted? && end.Current().Some?
    ensures end.post.shown != end.Current().value && end.torn
  {
    var report := NOTHING.(renderHash := Some(h(w.post.shown)));
    var w0 := Holding(w, id, row, Finished(report));
    LosingTheLease(h, w, id, row, report);
    var s1, s2 := Step.Reclaimed(row.claim.value.at + 1, 0), Recorded(0);
    var waiting := w.queue.(rows := map[id := row.(claim := None, notBefore := 0)]);
    var w1 := w0.(queue := waiting);
    var w2 := w.(queue := waiting, job := None, torn := true);
    var s3, w3 := Touched(reverted, w.extra), w2.(alerts := reverted, stale := true);
    assert Next(h, w2, s3) == w3;
    var item := NewOutboxItem(EditCard(w.card.id), w.card.dedupeKey, 0);
    FoldingAnEdit(w3, id);
    var w4 := Ask(w3, item);
    steps, end := EqualHashSkipsTheEdit(h, w4, id);
    OneMoreStep(h, w3, Asked(item), steps, end);
    OneMoreStep(h, w2, s3, [Asked(item)] + steps, end);
    OneMoreStep(h, w1, s2, [s3] + ([Asked(item)] + steps), end);
    OneMoreStep(h, w0, s1, [s2] + ([s3] + ([Asked(item)] + steps)), end);
    steps := [s1] + ([s2] + ([s3] + ([Asked(item)] + steps)));
  }
}
