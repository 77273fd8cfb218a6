/** Both ways for a live card to lose its controls, from a card at rest. */
module ControlTraces {
  import opened Wrappers
  import opened States
  import opened Labels
  import opened DedupeKeys
  import opened Alerts
  import opened Routing
  import opened Effects
  import opened Decide
  import opened Cards
  import Outbox
  import opened Dispatch
  import opened Dispatcher
  import opened Flaps
  import opened Controls

  // ---- One row at a time

  // An idle worker, and a row nobody holds.
  ghost predicate Idle(w: World, id: nat) {
    w.queue.Valid() && id in w.queue.rows && w.queue.rows[id].claim.None? && w.job.None? && w.batch == []
  }

  // The row in the worker's hands, and the world around it.
  function Held(w: World, id: nat, now: int): Outbox.Row
    requires id in w.queue.rows
  {
    w.queue.rows[id].(claim := Some(Outbox.Claim(w.worker, now)), attempts := w.queue.rows[id].attempts + 1)
  }

  function Begun(w: World, id: nat, now: int): World
    requires id in w.queue.rows
  {
    w.(queue := w.queue.(rows := w.queue.rows[id := Held(w, id, now)]), job := Some(Job(id, Held(w, id, now), Fresh)))
  }

  lemma TakingARow(h: RenderHash, w: World, id: nat, now: int)
    requires Idle(w, id) && w.queue.rows[id].notBefore <= now
    ensures Can(w, Claimed([id], None, now))
    ensures
      Next(h, w, Claimed([id], None, now))
      == w.(queue := w.queue.(rows := w.queue.rows[id := Held(w, id, now)]), batch := [(id, Held(w, id, now))])
  {
    assert Outbox.IdSet([id]) == {id} by { assert id in [id]; }
    var queue := Outbox.Take(w.queue, w.worker, now, {id});
    assert queue.rows == w.queue.rows[id := Held(w, id, now)];
    assert id in Outbox.ClaimableIds(w.queue, None, now);
    BatchCopies(queue, [id]);
    assert Batch(queue, [id]) == [(id, Held(w, id, now))];
  }

  // Claiming a row, starting on it and handling it is a run.
  lemma WorkingOneRow(h: RenderHash, w: World, id: nat, answer: Answer, now: int) returns (steps: seq<Step>)
    requires Idle(w, id) && w.queue.rows[id].notBefore <= now && Answers(answer, w.queue.rows[id].effect)
    ensures Reaches(h, w, steps, Handled(h, Begun(w, id, now), answer, now))
  {
    TakingARow(h, w, id, now);
    var claimed := Next(h, w, Claimed([id], None, now));
    assert Next(h, claimed, Step.Begun) == Begun(w, id, now);
    var end := Handled(h, Begun(w, id, now), answer, now);
    steps := HandlingIsARun(h, Begun(w, id, now), answer, now);
    OneMoreStep(h, claimed, Step.Begun, steps, end);
    OneMoreStep(h, w, Claimed([id], None, now), [Step.Begun] + steps, end);
    steps := [Claimed([id], None, now)] + ([Step.Begun] + steps);
  }

  function Without(q: Outbox.Queue, id: nat): Outbox.Queue {
    q.(rows := q.rows - {id})
  }

  lemma RowIsGone(w: World, id: nat, now: int)
    requires id in w.queue.rows
    ensures Outbox.Settle(Begun(w, id, now).queue, w.worker, id) == Some(Without(w.queue, id))
  {
    assert w.queue.rows[id := Held(w, id, now)] - {id} == w.queue.rows - {id};
  }

  // A strip that goes through, whatever state the card is in: nothing compares it with the reason for
  // the strip, as is done for closing a post.
  lemma StripGoesThrough(h: RenderHash, w: World, id: nat, now: int)
    requires Idle(w, id) && w.queue.rows[id].effect == DisableComponents(w.card.id)
    requires w.card.IsPosted() && w.post.Posted?
    ensures
      Handled(h, Begun(w, id, now), Answer.Done(false, 0, None), now)
      == w.(queue := Without(w.queue, id), post := w.post.(stripped := true))
  {
    StripIsCalled(h, w, id, now);
    StripIsRecorded(w, id, now, w.post.(stripped := true));
  }

  lemma StripIsCalled(h: RenderHash, w: World, id: nat, now: int)
    requires Idle(w, id) && w.queue.rows[id].effect == DisableComponents(w.card.id)
    requires w.card.IsPosted() && w.post.Posted?
    ensures Reached(h, w.queue.rows[id].effect, w.card, w.Current()) == Calling(w.card, None)
    ensures
      Call(h, WithPhase(Begun(w, id, now), Calling(w.card, None)), Answer.Done(false, 0, None))
      == WithPhase(Begun(w, id, now), Finished(NOTHING)).(post := w.post.(stripped := true))
  {
  }

  lemma StripIsRecorded(w: World, id: nat, now: int, post: Post)
    requires Idle(w, id)
    ensures
      Record(WithPhase(Begun(w, id, now), Finished(NOTHING)).(post := post), now)
      == w.(queue := Without(w.queue, id), post := post)
  {
    RowIsGone(w, id, now);
    assert Written(w.card, NOTHING) == w.card;
  }

  // A strip that is refused is put back, for no sooner than asked.
  lemma StripIsPutBack(h: RenderHash, w: World, id: nat, after: nat, now: int) returns (row: Outbox.Row)
    requires Idle(w, id) && w.queue.rows[id].effect == DisableComponents(w.card.id) && w.queue.rows[id].attempts == 0
    requires w.card.IsPosted()
    ensures row.effect == w.queue.rows[id].effect && row.claim.None? && row.notBefore >= now + after * SECOND
    ensures
      Handled(h, Begun(w, id, now), Answer.Failed(Retry(after), false, false), now)
      == w.(queue := w.queue.(rows := w.queue.rows[id := row]))
  {
    var delay := Dispatch.Max(after, BackoffSecs(1));
    row := Held(w, id, now).(claim := None, notBefore := now + delay * SECOND);
    assert w.queue.rows[id := Held(w, id, now)][id := row] == w.queue.rows[id := row];
  }

  // What an edit leaves when the stored hash is that of what the message shows.
  function Redrawn(h: RenderHash, w: World, id: nat): World
    requires w.post.Posted? && w.Current().Some?
  {
    var drained := w.(queue := Without(w.queue, id));
    if w.Current() == Some(w.post.shown) then drained
    else
      drained.(post := w.post.(shown := w.Current().value, stripped := false),
               card := w.card.(renderHash := Some(h(w.Current().value))), torn := false)
  }

  lemma EditIsSkippedWhen(h: RenderHash, card: Notification, shown: View, view: View)
    requires CollisionFree(h) && card.message.Some? && card.renderHash == Some(h(shown))
    ensures AfterDraw(h, EditCard(card.id), card, Some(view)) ==
      if view == shown then Finished(NOTHING) else Calling(card, Some(view))
  {
  }

  lemma EditIsDropped(h: RenderHash, w: World, id: nat, now: int)
    requires Idle(w, id) && w.queue.rows[id].effect == EditCard(w.card.id) && w.card.message.Some?
    requires w.Current().Some? && w.card.renderHash == Some(h(w.Current().value))
    ensures Handled(h, Begun(w, id, now), Answer.Done(false, 0, None), now) == w.(queue := Without(w.queue, id))
  {
    RowIsGone(w, id, now);
    assert Written(w.card, NOTHING) == w.card;
  }

  lemma EditIsCalled(h: RenderHash, w: World, id: nat, now: int, view: View)
    requires Idle(w, id) && w.queue.rows[id].effect == EditCard(w.card.id) && w.post.Posted?
    ensures
      Call(h, WithPhase(Begun(w, id, now), Calling(w.card, Some(view))), Answer.Done(false, 0, None))
      == WithPhase(Begun(w, id, now), Finished(NOTHING.(renderHash := Some(h(view))))).(
           post := w.post.(shown := view, stripped := false))
  {
  }

  lemma EditIsRecorded(h: RenderHash, w: World, id: nat, now: int, hash: int, post: Post)
    requires Idle(w, id)
    ensures
      Record(WithPhase(Begun(w, id, now), Finished(NOTHING.(renderHash := Some(hash)))).(post := post), now)
      == w.(queue := Without(w.queue, id), post := post, card := w.card.(renderHash := Some(hash)), torn := false)
  {
    RowIsGone(w, id, now);
    assert Written(w.card, NOTHING.(renderHash := Some(hash))) == w.card.(renderHash := Some(hash));
  }

  lemma EditGoesThrough(h: RenderHash, w: World, id: nat, now: int)
    requires Idle(w, id) && w.queue.rows[id].effect == EditCard(w.card.id) && CollisionFree(h)
    requires w.card.IsPosted() && w.post.Posted? && w.card.renderHash == Some(h(w.post.shown)) && w.Current().Some?
    ensures Handled(h, Begun(w, id, now), Answer.Done(false, 0, None), now) == Redrawn(h, w, id)
  {
    var view := w.Current().value;
    if view == w.post.shown {
      EditIsDropped(h, w, id, now);
    } else {
      EditIsSkippedWhen(h, w.card, w.post.shown, view);
      EditIsCalled(h, w, id, now, view);
      EditIsRecorded(h, w, id, now, h(view), w.post.(shown := view, stripped := false));
    }
  }

  // ---- Changes

  // A change of an alert as a decider sees it through: stored, decided on and applied.
  function ChangeSteps(w: World, alerts: map<Fingerprint, int>, delta: AlertDelta, route: Route,
                       settings: DecisionSettings, now: int): seq<Step>
  {
    [Touched(alerts, w.extra)] + ([Planned(delta, route, false, false, [], settings, now)] + [Decided(now)])
  }

  function AfterChange(w: World, alerts: map<Fingerprint, int>, update: CardUpdate, now: int): World {
    ApplyPlan(w.(alerts := alerts, plan := Some(Plan(w.card, update)), stale := true), now)
  }

  lemma ChangesAreSteps(
    h: RenderHash, w: World, alerts: map<Fingerprint, int>, delta: AlertDelta, route: Route,
    settings: DecisionSettings, now: int, update: CardUpdate)
    requires w.plan.None? && !w.card.state.Orphaned?
    requires UpdateFor(delta, route, w.card, false, false, [], settings, now) == Some(update)
    ensures Reaches(h, w, ChangeSteps(w, alerts, delta, route, settings, now), AfterChange(w, alerts, update, now))
  {
    var end := AfterChange(w, alerts, update, now);
    var touched := w.(alerts := alerts, stale := true);
    var plan := Planned(delta, route, false, false, [], settings, now);
    OneMoreStep(h, touched.(plan := Some(Plan(w.card, update))), Decided(now), [], end);
    OneMoreStep(h, touched, plan, [Decided(now)], end);
    OneMoreStep(h, w, Touched(alerts, w.extra), [plan] + [Decided(now)], end);
  }

  // The update that a resolution, or a firing alert on a resolved card, brings to a card off a forum.
  function PlainUpdate(delta: AlertDelta, card: Notification, settings: DecisionSettings, now: int): CardUpdate {
    if delta.alert.IsFiring()
    then CardUpdate(card.id, delta.alert.fingerprint, Some(NotificationState.Firing), [Redraw(card, settings, now)])
    else
      CardUpdate(card.id, delta.alert.fingerprint, Some(NotificationState.Resolved),
                 [Redraw(card, settings, now)] + [Immediate(DisableComponents(card.id), card, now)])
  }

  lemma PlainUpdates(delta: AlertDelta, route: Route, card: Notification, settings: DecisionSettings, now: int)
    requires !route.target.Forum? && !card.archived && KindAgrees(delta.kind, delta.alert)
    requires if delta.alert.IsFiring() then card.state.Resolved? && !delta.alert.amState.Suppressed? else card.state.Firing?
    ensures UpdateFor(delta, route, card, false, false, [], settings, now) == Some(PlainUpdate(delta, card, settings, now))
  {
    var state := Some(if delta.alert.IsFiring() then NotificationState.Firing else NotificationState.Resolved);
    assert [Redraw(card, settings, now)] + [] == [Redraw(card, settings, now)];
    assert Move(delta, route, card, false, false, []) == (delta.alert, state);
    assert UpdateEffects(delta, route, card, state, delta.alert, settings, now)
      == [Redraw(card, settings, now)] + Strip(card, state, now);
  }

  lemma OneItem(q: Outbox.Queue, item: NewOutboxItem)
    ensures Outbox.EnqueueAll(q, [item]) == Outbox.Enqueue(q, item)
  {
    assert [item][..0] == [];
  }

  lemma TwoRowsQueued(q: Outbox.Queue, edit: NewOutboxItem, strip: NewOutboxItem)
    requires q.Valid() && q.rows == map[] && edit.effect.EditCard? && strip.effect.DisableComponents?
    ensures
      Outbox.EnqueueAll(q, [edit] + [strip])
      == Outbox.Queue(map[q.next := Outbox.NewRow(edit), q.next + 1 := Outbox.NewRow(strip)], q.next + 2)
  {
    OneItem(q, edit);
    assert ([edit] + [strip])[..1] == [edit];
  }

  // An edit folds into the one waiting, and no other row notices.
  lemma EditsFold(q: Outbox.Queue, id: nat, item: NewOutboxItem)
    requires id in q.rows && q.rows[id].claim.None? && q.rows[id].effect == item.effect && item.effect.EditCard?
    requires forall other :: other in q.rows && other != id ==> !q.rows[other].effect.EditCard?
    ensures Outbox.EnqueueAll(q, [item]) == q.(rows := q.rows[id := q.rows[id].Folded(item)])
  {
    OneItem(q, item);
    assert q.rows[id].TakesIn(item.effect);
    assert id in q.Folding(item.effect);
    assert Outbox.Enqueue(q, item).rows == q.rows[id := q.rows[id].Folded(item)];
  }

  // A live card at rest: shown as it is, recorded as shown, and nothing queued.
  ghost predicate AtRest(h: RenderHash, w: World) {
    && w.queue.Valid() && w.queue.rows == map[] && w.plan.None? && w.job.None? && w.batch == [] && !w.gone
    && w.card.IsPosted() && w.card.state.Firing? && !w.card.archived
    && w.post.Posted? && w.Current() == Some(w.post.shown) && w.card.renderHash == Some(h(w.post.shown))
  }

  // A card that resolved a moment ago: its redraw waits, and what its message shows is recorded.
  ghost predicate JustResolved(h: RenderHash, w: World, edit: nat) {
    && w.queue.Valid() && edit in w.queue.rows && w.plan.None? && w.job.None? && w.batch == [] && !w.gone
    && w.queue.rows[edit].effect == EditCard(w.card.id) && w.queue.rows[edit].claim.None?
    && (forall other :: other in w.queue.rows && other != edit ==> !w.queue.rows[other].effect.EditCard?)
    && w.card.IsPosted() && w.card.state.Resolved? && !w.card.archived
    && w.post.Posted? && w.card.renderHash == Some(h(w.post.shown))
  }

  // What waits once a card at rest resolved at `now`: the strip, due at once, and the redraw.
  ghost predicate StripWaits(w: World, edit: nat, now: int) {
    && w.queue.rows.Keys == {edit, edit + 1} && Idle(w, edit + 1)
    && w.queue.rows[edit + 1].effect == DisableComponents(w.card.id)
    && w.queue.rows[edit + 1].attempts == 0 && w.queue.rows[edit + 1].notBefore == now
  }

  lemma ResolvedQueue(q: Outbox.Queue, card: Notification, delta: AlertDelta, settings: DecisionSettings, now: int)
    requires q.Valid() && q.rows == map[] && !delta.alert.IsFiring()
    ensures
      Outbox.EnqueueAll(q, PlainUpdate(delta, card, settings, now).effects)
      == Outbox.Queue(
           map[q.next := Outbox.NewRow(Redraw(card, settings, now)),
               q.next + 1 := Outbox.NewRow(Immediate(DisableComponents(card.id), card, now))],
           q.next + 2)
  {
    TwoRowsQueued(q, Redraw(card, settings, now), Immediate(DisableComponents(card.id), card, now));
  }

  lemma ResolvedCard(
    h: RenderHash, w: World, alerts: map<Fingerprint, int>, down: AlertDelta, settings: DecisionSettings, now: int)
    returns (resolved: World)
    requires AtRest(h, w) && !down.alert.IsFiring()
    ensures resolved == AfterChange(w, alerts, PlainUpdate(down, w.card, settings, now), now)
    ensures JustResolved(h, resolved, w.queue.next) && StripWaits(resolved, w.queue.next, now)
    ensures resolved.post == w.post && resolved.extra == w.extra && resolved.torn == w.torn
    ensures resolved.card.id == w.card.id
  {
    ResolvedQueue(w.queue, w.card, down, settings, now);
    resolved := AfterChange(w, alerts, PlainUpdate(down, w.card, settings, now), now);
  }

  lemma Resolving(
    h: RenderHash, w: World, alerts: map<Fingerprint, int>, down: AlertDelta, route: Route,
    settings: DecisionSettings, now: int)
    returns (steps: seq<Step>, resolved: World)
    requires AtRest(h, w) && !route.target.Forum? && !down.alert.IsFiring() && KindAgrees(down.kind, down.alert)
    ensures Reaches(h, w, steps, resolved)
    ensures JustResolved(h, resolved, w.queue.next) && StripWaits(resolved, w.queue.next, now)
    ensures resolved.post == w.post && resolved.extra == w.extra && resolved.torn == w.torn
    ensures resolved.card.id == w.card.id
  {
    PlainUpdates(down, route, w.card, settings, now);
    ChangesAreSteps(h, w, alerts, down, route, settings, now, PlainUpdate(down, w.card, settings, now));
    resolved := ResolvedCard(h, w, alerts, down, settings, now);
    steps := ChangeSteps(w, alerts, down, route, settings, now);
  }

  // A firing alert finds the card resolved and brings it back; its redraw folds into the one waiting.
  lemma FiringBringsItBack(
    h: RenderHash, w: World, edit: nat, alerts: map<Fingerprint, int>, up: AlertDelta, route: Route,
    settings: DecisionSettings, now: int)
    returns (steps: seq<Step>, back: World)
    requires JustResolved(h, w, edit) && !route.target.Forum?
    requires up.alert.IsFiring() && KindAgrees(up.kind, up.alert) && !up.alert.amState.Suppressed?
    ensures Reaches(h, w, steps, back)
    ensures back.card == Moved(w.card.(fingerprint := up.alert.fingerprint), NotificationState.Firing, now)
    ensures back.queue == w.queue.(rows := w.queue.rows[edit := w.queue.rows[edit].Folded(Redraw(w.card, settings, now))])
    ensures back == w.(card := back.card, queue := back.queue, alerts := alerts, stale := false, lostEdit := false, lapsed := false)
  {
    var update := PlainUpdate(up, w.card, settings, now);
    PlainUpdates(up, route, w.card, settings, now);
    ChangesAreSteps(h, w, alerts, up, route, settings, now, update);
    EditsFold(w.queue, edit, Redraw(w.card, settings, now));
    steps := ChangeSteps(w, alerts, up, route, settings, now);
    back := AfterChange(w, alerts, update, now);
  }

  // ---- Both ways exhibited

  // A card at rest resolves, and is stripped before its redraw is due.
  lemma ResolvedAndStripped(
    h: RenderHash, w: World, alerts: map<Fingerprint, int>, down: AlertDelta, route: Route,
    settings: DecisionSettings, now: int)
    returns (steps: seq<Step>, middle: World)
    requires AtRest(h, w) && !route.target.Forum? && !down.alert.IsFiring() && KindAgrees(down.kind, down.alert)
    ensures Reaches(h, w, steps, middle)
    ensures JustResolved(h, middle, w.queue.next) && middle.queue.rows.Keys == {w.queue.next}
    ensures middle.post == w.post.(stripped := true) && middle.extra == w.extra && middle.torn == w.torn
    ensures middle.card.id == w.card.id
  {
    var first, resolved := Resolving(h, w, alerts, down, route, settings, now);
    var second := Stripping(h, resolved, w.queue.next, now);
    middle := Bare(resolved, w.queue.next + 1);
    RunsJoin(h, w, first, resolved, second, middle);
    steps := first + second;
  }

  // The world once a strip went through.
  function Bare(w: World, id: nat): World
    requires w.post.Posted?
  {
    w.(queue := Without(w.queue, id), post := w.post.(stripped := true))
  }

  lemma Stripping(h: RenderHash, w: World, edit: nat, now: int) returns (steps: seq<Step>)
    requires JustResolved(h, w, edit) && StripWaits(w, edit, now)
    ensures Reaches(h, w, steps, Bare(w, edit + 1))
    ensures JustResolved(h, Bare(w, edit + 1), edit) && Bare(w, edit + 1).queue.rows.Keys == {edit}
  {
    StripGoesThrough(h, w, edit + 1, now);
    steps := WorkingOneRow(h, w, edit + 1, Answer.Done(false, 0, None), now);
  }

  // Stripped on time and then brought back by the alert it showed before. Whether its controls come
  // back with it turns on one thing: whether that alert is drawn as it was. If it is, the redraw finds
  // the stored hash equal and is dropped, and the queue drains on a live card without its controls.
  lemma StrippedAndBack(
    h: RenderHash, w: World, during: map<Fingerprint, int>, after: map<Fingerprint, int>, down: AlertDelta,
    up: AlertDelta, route: Route, settings: DecisionSettings, now: int, later: int)
    returns (steps: seq<Step>, end: World)
    requires AtRest(h, w) && !route.target.Forum? && CollisionFree(h)
    requires !down.alert.IsFiring() && KindAgrees(down.kind, down.alert)
    requires up.alert.IsFiring() && KindAgrees(up.kind, up.alert) && !up.alert.amState.Suppressed?
    requires up.alert.fingerprint == w.card.fingerprint && w.card.fingerprint in after
    ensures Reaches(h, w, steps, end) && Drained(end) && end.card.IsPosted() && end.card.state.Firing?
    ensures end.post.Posted? && end.Current() == Some(end.post.shown) && (end.torn ==> w.torn)
    ensures Stripped(end.post) <==> after[w.card.fingerprint] == w.alerts[w.card.fingerprint]
  {
    var first, middle := ResolvedAndStripped(h, w, during, down, route, settings, now);
    var second;
    second, end := BackAndRedrawn(h, middle, w.queue.next, after, up, route, settings, later);
    RunsJoin(h, w, first, middle, second, end);
    steps := first + second;
  }

  // Brought back and redrawn: the controls are drawn again unless the view is the one shown already.
  lemma BackAndRedrawn(
    h: RenderHash, w: World, edit: nat, after: map<Fingerprint, int>, up: AlertDelta, route: Route,
    settings: DecisionSettings, later: int)
    returns (steps: seq<Step>, end: World)
    requires JustResolved(h, w, edit) && w.queue.rows.Keys == {edit} && !route.target.Forum? && CollisionFree(h)
    requires up.alert.IsFiring() && KindAgrees(up.kind, up.alert) && !up.alert.amState.Suppressed?
    requires up.alert.fingerprint in after
    ensures Reaches(h, w, steps, end) && Drained(end) && end.card.IsPosted() && end.card.state.Firing?
    ensures end.post.Posted? && end.Current() == Some(end.post.shown) && (end.torn ==> w.torn)
    ensures
      var view := View(NotificationState.Firing, up.alert.fingerprint, after[up.alert.fingerprint], w.extra);
      end.post.stripped <==> w.post.stripped && view == w.post.shown
  {
    var back;
    steps, back := FiringBringsItBack(h, w, edit, after, up, route, settings, later);
    var redraw := Redrawing(h, back, edit);
    end := Redrawn(h, back, edit);
    RunsJoin(h, w, steps, back, redraw, end);
    steps := steps + redraw;
    assert end.queue.rows == map[];
  }

  lemma Redrawing(h: RenderHash, w: World, id: nat) returns (steps: seq<Step>)
    requires Idle(w, id) && w.queue.rows[id].effect == EditCard(w.card.id) && CollisionFree(h)
    requires w.card.IsPosted() && w.post.Posted? && w.card.renderHash == Some(h(w.post.shown)) && w.Current().Some?
    ensures Reaches(h, w, steps, Redrawn(h, w, id))
  {
    EditGoesThrough(h, w, id, w.queue.rows[id].notBefore);
    steps := WorkingOneRow(h, w, id, Answer.Done(false, 0, None), w.queue.rows[id].notBefore);
  }

  // On time and for nothing, on a card that several alerts share by group or by digest. Another of its
  // alerts resolves and takes the card down, which is stripped at once. An update of the alert shown
  // before, which has been firing all along, brings it back; when that update is to nothing that is
  // drawn, such as the expiry that every resend pushes back, the redraw is dropped.
  lemma SkippedEditKeepsTheStrip(
    h: RenderHash, w: World, alerts: map<Fingerprint, int>, down: AlertDelta, up: AlertDelta, route: Route,
    settings: DecisionSettings, now: int, later: int)
    returns (steps: seq<Step>, end: World)
    requires AtRest(h, w) && !route.target.Forum? && CollisionFree(h)
    requires !down.alert.IsFiring() && KindAgrees(down.kind, down.alert)
    requires down.alert.fingerprint != w.card.fingerprint
    requires up.alert.IsFiring() && up.kind.Updated? && !up.alert.amState.Suppressed?
    requires up.alert.fingerprint == w.card.fingerprint
    requires w.card.fingerprint in alerts && alerts[w.card.fingerprint] == w.alerts[w.card.fingerprint]
    ensures Reaches(h, w, steps, end) && Drained(end) && (end.torn ==> w.torn) && end.card.IsPosted()
    ensures Stripped(end.post) && end.card.state.Firing? && end.Current() == Some(end.post.shown)
  {
    steps, end := StrippedAndBack(h, w, alerts, alerts, down, up, route, settings, now, later);
  }

  // Cards draw the flap count, so rows that differ in it are drawn apart.
  ghost predicate TellsFlapsApart(draw: AlertRecord -> int) {
    forall a: AlertRecord, b: AlertRecord :: a.flapCount != b.flapCount ==> draw(a) != draw(b)
  }

  // A card of one alert is safe from this way as long as its flap count moves: fired again, the alert
  // is drawn with another count, the redraw is sent, and the controls come back with it.
  lemma RefiresBringTheControlsBack(
    h: RenderHash, w: World, rows: AlertTable, draw: AlertRecord -> int, down: Alert, up: Alert, t1: int, t2: int,
    route: Route, settings: DecisionSettings)
    returns (steps: seq<Step>, end: World)
    requires AtRest(h, w) && !route.target.Forum? && CollisionFree(h) && TellsFlapsApart(draw)
    requires RowsValid(rows) && w.card.fingerprint in rows && rows[w.card.fingerprint].alert.IsFiring()
    requires w.alerts[w.card.fingerprint] == draw(rows[w.card.fingerprint])
    requires !down.IsFiring() && up.IsFiring() && !up.amState.Suppressed?
    requires down.fingerprint == w.card.fingerprint == up.fingerprint
    requires !CountStays(rows[w.card.fingerprint].flapCount, down, t1, t2, settings.regroupWindow)
    ensures Reaches(h, w, steps, end) && Drained(end) && (end.torn ==> w.torn) && end.card.IsPosted()
    ensures end.post.Posted? && !end.post.stripped && end.card.state.Firing? && end.Current() == Some(end.post.shown)
  {
    var f, regroup := w.card.fingerprint, settings.regroupWindow;
    var (resolved, fell) := IngestOne(rows, None, down, t1, regroup);
    var (refired, rose) := IngestOne(resolved, None, up, t2, regroup);
    RefiresMoveTheCount(rows, None, None, down, up, t1, t2, regroup);
    OneArrival(rows, None, down, t1, regroup);
    OneArrival(resolved, None, up, t2, regroup);
    var during, after := w.alerts[f := draw(resolved[f])], w.alerts[f := draw(refired[f])];
    SuppressionArrives(resolved, None, up, t2, regroup);
    steps, end := StrippedAndBack(h, w, during, after, fell.value, rose.value, route, settings, t1, t2);
  }

  lemma SuppressionArrives(rows: AlertTable, group: Option<GroupKey>, up: Alert, at: int, regroup: int)
    ensures
      var delta := IngestOne(rows, group, up, at, regroup).1;
      delta.Some? ==>
        && delta.value.alert.amState == up.amState && delta.value.alert.fingerprint == up.fingerprint
        && delta.value.alert.status == up.status
  {
  }

  // Too late: the strip is refused and put back, the card comes back and is redrawn, and then the
  // strip is carried out on a live card.
  lemma LateStripHitsALiveCard(
    h: RenderHash, w: World, during: map<Fingerprint, int>, after: map<Fingerprint, int>, down: AlertDelta,
    up: AlertDelta, route: Route, settings: DecisionSettings, now: int, later: int, wait: nat)
    returns (steps: seq<Step>, end: World)
    requires AtRest(h, w) && !route.target.Forum? && CollisionFree(h)
    requires !down.alert.IsFiring() && KindAgrees(down.kind, down.alert)
    requires up.alert.IsFiring() && KindAgrees(up.kind, up.alert) && !up.alert.amState.Suppressed?
    requires up.alert.fingerprint in after
    ensures Reaches(h, w, steps, end) && Drained(end) && (end.torn ==> w.torn) && end.card.IsPosted()
    ensures Stripped(end.post) && end.card.state.Firing? && end.Current() == Some(end.post.shown)
  {
    var edit, strip := w.queue.next, w.queue.next + 1;
    var first, refused := StripIsRefused(h, w, during, down, route, settings, now, wait);
    var second, back := FiringBringsItBack(h, refused, edit, after, up, route, settings, later);
    var third: seq<Step>;
    third, end := RedrawnThenStripped(h, back, edit, strip);
    RunsJoin(h, refused, second, back, third, end);
    RunsJoin(h, w, first, refused, second + third, end);
    steps := first + (second + third);
  }

  lemma RedrawnKeeps(h: RenderHash, w: World, edit: nat, other: nat)
    requires Idle(w, other) && edit != other && w.post.Posted? && w.Current().Some?
    ensures
      var after := Redrawn(h, w, edit);
      && Idle(after, other) && after.queue.rows[other] == w.queue.rows[other] && after.post.Posted?
      && after.card.id == w.card.id && after.card.message == w.card.message
  {
  }

  lemma RedrawnThenStripped(h: RenderHash, w: World, edit: nat, strip: nat) returns (steps: seq<Step>, end: World)
    requires Idle(w, edit) && Idle(w, strip) && edit != strip && CollisionFree(h)
    requires w.queue.rows[edit].effect == EditCard(w.card.id) && w.queue.rows[strip].effect == DisableComponents(w.card.id)
    requires w.card.IsPosted() && w.post.Posted? && w.card.renderHash == Some(h(w.post.shown)) && w.Current().Some?
    ensures Reaches(h, w, steps, end) && end == Bare(Redrawn(h, w, edit), strip)
  {
    var redrawn := Redrawn(h, w, edit);
    var first := Redrawing(h, w, edit);
    RedrawnKeeps(h, w, edit, strip);
    var at := redrawn.queue.rows[strip].notBefore;
    StripGoesThrough(h, redrawn, strip, at);
    var second := WorkingOneRow(h, redrawn, strip, Answer.Done(false, 0, None), at);
    end := Bare(redrawn, strip);
    RunsJoin(h, w, first, redrawn, second, end);
    steps := first + second;
  }

  lemma StripIsRefused(
    h: RenderHash, w: World, alerts: map<Fingerprint, int>, down: AlertDelta, route: Route,
    settings: DecisionSettings, now: int, wait: nat)
    returns (steps: seq<Step>, refused: World)
    requires AtRest(h, w) && !route.target.Forum? && !down.alert.IsFiring() && KindAgrees(down.kind, down.alert)
    ensures Reaches(h, w, steps, refused)
    ensures JustResolved(h, refused, w.queue.next) && refused.queue.rows.Keys == {w.queue.next, w.queue.next + 1}
    ensures Idle(refused, w.queue.next + 1) && refused.card.id == w.card.id
    ensures refused.queue.rows[w.queue.next + 1].effect == DisableComponents(w.card.id)
    ensures refused.queue.rows[w.queue.next + 1].notBefore >= now + wait * SECOND
    ensures refused.post == w.post && refused.extra == w.extra && refused.torn == w.torn
  {
    var first, resolved := Resolving(h, w, alerts, down, route, settings, now);
    var id := w.queue.next + 1;
    var row := StripIsPutBack(h, resolved, id, wait, now);
    var second := WorkingOneRow(h, resolved, id, Answer.Failed(Retry(wait), false, false), now);
    refused := resolved.(queue := resolved.queue.(rows := resolved.queue.rows[id := row]));
    RunsJoin(h, w, first, resolved, second, refused);
    steps := first + second;
  }
}
