/** How a resolved card's post comes to stay open where its route archives what resolves. */
module SealTraces {
  import opened Wrappers
  import opened States
  import opened Labels
  import opened DedupeKeys
  import opened Alerts
  import opened Routing
  import opened Effects
  import opened Decide
  import opened Cards
  import Outbox
  import opened Dispatch
  import opened Dispatcher
  import opened ControlTraces

  // A resolved card at rest, its post archived and known to be.
  ghost predicate SealedAtRest(h: RenderHash, w: World) {
    && w.queue.Valid() && w.queue.rows == map[] && w.plan.None? && w.job.None? && w.batch == [] && !w.gone
    && w.card.IsPosted() && w.card.thread.Some? && w.card.state.Resolved? && w.card.archived
    && w.post.Archived() && w.card.renderHash == Some(h(w.post.shown))
  }

  // What a resolved card is owed for news that leaves it resolved: its post opened to carry the news, and
  // nothing that closes it again.
  function NewsUpdate(route: Route, card: Notification, settings: DecisionSettings, now: int): CardUpdate {
    CardUpdate(
      card.id, card.fingerprint, None,
      [Immediate(Reopen(route, card, NotificationState.Resolved, settings), card, now)] + [Redraw(card, settings, now)])
  }

  lemma NewsReopens(delta: AlertDelta, route: Route, card: Notification, settings: DecisionSettings, now: int)
    requires card.state.Resolved? && card.archived && route.target.Forum?
    requires !delta.alert.IsFiring() && !delta.kind.Fired? && delta.alert.fingerprint == card.fingerprint
    ensures UpdateFor(delta, route, card, false, false, [], settings, now) == Some(NewsUpdate(route, card, settings, now))
  {
    assert Move(delta, route, card, false, false, []) == (delta.alert, None);
    var state := NotificationState.Resolved;
    assert Window(route, card, state, settings, now) == [];
    assert Decoration(delta, route, card, state, None, delta.alert, now) == [];
    assert UpdateEffects(delta, route, card, None, delta.alert, settings, now) == NewsUpdate(route, card, settings, now).effects;
  }

  lemma NewsIsQueued(q: Outbox.Queue, flags: NewOutboxItem, edit: NewOutboxItem)
    requires q.Valid() && q.rows == map[] && flags.effect.SetFlags? && edit.effect.EditCard?
    ensures
      Outbox.EnqueueAll(q, [flags] + [edit])
      == Outbox.Queue(map[q.next := Outbox.NewRow(flags), q.next + 1 := Outbox.NewRow(edit)], q.next + 2)
  {
    OneItem(q, flags);
    assert ([flags] + [edit])[..1] == [flags];
  }

  // Opened by flags, and known to be.
  function Unsealed(w: World, id: nat): World
    requires w.post.Posted?
  {
    w.(queue := Without(w.queue, id), post := w.post.(archived := false, locked := false), card := w.card.(archived := false))
  }

  lemma FlagsGoThrough(h: RenderHash, w: World, id: nat, minutes: nat, now: int)
    requires Idle(w, id) && w.card.thread.Some? && w.card.state.Resolved? && w.post.Posted?
    requires w.queue.rows[id].effect == SetFlags(w.card.id, false, false, minutes, Some(NotificationState.Resolved))
    ensures Handled(h, ControlTraces.Begun(w, id, now), Answer.Done(false, 0, None), now) == Unsealed(w, id)
  {
    FlagsAreCalled(h, w, id, minutes, now);
    FlagsAreRecorded(w, id, now, w.post.(archived := false, locked := false));
  }

  lemma FlagsAreCalled(h: RenderHash, w: World, id: nat, minutes: nat, now: int)
    requires Idle(w, id) && w.card.thread.Some? && w.card.state.Resolved? && w.post.Posted?
    requires w.queue.rows[id].effect == SetFlags(w.card.id, false, false, minutes, Some(NotificationState.Resolved))
    ensures Reached(h, w.queue.rows[id].effect, w.card, w.Current()) == Calling(w.card, None)
    ensures
      var begun := ControlTraces.Begun(w, id, now);
      Call(h, WithPhase(begun, Calling(w.card, None)), Answer.Done(false, 0, None))
      == WithPhase(begun, Finished(NOTHING.(archived := Some(false)))).(post := w.post.(archived := false, locked := false))
  {
  }

  lemma FlagsAreRecorded(w: World, id: nat, now: int, post: Post)
    requires Idle(w, id)
    ensures
      var finished := WithPhase(ControlTraces.Begun(w, id, now), Finished(NOTHING.(archived := Some(false))));
      Record(finished.(post := post), now)
      == w.(queue := Without(w.queue, id), post := post, card := w.card.(archived := false))
  {
    RowIsGone(w, id, now);
    assert Written(w.card, NOTHING.(archived := Some(false))) == w.card.(archived := false);
  }

  // Late news of the alert, such as the end time a resend moves, opens the archived post of a resolved card;
  // the queue drains, nothing was refused or given up, and nothing closes the post again.
  lemma LateNewsLeavesThePostOpen(
    h: RenderHash, w: World, alerts: map<Fingerprint, int>, delta: AlertDelta, route: Route,
    settings: DecisionSettings, now: int)
    returns (steps: seq<Step>, end: World)
    requires SealedAtRest(h, w) && CollisionFree(h) && route.target.Forum? && route.target.policy.archiveOnResolve
    requires !delta.alert.IsFiring() && delta.kind.Updated? && delta.alert.fingerprint == w.card.fingerprint
    requires w.card.fingerprint in alerts
    ensures Reaches(h, w, steps, end) && Drained(end) && (end.torn ==> w.torn) && end.lapsed == w.lapsed
    ensures end.card.state.Resolved? && end.card.IsPosted() && end.post.Posted? && !end.post.archived && !end.card.archived
  {
    var told := Told(h, w, alerts, delta, route, settings, now);
    var minutes := AutoArchiveMinutes(route, NotificationState.Resolved, settings);
    var rest := NewsIsCarried(h, told, w.queue.next, w.queue.next + 1, minutes);
    end := Redrawn(h, Unsealed(told, w.queue.next), w.queue.next + 1);
    steps := ChangeSteps(w, alerts, delta, route, settings, now);
    RunsJoin(h, w, steps, told, rest, end);
    BothRowsAreGone(h, told, w.queue.next, w.queue.next + 1);
    steps := steps + rest;
  }

  lemma BothRowsAreGone(h: RenderHash, w: World, flags: nat, edit: nat)
    requires w.queue.rows.Keys == {flags, edit} && w.post.Posted? && w.Current().Some?
    ensures
      var end := Redrawn(h, Unsealed(w, flags), edit);
      && end.queue.rows == map[] && end.post.Posted? && !end.post.archived && !end.card.archived
      && end.card.state == w.card.state && end.card.message == w.card.message
      && end.stale == w.stale && end.lostEdit == w.lostEdit && end.gone == w.gone && end.lapsed == w.lapsed
      && (end.torn ==> w.torn)
  {
    assert w.queue.rows - {flags} - {edit} == map[];
  }

  lemma NewsIsCarried(h: RenderHash, w: World, flags: nat, edit: nat, minutes: nat) returns (steps: seq<Step>)
    requires flags != edit && w.queue.rows.Keys == {flags, edit} && Idle(w, flags) && Idle(w, edit) && CollisionFree(h)
    requires w.queue.rows[flags].effect == SetFlags(w.card.id, false, false, minutes, Some(NotificationState.Resolved))
    requires w.queue.rows[edit].effect == EditCard(w.card.id)
    requires w.card.IsPosted() && w.card.thread.Some? && w.card.state.Resolved? && w.Current().Some?
    requires w.post.Posted? && w.card.renderHash == Some(h(w.post.shown))
    ensures Reaches(h, w, steps, Redrawn(h, Unsealed(w, flags), edit))
  {
    var due := w.queue.rows[flags].notBefore;
    steps := WorkingOneRow(h, w, flags, Answer.Done(false, 0, None), due);
    FlagsGoThrough(h, w, flags, minutes, due);
    var rest := Redrawing(h, Unsealed(w, flags), edit);
    RunsJoin(h, w, steps, Unsealed(w, flags), rest, Redrawn(h, Unsealed(w, flags), edit));
    steps := steps + rest;
  }

  // The world once the news is decided on and queued.
  lemma Told(
    h: RenderHash, w: World, alerts: map<Fingerprint, int>, delta: AlertDelta, route: Route,
    settings: DecisionSettings, now: int)
    returns (told: World)
    requires SealedAtRest(h, w) && route.target.Forum?
    requires !delta.alert.IsFiring() && delta.kind.Updated? && delta.alert.fingerprint == w.card.fingerprint
    ensures Reaches(h, w, ChangeSteps(w, alerts, delta, route, settings, now), told)
    ensures
      var flags, edit := w.queue.next, w.queue.next + 1;
      && told.queue.rows.Keys == {flags, edit} && Idle(told, flags) && Idle(told, edit)
      && told.queue.rows[flags].effect
         == SetFlags(w.card.id, false, false, AutoArchiveMinutes(route, NotificationState.Resolved, settings), Some(NotificationState.Resolved))
      && told.queue.rows[edit].effect == EditCard(w.card.id)
    ensures told.card == w.card && told.post == w.post && told.torn == w.torn && told.alerts == alerts
    ensures !told.stale && !told.lostEdit && !told.gone && told.lapsed == w.lapsed
  {
    NewsReopens(delta, route, w.card, settings, now);
    var update := NewsUpdate(route, w.card, settings, now);
    ChangesAreSteps(h, w, alerts, delta, route, settings, now, update);
    told := NewsWaits(w, alerts, route, settings, now);
  }

  lemma NewsWaits(w: World, alerts: map<Fingerprint, int>, route: Route, settings: DecisionSettings, now: int)
    returns (told: World)
    requires w.queue.Valid() && w.queue.rows == map[] && w.job.None? && w.batch == [] && !w.gone
    ensures told == AfterChange(w, alerts, NewsUpdate(route, w.card, settings, now), now)
    ensures
      var flags, edit := w.queue.next, w.queue.next + 1;
      && told.queue.rows.Keys == {flags, edit} && Idle(told, flags) && Idle(told, edit)
      && told.queue.rows[flags].effect
         == SetFlags(w.card.id, false, false, AutoArchiveMinutes(route, NotificationState.Resolved, settings), Some(NotificationState.Resolved))
      && told.queue.rows[edit].effect == EditCard(w.card.id)
    ensures told.card == w.card && told.post == w.post && told.torn == w.torn && told.alerts == alerts
    ensures !told.stale && !told.lostEdit && !told.gone
    ensures w.card.state.Resolved? ==> told.lapsed == w.lapsed
  {
    var update := NewsUpdate(route, w.card, settings, now);
    NewsIsQueued(w.queue, update.effects[0], update.effects[1]);
    told := AfterChange(w, alerts, update, now);
  }
}
