/** The order in which workers reach what one update queued: redrawn before sealed, sealed before reopened. */
module UpdateOrder {
  import opened Wrappers
  import opened States
  import opened DedupeKeys
  import opened Alerts
  import opened Routing
  import opened Effects
  import opened Decide
  import opened CardFacts
  import opened Outbox
  import D = Dispatch

  predicate Closes(effect: Effect) {
    effect.SetFlags? && effect.archived
  }

  // Everything queued for a card that holds its key is queued under that key.
  ghost predicate KeyedAlike(q: Queue, card: Notification) {
    forall id :: id in q.rows && q.rows[id].effect.Card() == Some(card.id) ==> q.rows[id].dedupeKey == card.dedupeKey
  }

  lemma {:induction false} EnqueueAllJoins(q: Queue, a: seq<NewOutboxItem>, b: seq<NewOutboxItem>)
    ensures EnqueueAll(q, a + b) == EnqueueAll(EnqueueAll(q, a), b)
  {
    if b == [] {
      assert a + b == a;
    } else {
      assert (a + b)[..|a + b| - 1] == a + b[..|b| - 1];
      EnqueueAllJoins(q, a, b[..|b| - 1]);
    }
  }

  // A row waiting before the items came still waits, and no later.
  lemma {:induction false} EnqueueAllKeepsWaiting(q: Queue, items: seq<NewOutboxItem>, id: nat)
    requires q.Valid() && id in q.rows && q.rows[id].claim.None?
    ensures EnqueueAll(q, items).Valid() && q.next <= EnqueueAll(q, items).next
    ensures StillWaiting(q, EnqueueAll(q, items), id)
    ensures !q.rows[id].effect.IsCoalescable() ==> EnqueueAll(q, items).rows[id] == q.rows[id]
  {
    if items != [] {
      var rest, last := items[..|items| - 1], items[|items| - 1];
      EnqueueAllKeepsWaiting(q, rest, id);
      NextKeepsWaiting(EnqueueAll(q, rest), Enqueued(last), id);
      if !q.rows[id].effect.IsCoalescable() {
        OneStepKeepsItPut(EnqueueAll(q, rest), Enqueued(last), id);
      }
    }
  }

  // A new row that nothing folds into is one of the items as it was asked for, behind every older row.
  lemma {:induction false} NewLoneRows(q: Queue, items: seq<NewOutboxItem>, id: nat) returns (i: nat)
    requires q.Valid() && id in EnqueueAll(q, items).rows && id !in q.rows
    requires !EnqueueAll(q, items).rows[id].effect.IsCoalescable()
    ensures id >= q.next && i < |items| && EnqueueAll(q, items).rows[id] == NewRow(items[i])
  {
    var n := |items| - 1;
    var before, last := EnqueueAll(q, items[..n]), items[n];
    D.EnqueueAllExtends(q, items[..n]);
    D.EnqueueExtends(before, last);
    if id in before.rows {
      i := NewLoneRows(q, items[..n], id);
      if before.rows[id].TakesIn(last.effect) {
        SameKindFoldsAlike(last.effect, before.rows[id].effect);
      }
    } else {
      i := n;
    }
  }

  // ---- Sealing a post

  function BeforeTheRedraw(route: Route, card: Notification, effective: NotificationState, settings: DecisionSettings, now: int)
    : seq<NewOutboxItem>
  {
    Opening(route, card, effective, settings, now) + Window(route, card, effective, settings, now)
  }

  function AfterTheRedraw(
    delta: AlertDelta, route: Route, card: Notification, state: Option<NotificationState>, shown: Alert,
    settings: DecisionSettings, now: int): seq<NewOutboxItem>
  {
    Decoration(delta, route, card, state.UnwrapOr(card.state), state, shown, now)
    + Strip(card, state, now) + Seal(route, card, state, settings, now)
  }

  lemma UpdatesRedrawInTheMiddle(
    delta: AlertDelta, route: Route, card: Notification, state: Option<NotificationState>, shown: Alert,
    settings: DecisionSettings, now: int)
    ensures
      UpdateEffects(delta, route, card, state, shown, settings, now)
      == BeforeTheRedraw(route, card, state.UnwrapOr(card.state), settings, now)
         + ([Redraw(card, settings, now)] + AfterTheRedraw(delta, route, card, state, shown, settings, now))
  {
  }

  lemma OnlyOpeningsBefore(
    route: Route, card: Notification, effective: NotificationState, settings: DecisionSettings, now: int)
    ensures forall item :: item in BeforeTheRedraw(route, card, effective, settings, now) ==>
      item.effect.SetFlags? && !item.effect.archived && item.dedupeKey == card.dedupeKey
  {
  }

  lemma OnlySealsAfter(
    delta: AlertDelta, route: Route, card: Notification, state: Option<NotificationState>, shown: Alert,
    settings: DecisionSettings, now: int)
    ensures forall item ::
      item in AfterTheRedraw(delta, route, card, state, shown, settings, now) && Closes(item.effect) ==>
      item.notBefore == now + settings.debounce && item.dedupeKey == card.dedupeKey
  {
    var decoration := Decoration(delta, route, card, state.UnwrapOr(card.state), state, shown, now);
    assert forall item :: item in decoration ==> !item.effect.SetFlags?;
  }

  lemma QueuedRedraw(q: Queue, card: Notification, item: NewOutboxItem) returns (redraw: nat)
    requires q.Valid() && KeyedAlike(q, card) && item.effect == EditCard(card.id) && item.dedupeKey == card.dedupeKey
    ensures
      var after := Enqueue(q, item);
      && after.Valid() && redraw in after.rows && after.rows[redraw].claim.None?
      && after.rows[redraw].effect == EditCard(card.id) && after.rows[redraw].notBefore <= item.notBefore
      && after.rows[redraw].dedupeKey == card.dedupeKey
  {
    EnqueueNeverPostpones(q, item);
    redraw :| redraw in Enqueue(q, item).rows && Enqueue(q, item).rows[redraw].effect == item.effect
      && Enqueue(q, item).rows[redraw].claim.None? && Enqueue(q, item).rows[redraw].notBefore <= item.notBefore;
  }

  // The row that came with a seal, and the row that redraws the card before it.
  lemma SealsFollowTheRedraw(
    q: Queue, delta: AlertDelta, route: Route, card: Notification, state: Option<NotificationState>, shown: Alert,
    settings: DecisionSettings, now: int, seal: nat)
    returns (redraw: nat)
    requires q.Valid() && KeyedAlike(q, card)
    requires
      var after := EnqueueAll(q, UpdateEffects(delta, route, card, state, shown, settings, now));
      seal in after.rows && seal !in q.rows && Closes(after.rows[seal].effect)
    ensures
      var after := EnqueueAll(q, UpdateEffects(delta, route, card, state, shown, settings, now));
      && after.Valid() && redraw in after.rows && after.rows[redraw].effect == EditCard(card.id)
      && after.rows[redraw].claim.None? && after.rows[seal].claim.None?
      && after.rows[redraw].dedupeKey == after.rows[seal].dedupeKey && Before(after, redraw, seal)
  {
    var first := BeforeTheRedraw(route, card, state.UnwrapOr(card.state), settings, now);
    var last := AfterTheRedraw(delta, route, card, state, shown, settings, now);
    UpdatesRedrawInTheMiddle(delta, route, card, state, shown, settings, now);
    OnlyOpeningsBefore(route, card, state.UnwrapOr(card.state), settings, now);
    OnlySealsAfter(delta, route, card, state, shown, settings, now);
    redraw := SealsFollowInTheQueue(q, card, first, Redraw(card, settings, now), last, seal);
  }

  lemma SealsFollowInTheQueue(
    q: Queue, card: Notification, first: seq<NewOutboxItem>, edit: NewOutboxItem, last: seq<NewOutboxItem>, seal: nat)
    returns (redraw: nat)
    requires q.Valid() && KeyedAlike(q, card) && edit.effect == EditCard(card.id) && edit.dedupeKey == card.dedupeKey
    requires forall item :: item in first ==>
      item.effect.SetFlags? && !item.effect.archived && (item.effect.Card() == Some(card.id) ==> item.dedupeKey == card.dedupeKey)
    requires forall item :: item in last && Closes(item.effect) ==>
      item.notBefore == edit.notBefore && item.dedupeKey == card.dedupeKey
    requires
      var after := EnqueueAll(q, first + ([edit] + last));
      seal in after.rows && seal !in q.rows && Closes(after.rows[seal].effect)
    ensures
      var after := EnqueueAll(q, first + ([edit] + last));
      && after.Valid() && redraw in after.rows && after.rows[redraw].effect == EditCard(card.id)
      && after.rows[redraw].claim.None? && after.rows[seal].claim.None?
      && after.rows[redraw].dedupeKey == after.rows[seal].dedupeKey && Before(after, redraw, seal)
  {
    var begun := EnqueueAll(q, first);
    var edited := Enqueue(begun, edit);
    EnqueueAllJoins(q, first, [edit] + last);
    EnqueueAllJoins(begun, [edit], last);
    OneItem(begun, edit);
    OpeningsAreKeyedAlike(q, card, first);
    redraw := QueuedRedraw(begun, card, edit);
    EnqueueAllKeepsWaiting(edited, last, redraw);
    D.KindFixesTheEffect(EditCard(card.id), EnqueueAll(edited, last).rows[redraw].effect);
    NoSealYet(q, first, edit, seal);
    D.EnqueueAllExtends(edited, last);
    var i := NewLoneRows(edited, last, seal);
    assert last[i] in last;
  }

  lemma OneItem(q: Queue, item: NewOutboxItem)
    ensures EnqueueAll(q, [item]) == Enqueue(q, item)
  {
    assert [item][..0] == [];
  }

  lemma OpeningsAreKeyedAlike(q: Queue, card: Notification, first: seq<NewOutboxItem>)
    requires q.Valid() && KeyedAlike(q, card)
    requires forall item :: item in first ==>
      item.effect.SetFlags? && (item.effect.Card() == Some(card.id) ==> item.dedupeKey == card.dedupeKey)
    ensures EnqueueAll(q, first).Valid() && KeyedAlike(EnqueueAll(q, first), card)
    decreases |first|
  {
    if first != [] {
      var rest, last := first[..|first| - 1], first[|first| - 1];
      OpeningsAreKeyedAlike(q, card, rest);
      assert last in first;
      D.EnqueueExtends(EnqueueAll(q, rest), last);
    }
  }

  // Nothing before the redraw closes a post.
  lemma NoSealYet(q: Queue, first: seq<NewOutboxItem>, edit: NewOutboxItem, seal: nat)
    requires q.Valid() && seal !in q.rows && edit.effect.EditCard?
    requires forall item :: item in first ==> item.effect.SetFlags? && !item.effect.archived
    ensures
      var edited := Enqueue(EnqueueAll(q, first), edit);
      seal in edited.rows ==> !Closes(edited.rows[seal].effect)
  {
    var begun := EnqueueAll(q, first);
    D.EnqueueAllExtends(q, first);
    D.EnqueueExtends(begun, edit);
    if seal in begun.rows {
      var i := D.NewRowsAreItems(q, first, seal);
      assert first[i] in first;
    }
  }

  // A post is redrawn before it is sealed. However the queue is worked from then on, whoever first
  // takes the seal takes the redraw with it and before it, unless that was taken already.
  lemma SealsWaitForTheRedraw(
    q: Queue, delta: AlertDelta, route: Route, card: Notification, ignored: bool, acknowledged: bool,
    siblings: seq<Alert>, settings: DecisionSettings, now: int, seal: nat, steps: seq<Step>)
    returns (redraw: nat)
    requires q.Valid() && KeyedAlike(q, card) && !card.state.Orphaned?
    requires
      var after :=
        EnqueueAll(q, UpdateFor(delta, route, card, ignored, acknowledged, siblings, settings, now).value.effects);
      && seal in after.rows && seal !in q.rows && Closes(after.rows[seal].effect)
      && Outbox.Run(after, steps) && steps != [] && Takes(steps[|steps| - 1], seal)
      && forall i :: 0 <= i < |steps| - 1 ==> !Takes(steps[i], seal)
    ensures
      var after :=
        EnqueueAll(q, UpdateFor(delta, route, card, ignored, acknowledged, siblings, settings, now).value.effects);
      && redraw in after.rows && after.rows[redraw].effect == EditCard(card.id) && Before(after, redraw, seal)
    ensures TakenFirst(
      EnqueueAll(q, UpdateFor(delta, route, card, ignored, acknowledged, siblings, settings, now).value.effects),
      steps, redraw, seal)
  {
    var (shown, state) := Move(delta, route, card, ignored, acknowledged, siblings);
    redraw := SealsFollowTheRedraw(q, delta, route, card, state, shown, settings, now, seal);
    var after := EnqueueAll(q, UpdateEffects(delta, route, card, state, shown, settings, now));
    EarlierRowsAreTakenFirst(after, steps, redraw, seal);
  }

  // ---- Taking a seal back

  // A post left open on resolve and then brought back gets its opening behind every seal still
  // waiting, if that was queued no later and under no longer a debounce.
  lemma ReopeningsComeAfterSeals(
    q: Queue, delta: AlertDelta, route: Route, card: Notification, state: Option<NotificationState>, shown: Alert,
    settings: DecisionSettings, now: int, seal: nat, opening: nat, steps: seq<Step>)
    requires q.Valid() && KeyedAlike(q, card) && !card.archived && state.UnwrapOr(card.state).HoldsThreadOpen()
    requires seal in q.rows && q.rows[seal].claim.None? && Closes(q.rows[seal].effect)
    requires q.rows[seal].effect.card == card.id && q.rows[seal].notBefore <= now + settings.debounce
    requires
      var after := EnqueueAll(q, UpdateEffects(delta, route, card, state, shown, settings, now));
      && opening in after.rows && opening !in q.rows && after.rows[opening].effect.SetFlags?
      && Outbox.Run(after, steps) && steps != [] && Takes(steps[|steps| - 1], opening)
      && forall i :: 0 <= i < |steps| - 1 ==> !Takes(steps[i], opening)
    ensures
      var after := EnqueueAll(q, UpdateEffects(delta, route, card, state, shown, settings, now));
      && seal in after.rows && after.rows[seal] == q.rows[seal] && Before(after, seal, opening)
    ensures TakenFirst(
      EnqueueAll(q, UpdateEffects(delta, route, card, state, shown, settings, now)), steps, seal, opening)
  {
    var items := UpdateEffects(delta, route, card, state, shown, settings, now);
    EnqueueAllKeepsWaiting(q, items, seal);
    var i := NewLoneRows(q, items, opening);
    OpeningsAreDueLater(delta, route, card, state, shown, settings, now, items[i]);
    EarlierRowsAreTakenFirst(EnqueueAll(q, items), steps, seal, opening);
  }

  lemma OpeningsAreDueLater(
    delta: AlertDelta, route: Route, card: Notification, state: Option<NotificationState>, shown: Alert,
    settings: DecisionSettings, now: int, item: NewOutboxItem)
    requires !card.archived && item in UpdateEffects(delta, route, card, state, shown, settings, now)
    requires item.effect.SetFlags?
    ensures item.notBefore == now + settings.debounce && item.dedupeKey == card.dedupeKey
  {
  }
}
