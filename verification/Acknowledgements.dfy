/** An acknowledgement, kept through everything else that happens to a card. */
module Acknowledgements {
  import opened Wrappers
  import opened States
  import opened Labels
  import opened DedupeKeys
  import opened Alerts
  import opened Routing
  import opened Storm
  import opened Effects
  import opened Decide
  import opened Cards
  import opened CardFacts
  import opened CardStore
  import opened CardRuns
  import opened CardKeys

  // ---- One decision

  // Put away: resolved, silenced or muted.
  predicate PutAway(state: NotificationState) {
    state.Resolved? || state.Silenced? || state.Ignored?
  }

  // Showing on a channel, answered or not.
  predicate Showing(state: NotificationState) {
    state.Firing? || state.Acked?
  }

  function Resumed(acknowledged: bool): NotificationState {
    if acknowledged then NotificationState.Acked else NotificationState.Firing
  }

  // Where an unmuted firing alert leaves its card, whatever the card was at.
  lemma FiringAlertsLeaveTheCard(
    delta: AlertDelta, route: Route, card: Notification, acknowledged: bool, siblings: seq<Alert>,
    settings: DecisionSettings, now: int)
    requires !card.state.Orphaned? && delta.alert.IsFiring() && KindAgrees(delta.kind, delta.alert)
    ensures
      var update := UpdateFor(delta, route, card, false, acknowledged, siblings, settings, now);
      && update.Some?
      && Landed(card, update.value)
         == match card.state
            case Resolved => if delta.alert.amState.Suppressed? then NotificationState.Silenced else Resumed(acknowledged)
            case Silenced => if delta.kind.Unsilenced? then Resumed(acknowledged) else NotificationState.Silenced
            case Ignored => Resumed(acknowledged)
            case _ => if delta.kind.Silenced? then NotificationState.Silenced else card.state
  {
  }

  // A card put away comes back answered exactly when its alert is, and no card of an answered alert
  // becomes unanswered.
  predicate Honours(was: NotificationState, acknowledged: bool, state: Option<NotificationState>) {
    state.Some? ==>
      && (PutAway(was) && Showing(state.value) ==> (state.value.Acked? <==> acknowledged))
      && (acknowledged ==> !state.value.Firing?)
  }

  lemma UpdatesHonour(
    delta: AlertDelta, route: Route, card: Notification, ignored: bool, acknowledged: bool, siblings: seq<Alert>,
    settings: DecisionSettings, now: int)
    ensures
      var update := UpdateFor(delta, route, card, ignored, acknowledged, siblings, settings, now);
      update.Some? ==> update.value.id == card.id && Honours(card.state, acknowledged, update.value.state)
  {
  }

  ghost predicate HonouredBy(cards: CardTable, acknowledged: bool, update: CardUpdate) {
    update.id in cards && Honours(cards[update.id].state, acknowledged, update.state)
  }

  lemma RoutesHonour(
    t: Tables, delta: AlertDelta, route: Route, snapshot: RoutingSnapshot, storm: StormState,
    context: AlertContext, settings: DecisionSettings, now: int)
    requires KeysSound(t)
    ensures
      var outcome := DecideRoute(delta, route, snapshot, storm, Existing(t.cards), context, settings, now);
      outcome.Update? ==> HonouredBy(t.cards, context.acknowledged, outcome.update)
  {
    var channel := route.DeliveryChannel();
    var ignored := snapshot.Ignores(route.guild, channel, delta.alert.labels, now);
    var keys := DedupeKeysFor(delta.alert, route, storm, settings, now);
    HeldIsFound(keys, channel, t, delta.alert, settings, now);
    var held := Held(keys, channel, Existing(t.cards), delta.alert, settings, now).0;
    if held.Some? {
      var siblings := if held.value.dedupeKey == PerAlertKey(delta.alert, settings) then context.firingSiblings else [];
      UpdatesHonour(delta, route, held.value, ignored, context.acknowledged, siblings, settings, now);
    }
  }

  lemma {:induction false} DecisionsHonour(
    t: Tables, delta: AlertDelta, routes: seq<Route>, snapshot: RoutingSnapshot, storm: StormState,
    context: AlertContext, settings: DecisionSettings, now: int)
    requires KeysSound(t)
    ensures
      var d := DecideRoutes(delta, routes, snapshot, storm, Existing(t.cards), context, settings, now);
      forall u :: u in d.updates ==> HonouredBy(t.cards, context.acknowledged, u)
  {
    if routes != [] {
      var rest, last := routes[..|routes| - 1], routes[|routes| - 1];
      DecisionsHonour(t, delta, rest, snapshot, storm, context, settings, now);
      RoutesHonour(t, delta, last, snapshot, storm, context, settings, now);
    }
  }

  // What is known of the acknowledgement reaches the card the route holds.
  lemma FiresReachTheHeldCard(
    delta: AlertDelta, route: Route, snapshot: RoutingSnapshot, storm: StormState, existing: ExistingCards,
    context: AlertContext, settings: DecisionSettings, now: int)
    requires delta.alert.IsFiring() && !delta.alert.amState.Suppressed? && KindAgrees(delta.kind, delta.alert)
    requires !snapshot.Ignores(route.guild, route.DeliveryChannel(), delta.alert.labels, now)
    ensures
      var keys := DedupeKeysFor(delta.alert, route, storm, settings, now);
      var held := Held(keys, route.DeliveryChannel(), existing, delta.alert, settings, now).0;
      var outcome := DecideRoute(delta, route, snapshot, storm, existing, context, settings, now);
      held.Some? && (held.value.state.Resolved? || held.value.state.Ignored?) ==>
        outcome.Update? && outcome.update.state == Some(Resumed(context.acknowledged))
  {
  }

  // ---- What the store makes of it

  lemma {:induction false} AddingKeepsStates(t: Tables, planned: seq<PlannedCard>, id: CardId)
    requires KeysSound(t) && id in t.cards && AddCards(t, planned).Ok?
    ensures
      var after := AddCards(t, planned).value;
      && after.nextCard >= t.nextCard && after.acks == t.acks
      && id in after.cards && after.cards[id].state == t.cards[id].state
  {
    if planned != [] {
      AddingKeepsStates(t, planned[..|planned| - 1], id);
    }
  }

  // A card's state after some updates is the one it had, or one that an update gave it.
  lemma {:induction false} StatesComeFromUpdates(t: Tables, updates: seq<CardUpdate>, at: int, id: CardId)
    requires id in t.cards && ApplyUpdates(t, updates, at).Ok?
    ensures
      var after := ApplyUpdates(t, updates, at).value;
      && id in after.cards && after.acks == t.acks
      && (after.cards[id].state == t.cards[id].state
          || exists u :: u in updates && u.id == id && u.state == Some(after.cards[id].state))
  {
    if updates != [] {
      var rest, last := updates[..|updates| - 1], updates[|updates| - 1];
      StatesComeFromUpdates(t, rest, at, id);
      assert last in updates && forall u :: u in rest ==> u in updates;
    }
  }

  // Any change of a card's state by a decision is one that an update of it asked for.
  lemma ChangesComeFromUpdates(t: Tables, step: CardStep, id: CardId)
    requires KeysSound(t) && step.Changed? && id in t.cards
    ensures
      var after := NextTables(t, step);
      && id in after.cards && after.acks == t.acks
      && (after.cards[id].state == t.cards[id].state
          || exists u :: u in DecisionAt(t, step).updates && u.id == id && u.state == Some(after.cards[id].state))
  {
    var d := DecisionAt(t, step);
    if ApplyDecision(t, d).Ok? {
      AddingKeepsStates(t, d.newCards, id);
      StatesComeFromUpdates(AddCards(t, d.newCards).value, d.updates, d.at, id);
    }
  }

  // ---- What the decider reads

  // One of the cards looked up for the change is answered.
  ghost predicate SomeCardIsAcked(t: Tables, step: CardStep)
    requires step.Changed? && OneCardPerKey(t.cards)
  {
    exists route, key ::
      && route in Resolve(step.snapshot.routes, step.delta.alert.labels, step.delta.alert.severity)
      && key in DedupeKeysFor(step.delta.alert, route, step.storm, step.settings, step.now)
      && (route.DeliveryChannel(), key) in Existing(t.cards)
      && Existing(t.cards)[(route.DeliveryChannel(), key)].state.Acked?
  }

  // The alert is answered when somebody holds it, or a card of it says so.
  ghost predicate AsRead(t: Tables, step: CardStep)
    requires OneCardPerKey(t.cards)
  {
    step.Changed? ==>
      (step.context.acknowledged <==> step.delta.alert.fingerprint in t.acks || SomeCardIsAcked(t, step))
  }

  // A card brought back is answered exactly when its alert is.
  lemma CardsComeBackAckedWhen(t: Tables, step: CardStep, id: CardId)
    requires KeysSound(t) && step.Changed? && AsRead(t, step) && id in t.cards
    requires PutAway(t.cards[id].state) && id in NextTables(t, step).cards && Showing(NextTables(t, step).cards[id].state)
    ensures
      NextTables(t, step).cards[id].state.Acked? <==>
      step.delta.alert.fingerprint in t.acks || SomeCardIsAcked(t, step)
  {
    ChangesComeFromUpdates(t, step, id);
    DecisionsHonour(
      t, step.delta, Resolve(step.snapshot.routes, step.delta.alert.labels, step.delta.alert.severity), step.snapshot,
      step.storm, step.context, step.settings, step.now);
    var u :| u in DecisionAt(t, step).updates && u.id == id && u.state == Some(NextTables(t, step).cards[id].state);
    assert HonouredBy(t.cards, step.context.acknowledged, u);
  }

  // ---- Over runs

  // Steps through which alert `f` is held and card `id` is its own: only its changes update the card,
  // and neither it nor anything else the card answers to is given up.
  ghost predicate HeldThrough(t: Tables, step: CardStep, id: CardId, f: Fingerprint)
    requires OneCardPerKey(t.cards)
  {
    && AsRead(t, step) && Fitting(step)
    && match step
       case Changed(delta, _, _, _, _, _) =>
         delta.alert.fingerprint != f ==> forall u :: u in DecisionAt(t, step).updates ==> u.id != id
       case AckMoved(g, revoke, _) => revoke ==> g != f && (id in t.cards ==> !Concerns(t.cards[id], g))
       case _ => true
  }

  ghost predicate AllHeldThrough(t: Tables, steps: seq<CardStep>, id: CardId, f: Fingerprint)
    decreases |steps|
  {
    steps == []
    || (OneCardPerKey(t.cards) && HeldThrough(t, steps[0], id, f) && AllHeldThrough(NextTables(t, steps[0]), steps[1..], id, f))
  }

  ghost predicate StaysAnswered(t: Tables, id: CardId, f: Fingerprint) {
    KeysSound(t) && f in t.acks && id in t.cards && !t.cards[id].state.Firing?
  }

  lemma ChangesStayAnswered(t: Tables, step: CardStep, id: CardId, f: Fingerprint)
    requires StaysAnswered(t, id, f) && step.Changed? && HeldThrough(t, step, id, f)
    ensures StaysAnswered(NextTables(t, step), id, f)
  {
    StepsKeepKeys(t, step);
    ChangesComeFromUpdates(t, step, id);
    DecisionsHonour(
      t, step.delta, Resolve(step.snapshot.routes, step.delta.alert.labels, step.delta.alert.severity), step.snapshot,
      step.storm, step.context, step.settings, step.now);
    var after := NextTables(t, step).cards[id].state;
    if after != t.cards[id].state {
      var u :| u in DecisionAt(t, step).updates && u.id == id && u.state == Some(after);
      assert HonouredBy(t.cards, step.context.acknowledged, u);
    }
  }

  lemma StepsStayAnswered(t: Tables, step: CardStep, id: CardId, f: Fingerprint)
    requires StaysAnswered(t, id, f) && HeldThrough(t, step, id, f)
    ensures StaysAnswered(NextTables(t, step), id, f)
  {
    if step.Changed? {
      ChangesStayAnswered(t, step, id, f);
    } else {
      StepsKeepKeys(t, step);
    }
  }

  // An alert that flaps does not drop its acknowledgement. Resolved, silenced or muted, and back, any
  // number of times: while somebody holds the alert its card never shows it as unanswered.
  lemma {:induction false} HeldAlertsStayAnswered(t: Tables, steps: seq<CardStep>, end: Tables, id: CardId, f: Fingerprint)
    requires StaysAnswered(t, id, f) && Reaches(t, steps, end) && AllHeldThrough(t, steps, id, f)
    ensures StaysAnswered(end, id, f)
    decreases steps
  {
    if steps != [] {
      StepsStayAnswered(t, steps[0], id, f);
      HeldAlertsStayAnswered(NextTables(t, steps[0]), steps[1..], end, id, f);
    }
  }

  // ---- Acknowledging and revoking

  // The card shows the alert, or is keyed as the alert's own, and still has a message.
  predicate Concerns(card: Notification, f: Fingerprint) {
    !card.state.Orphaned? && (card.fingerprint == f || card.dedupeKey == DedupeKeys.PerAlert(f))
  }

  // Acknowledging answers every firing card of the alert and touches nothing else, and only the first
  // time counts.
  lemma AcknowledgingAnswers(t: Tables, f: Fingerprint, at: int)
    ensures
      var after := AcknowledgeAlert(t, f, false, at);
      && f in after.acks && after.acks == t.acks + {f}
      && after.cards.Keys == t.cards.Keys && after.nextCard == t.nextCard && after.queue == t.queue
      && forall id :: id in t.cards ==>
           after.cards[id] ==
           if f !in t.acks && Concerns(t.cards[id], f) && t.cards[id].state.Firing?
           then t.cards[id].(state := NotificationState.Acked, resolvedAt := None) else t.cards[id]
  {
    assert f in t.acks ==> t.acks == t.acks + {f};
  }

  // Revoking takes the answer back from every card of the alert that carries it.
  lemma RevokingUnanswers(t: Tables, f: Fingerprint, at: int)
    ensures
      var after := AcknowledgeAlert(t, f, true, at);
      && f !in after.acks && after.acks == t.acks - {f}
      && after.cards.Keys == t.cards.Keys && after.nextCard == t.nextCard && after.queue == t.queue
      && forall id :: id in t.cards ==>
           after.cards[id] ==
           if f in t.acks && Concerns(t.cards[id], f) && t.cards[id].state.Acked?
           then t.cards[id].(state := NotificationState.Firing, resolvedAt := None) else t.cards[id]
  {
    assert f !in t.acks ==> t.acks == t.acks - {f};
  }

  // One card acknowledged and then taken back.
  function ThereAndBack(card: Notification, f: Fingerprint): Notification {
    if !Concerns(card, f) then card
    else if card.state.Acked? then card.(state := NotificationState.Firing, resolvedAt := None)
    else if card.state.Firing? then card.(resolvedAt := None)
    else card
  }

  lemma BothMovesAre(t: Tables, f: Fingerprint, at: int, later: int)
    requires f !in t.acks
    ensures
      var back := AcknowledgeAlert(AcknowledgeAlert(t, f, false, at), f, true, later);
      && back.acks == t.acks && back.nextCard == t.nextCard && back.queue == t.queue && back.cards.Keys == t.cards.Keys
      && forall id :: id in t.cards ==> back.cards[id] == ThereAndBack(t.cards[id], f)
  {
    AcknowledgingAnswers(t, f, at);
    RevokingUnanswers(AcknowledgeAlert(t, f, false, at), f, later);
  }

  // So revoking undoes an acknowledgement, exactly when it finds no other answer on the cards it reaches.
  lemma RevokingUndoesWhen(t: Tables, f: Fingerprint, at: int, later: int)
    requires f !in t.acks && forall id :: id in t.cards && Showing(t.cards[id].state) ==> t.cards[id].resolvedAt.None?
    ensures
      AcknowledgeAlert(AcknowledgeAlert(t, f, false, at), f, true, later) == t
      <==> forall id :: id in t.cards && Concerns(t.cards[id], f) ==> !t.cards[id].state.Acked?
  {
    var back := AcknowledgeAlert(AcknowledgeAlert(t, f, false, at), f, true, later);
    BothMovesAre(t, f, at, later);
    if forall id :: id in t.cards && Concerns(t.cards[id], f) ==> !t.cards[id].state.Acked? {
      assert forall id :: id in t.cards ==> back.cards[id] == t.cards[id];
      assert back.cards == t.cards;
    }
    if id :| id in t.cards && Concerns(t.cards[id], f) && t.cards[id].state.Acked? {
      assert back.cards[id] != t.cards[id];
    }
  }
}
