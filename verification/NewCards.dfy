/** A new card, from the change that calls for it to the row that posts it. */
module NewCards {
  import opened Wrappers
  import opened States
  import opened Labels
  import opened DedupeKeys
  import opened Alerts
  import opened Routing
  import opened Storm
  import opened Effects
  import opened Decide
  import opened Cards
  import opened CardFacts
  import opened CardStore
  import opened CardRuns
  import opened CardKeys
  import Outbox
  import UpdateOrder

  // The row of a card nobody has posted yet.
  predicate AsPlanned(card: Notification, id: CardId, planned: NewNotification) {
    && card.id == id && card.dedupeKey == planned.dedupeKey && card.fingerprint == planned.fingerprint
    && card.routeId == planned.routeId && card.channel == planned.channel && card.state == planned.state
    && card.supersedes == planned.supersedes && card.createdAt == planned.createdAt
    && card.message.None? && card.thread.None? && card.renderHash.None? && card.resolvedAt.None?
    && !card.pinned && !card.archived
  }

  // One effect waits to post the card, due as planned, and mentions only if that was planned.
  predicate Posts(row: Outbox.Row, id: CardId, planned: PlannedCard) {
    && row.effect == PostCard(id, planned.mention) && row.dedupeKey == planned.card.dedupeKey
    && row.notBefore == planned.notBefore && row.attempts == 0 && row.claim.None?
  }

  ghost predicate Announces(t: Tables, planned: PlannedCard, from: CardId, id: CardId, row: nat) {
    && from <= id && id in t.cards && AsPlanned(t.cards[id], id, planned.card)
    && row in t.queue.rows && Posts(t.queue.rows[row], id, planned)
  }

  ghost predicate Announced(t: Tables, planned: PlannedCard, from: CardId) {
    exists id, row :: Announces(t, planned, from, id, row)
  }

  lemma AddedCardIsAnnounced(t: Tables, planned: PlannedCard)
    requires t.queue.Valid() && AddCard(t, planned).Ok?
    ensures AddCard(t, planned).value.queue.Valid()
    ensures Announces(AddCard(t, planned).value, planned, t.nextCard, t.nextCard, t.queue.next)
  {
    assert !PostCard(t.nextCard, planned.mention).IsCoalescable();
  }

  // A card announced stays so while others are added: nobody takes its key from it, and its row is left alone.
  lemma AddingKeepsAnnounced(t: Tables, other: PlannedCard, planned: PlannedCard, from: CardId)
    requires t.queue.Valid() && Announced(t, planned, from) && AddCard(t, other).Ok? && RowsSound(t.cards, t.nextCard)
    requires other.card.supersedes.Some? ==> other.card.supersedes.value < from
    ensures Announced(AddCard(t, other).value, planned, from)
  {
    var id, row :| Announces(t, planned, from, id, row);
    assert Announces(AddCard(t, other).value, planned, from, id, row);
  }

  ghost predicate Plannable(planned: seq<PlannedCard>, from: CardId) {
    && (forall p :: p in planned ==> LiveKey(p.card.dedupeKey) && p.card.state.IsOpen())
    && (forall p :: p in planned && p.card.supersedes.Some? ==> p.card.supersedes.value < from)
  }

  lemma PrefixesArePlannable(planned: seq<PlannedCard>, from: CardId)
    requires Plannable(planned, from) && planned != []
    ensures Plannable(planned[..|planned| - 1], from) && planned[|planned| - 1] in planned
  {
  }

  lemma {:induction false} AddedCardsAreAnnounced(t: Tables, planned: seq<PlannedCard>, i: nat)
    requires KeysSound(t) && t.queue.Valid() && AddCards(t, planned).Ok? && i < |planned|
    requires Plannable(planned, t.nextCard)
    ensures AddCards(t, planned).value.queue.Valid() && Announced(AddCards(t, planned).value, planned[i], t.nextCard)
  {
    var n := |planned| - 1;
    var before := AddCards(t, planned[..n]).value;
    PrefixesArePlannable(planned, t.nextCard);
    AddingAllKeepsKeys(t, planned[..n]);
    AddingGoesOn(t, planned[..n]);
    AddedCardIsAnnounced(before, planned[n]);
    if i < n {
      AddedCardsAreAnnounced(t, planned[..n], i);
      AddingKeepsAnnounced(before, planned[n], planned[..n][i], t.nextCard);
    } else {
      EarlierFromsDo(AddCard(before, planned[n]).value, planned[n], before.nextCard, before.queue.next, t.nextCard);
    }
  }

  lemma EarlierFromsDo(t: Tables, planned: PlannedCard, id: CardId, row: nat, from: CardId)
    requires Announces(t, planned, id, id, row) && from <= id
    ensures Announced(t, planned, from)
  {
    assert Announces(t, planned, from, id, row);
  }

  lemma {:induction false} AddingGoesOn(t: Tables, planned: seq<PlannedCard>)
    requires t.queue.Valid() && AddCards(t, planned).Ok?
    ensures AddCards(t, planned).value.queue.Valid() && t.nextCard <= AddCards(t, planned).value.nextCard
  {
    if planned != [] {
      AddingGoesOn(t, planned[..|planned| - 1]);
      AddedCardIsAnnounced(AddCards(t, planned[..|planned| - 1]).value, planned[|planned| - 1]);
    }
  }

  // Updates are of older cards, and what they queue leaves the row alone.
  lemma {:induction false} UpdatingKeepsAnnounced(t: Tables, updates: seq<CardUpdate>, at: int, planned: PlannedCard, from: CardId)
    requires t.queue.Valid() && Announced(t, planned, from) && ApplyUpdates(t, updates, at).Ok?
    requires forall u :: u in updates ==> u.id < from
    ensures ApplyUpdates(t, updates, at).value.queue.Valid() && Announced(ApplyUpdates(t, updates, at).value, planned, from)
  {
    if updates != [] {
      var rest, last := updates[..|updates| - 1], updates[|updates| - 1];
      assert last in updates;
      UpdatingKeepsAnnounced(t, rest, at, planned, from);
      var before := ApplyUpdates(t, rest, at).value;
      var id, row :| Announces(before, planned, from, id, row);
      UpdateOrder.EnqueueAllKeepsWaiting(before.queue, last.effects, row);
      assert Announces(ApplyUpdate(before, last, at).value, planned, from, id, row);
    }
  }

  // ---- From the change to the row

  // The channel, forum, thread or user a card goes to.
  function Whereto(target: RouteTarget): nat {
    match target
    case Text(channel, _) => channel
    case Forum(forum, _) => forum
    case Thread(thread) => thread
    case Dm(user) => user
  }

  // What a route plans for an alert it holds no card for.
  ghost predicate CalledFor(delta: AlertDelta, route: Route, now: int, planned: PlannedCard) {
    && planned.card.fingerprint == delta.alert.fingerprint && planned.card.routeId == route.id
    && planned.card.channel == Whereto(route.target) && planned.card.createdAt == now == planned.notBefore
    && planned.card.state == (if delta.alert.amState.Suppressed? then NotificationState.Silenced else NotificationState.Firing)
    && (planned.mention <==>
          && delta.kind.Fired? && !delta.alert.amState.Suppressed? && !route.mentions.nobody
          && (route.mentions.minSeverity.Some? ==>
                delta.alert.severity.Rank() >= route.mentions.minSeverity.value.Rank()))
  }

  lemma PlansAreCalledFor(
    delta: AlertDelta, route: Route, snapshot: RoutingSnapshot, storm: StormState, existing: ExistingCards,
    context: AlertContext, settings: DecisionSettings, now: int)
    requires DecideRoute(delta, route, snapshot, storm, existing, context, settings, now).Create?
    ensures
      var planned := DecideRoute(delta, route, snapshot, storm, existing, context, settings, now).planned;
      CalledFor(delta, route, now, planned) && delta.alert.IsFiring()
  {
  }

  lemma {:induction false} CreationsAreInTheDecision(
    t: Tables, delta: AlertDelta, routes: seq<Route>, snapshot: RoutingSnapshot, storm: StormState,
    context: AlertContext, settings: DecisionSettings, now: int, r: nat)
    requires KeysSound(t) && r < |routes|
    requires DecideRoute(delta, routes[r], snapshot, storm, Existing(t.cards), context, settings, now).Create?
    ensures
      var d := DecideRoutes(delta, routes, snapshot, storm, Existing(t.cards), context, settings, now);
      DecideRoute(delta, routes[r], snapshot, storm, Existing(t.cards), context, settings, now).planned in d.newCards
  {
    if r < |routes| - 1 {
      CreationsAreInTheDecision(t, delta, routes[..|routes| - 1], snapshot, storm, context, settings, now, r);
    }
  }

  lemma {:induction false} PlansReplaceOlderCards(
    t: Tables, delta: AlertDelta, routes: seq<Route>, snapshot: RoutingSnapshot, storm: StormState,
    context: AlertContext, settings: DecisionSettings, now: int)
    requires KeysSound(t)
    ensures
      var d := DecideRoutes(delta, routes, snapshot, storm, Existing(t.cards), context, settings, now);
      forall p :: p in d.newCards && p.card.supersedes.Some? ==> p.card.supersedes.value < t.nextCard
  {
    if routes != [] {
      var rest, last := routes[..|routes| - 1], routes[|routes| - 1];
      PlansReplaceOlderCards(t, delta, rest, snapshot, storm, context, settings, now);
      if DecideRoute(delta, last, snapshot, storm, Existing(t.cards), context, settings, now).Create? {
        PlannedKeyIsTheLast(delta, last, snapshot, storm, Existing(t.cards), context, settings, now);
        HeldIsFound(
          DedupeKeysFor(delta.alert, last, storm, settings, now), last.DeliveryChannel(), t, delta.alert, settings, now);
      }
    }
  }

  // From the change to the queue: each route that has no card for a firing alert to go on, and is not muted,
  // gets one with the alert and the route of the change, and one row waits to post it, which mentions exactly
  // when the change is a fire, nobody suppresses it, and the route mentions for its severity.
  lemma NewAlertsAreAnnounced(t: Tables, step: CardStep, r: nat) returns (planned: PlannedCard)
    requires KeysSound(t) && t.queue.Valid() && step.Changed? && Fitting(step) && ApplyDecision(t, DecisionAt(t, step)).Ok?
    requires
      var routes := Resolve(step.snapshot.routes, step.delta.alert.labels, step.delta.alert.severity);
      && r < |routes|
      && DecideRoute(step.delta, routes[r], step.snapshot, step.storm, Existing(t.cards), step.context, step.settings, step.now).Create?
    ensures
      var routes := Resolve(step.snapshot.routes, step.delta.alert.labels, step.delta.alert.severity);
      CalledFor(step.delta, routes[r], step.now, planned)
    ensures Announced(NextTables(t, step), planned, t.nextCard)
  {
    var routes := Resolve(step.snapshot.routes, step.delta.alert.labels, step.delta.alert.severity);
    var d := DecisionAt(t, step);
    planned :=
      DecideRoute(step.delta, routes[r], step.snapshot, step.storm, Existing(t.cards), step.context, step.settings, step.now).planned;
    PlansAreCalledFor(
      step.delta, routes[r], step.snapshot, step.storm, Existing(t.cards), step.context, step.settings, step.now);
    CreationsAreInTheDecision(t, step.delta, routes, step.snapshot, step.storm, step.context, step.settings, step.now, r);
    PlansReplaceOlderCards(t, step.delta, routes, step.snapshot, step.storm, step.context, step.settings, step.now);
    DecidingIsKeyed(t, step.delta, routes, step.snapshot, step.storm, step.context, step.settings, step.now);
    PlannedCardsAreAnnounced(t, d, planned);
  }

  lemma PlannedCardsAreAnnounced(t: Tables, d: Decision, planned: PlannedCard)
    requires KeysSound(t) && t.queue.Valid() && KeyedDecision(t.cards, d) && ApplyDecision(t, d).Ok? && planned in d.newCards
    requires forall p :: p in d.newCards && p.card.supersedes.Some? ==> p.card.supersedes.value < t.nextCard
    ensures Announced(ApplyDecision(t, d).value, planned, t.nextCard)
  {
    var i :| 0 <= i < |d.newCards| && d.newCards[i] == planned;
    assert Plannable(d.newCards, t.nextCard);
    AddedCardsAreAnnounced(t, d.newCards, i);
    forall u | u in d.updates ensures u.id < t.nextCard {
      assert UpdatesSoundly(t.cards, u);
    }
    UpdatingKeepsAnnounced(AddCards(t, d.newCards).value, d.updates, d.at, planned, t.nextCard);
  }
}
