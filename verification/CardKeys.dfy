/** Keys in every store the decision can reach, storms and all. */
module CardKeys {
  import opened Wrappers
  import opened States
  import opened Labels
  import opened Texts
  import opened DedupeKeys
  import opened Alerts
  import opened Routing
  import opened Storm
  import opened Effects
  import opened Decide
  import opened Cards
  import opened CardFacts
  import opened CardStore
  import opened CardRuns

  // Every row is filed under its id and keyed live or retired, and the unique index holds.
  ghost predicate KeysSound(t: Tables) {
    RowsSound(t.cards, t.nextCard) && OneCardPerKey(t.cards)
  }

  // Route ids fit the column that holds them, and the instant is one.
  ghost predicate Fits(routes: seq<Route>, settings: DecisionSettings, now: int) {
    && IsTimestamp(now / SECOND)
    && forall r :: r in routes ==> IsI64(r.id)
  }

  ghost predicate Fitting(step: CardStep) {
    step.Changed? ==>
      Fits(Resolve(step.snapshot.routes, step.delta.alert.labels, step.delta.alert.severity), step.settings, step.now)
  }

  // ---- What a route can decide

  lemma ConfiguredKeysAreLive(alert: Alert, route: Route, settings: DecisionSettings, now: int)
    requires Fits([route], settings, now)
    ensures LiveKey(ConfiguredKey(alert, route, settings, now)) && LiveKey(DigestKeyAt(route, settings, now))
  {
    assert route in [route];
    var window := WindowAt(settings, now);
    var digest := KeyScope.Digest(route.id, window);
    assert WellFormed(digest) && DigestKeyAt(route, settings, now) == KeyOf(digest);
    var own := KeyScope.Alert(settings.Identity(alert));
    assert WellFormed(own) && PerAlertKey(alert, settings) == KeyOf(own);
    if alert.groupKey.Some? {
      var group := KeyScope.Group(alert.groupKey.value);
      assert WellFormed(group) && DedupeKeys.PerGroup(alert.groupKey.value) == KeyOf(group);
    }
  }

  lemma PlannedKeyIsTheLast(
    delta: AlertDelta, route: Route, snapshot: RoutingSnapshot, storm: StormState, existing: ExistingCards,
    context: AlertContext, settings: DecisionSettings, now: int)
    requires DecideRoute(delta, route, snapshot, storm, existing, context, settings, now).Create?
    ensures
      var planned := DecideRoute(delta, route, snapshot, storm, existing, context, settings, now).planned.card;
      var keys := DedupeKeysFor(delta.alert, route, storm, settings, now);
      && planned.channel == route.DeliveryChannel() && planned.dedupeKey == keys[|keys| - 1]
      && planned.state.IsOpen() && planned.createdAt == now
      && Held(keys, planned.channel, existing, delta.alert, settings, now).0.None?
      && var outlived := Held(keys, planned.channel, existing, delta.alert, settings, now).1;
      planned.supersedes == if outlived.Some? then Some(outlived.value.id) else None
  {
  }

  lemma DigestsAreNotConfigured(alert: Alert, route: Route, settings: DecisionSettings, now: int)
    requires !route.strategy.Digest?
    ensures ConfiguredKey(alert, route, settings, now) != DigestKeyAt(route, settings, now)
  {
    assert DigestKeyAt(route, settings, now)[0] == 'd';
    assert ConfiguredKey(alert, route, settings, now)[0] in {'a', 'g'};
  }

  // Off a storm, two changes on one route go to one card exactly when their alerts count as one, share a named
  // group, or fall in one window, as the route's strategy has it; an alert of no known group counts as itself.
  lemma ChangesShareAKeyWhen(a: Alert, b: Alert, route: Route, settings: DecisionSettings, at: int, later: int)
    requires Fits([route], settings, at) && Fits([route], settings, later)
    requires IsTimestamp(WindowStart(at / SECOND, settings.digestWindow / SECOND))
    requires IsTimestamp(WindowStart(later / SECOND, settings.digestWindow / SECOND))
    ensures
      ConfiguredKey(a, route, settings, at) == ConfiguredKey(b, route, settings, later) <==>
      match route.strategy
      case PerAlert => settings.Identity(a) == settings.Identity(b)
      case PerGroup => a.groupKey == b.groupKey && (a.groupKey.None? ==> settings.Identity(a) == settings.Identity(b))
      case Digest =>
        var width := if settings.digestWindow / SECOND < 1 then 1 else settings.digestWindow / SECOND;
        at / SECOND / width == later / SECOND / width
  {
    assert route in [route];
    match route.strategy
    case Digest => DigestKeysFollowTheWindow(route.id, at / SECOND, later / SECOND, settings.digestWindow / SECOND);
    case PerAlert => KeysNeverCollide(OwnScope(a, route, settings), OwnScope(b, route, settings));
    case PerGroup => KeysNeverCollide(OwnScope(a, route, settings), OwnScope(b, route, settings));
  }

  function OwnScope(alert: Alert, route: Route, settings: DecisionSettings): KeyScope {
    if route.strategy.PerGroup? && alert.groupKey.Some? then KeyScope.Group(alert.groupKey.value)
    else KeyScope.Alert(settings.Identity(alert))
  }

  // A storm takes no card away from the alerts it has: a card under the configured key that can still carry the
  // change gets it, and only an alert with no such card goes under the digest.
  lemma StormsSpareHeldCards(
    delta: AlertDelta, route: Route, snapshot: RoutingSnapshot, storm: StormState, existing: ExistingCards,
    context: AlertContext, settings: DecisionSettings, now: int)
    ensures
      var own := (route.DeliveryChannel(), ConfiguredKey(delta.alert, route, settings, now));
      var outcome := DecideRoute(delta, route, snapshot, storm, existing, context, settings, now);
      && (own in existing && !Outlived(existing[own], delta.alert, settings, now) && !existing[own].state.Orphaned? ==>
            outcome.Update? && outcome.update.id == existing[own].id)
      && (outcome.Create? ==>
            && outcome.planned.card.dedupeKey ==
               (if storm.IsStorming(route) then DigestKeyAt(route, settings, now) else own.1)
            && (own in existing ==> Outlived(existing[own], delta.alert, settings, now)))
  {
    var keys := DedupeKeysFor(delta.alert, route, storm, settings, now);
    assert keys[0] == ConfiguredKey(delta.alert, route, settings, now);
    assert |keys| == 2 ==> keys[1..] == [keys[1]];
  }

  // Whoever is found is found in the table, under one of the keys, in the channel.
  ghost predicate FoundUnder(cards: CardTable, card: Notification, channel: nat, keys: seq<DedupeKey>) {
    card.id in cards && cards[card.id] == card && card.channel == channel && card.dedupeKey in keys
  }

  lemma {:induction false} HeldIsFound(
    keys: seq<DedupeKey>, channel: nat, t: Tables, alert: Alert, settings: DecisionSettings, now: int)
    requires KeysSound(t)
    ensures
      var (held, outlived) := Held(keys, channel, Existing(t.cards), alert, settings, now);
      && (held.Some? ==> FoundUnder(t.cards, held.value, channel, keys) && !Outlived(held.value, alert, settings, now))
      && (outlived.Some? ==> FoundUnder(t.cards, outlived.value, channel, keys) && Outlived(outlived.value, alert, settings, now))
  {
    if keys != [] {
      HeldIsFound(keys[1..], channel, t, alert, settings, now);
      ExistingIsTheTable(t.cards, t.nextCard, channel, keys[0]);
      assert keys[0] in keys && forall key :: key in keys[1..] ==> key in keys;
    }
  }

  // A plan for a card under a live key, open; an update of a card under a live key, never to orphaned.
  ghost predicate KeyedOutcome(cards: CardTable, outcome: Outcome) {
    match outcome
    case Nothing => true
    case Create(planned) => LiveKey(planned.card.dedupeKey) && planned.card.state.IsOpen()
    case Update(update) => UpdatesSoundly(cards, update)
  }

  lemma UpdatesAreKeyed(
    cards: CardTable, delta: AlertDelta, route: Route, card: Notification, ignored: bool, acknowledged: bool,
    siblings: seq<Alert>, settings: DecisionSettings, now: int)
    requires card.id in cards && cards[card.id] == card && LiveKey(card.dedupeKey)
    ensures
      match UpdateFor(delta, route, card, ignored, acknowledged, siblings, settings, now)
      case None => true
      case Some(update) => UpdatesSoundly(cards, update)
  {
    if !card.state.Orphaned? {
      EveryUpdateOwes(delta, route, card, ignored, acknowledged, siblings, settings, now);
    }
  }

  lemma RoutesDecideKeyed(
    t: Tables, delta: AlertDelta, route: Route, snapshot: RoutingSnapshot, storm: StormState,
    context: AlertContext, settings: DecisionSettings, now: int)
    requires KeysSound(t) && Fits([route], settings, now)
    ensures KeyedOutcome(t.cards, DecideRoute(delta, route, snapshot, storm, Existing(t.cards), context, settings, now))
  {
    var channel := route.DeliveryChannel();
    var ignored := snapshot.Ignores(route.guild, channel, delta.alert.labels, now);
    var keys := DedupeKeysFor(delta.alert, route, storm, settings, now);
    ConfiguredKeysAreLive(delta.alert, route, settings, now);
    HeldIsFound(keys, channel, t, delta.alert, settings, now);
    var (held, outlived) := Held(keys, channel, Existing(t.cards), delta.alert, settings, now);
    if held.Some? {
      var siblings := if held.value.dedupeKey == PerAlertKey(delta.alert, settings) then context.firingSiblings else [];
      UpdatesAreKeyed(t.cards, delta, route, held.value, ignored, context.acknowledged, siblings, settings, now);
    }
  }

  ghost predicate KeyedDecision(cards: CardTable, d: Decision) {
    && (forall p :: p in d.newCards ==> LiveKey(p.card.dedupeKey) && p.card.state.IsOpen())
    && (forall u :: u in d.updates ==> UpdatesSoundly(cards, u))
  }

  lemma OneMoreKeyed(cards: CardTable, d: Decision, outcome: Outcome)
    requires KeyedDecision(cards, d) && KeyedOutcome(cards, outcome)
    ensures KeyedDecision(cards, Extended(d, outcome))
  {
  }

  lemma {:induction false} DecidingIsKeyed(
    t: Tables, delta: AlertDelta, routes: seq<Route>, snapshot: RoutingSnapshot, storm: StormState,
    context: AlertContext, settings: DecisionSettings, now: int)
    requires KeysSound(t) && Fits(routes, settings, now)
    ensures KeyedDecision(t.cards, DecideRoutes(delta, routes, snapshot, storm, Existing(t.cards), context, settings, now))
  {
    if routes != [] {
      var rest, last := routes[..|routes| - 1], routes[|routes| - 1];
      DecidingIsKeyed(t, delta, rest, snapshot, storm, context, settings, now);
      assert last in routes;
      RoutesDecideKeyed(t, delta, last, snapshot, storm, context, settings, now);
      OneMoreKeyed(
        t.cards, DecideRoutes(delta, rest, snapshot, storm, Existing(t.cards), context, settings, now),
        DecideRoute(delta, last, snapshot, storm, Existing(t.cards), context, settings, now));
    }
  }

  // ---- What the store does with it

  lemma RetiringKeepsKeys(t: Tables, older: CardId, key: DedupeKey)
    requires KeysSound(t) && older in t.cards
    ensures KeysSound(t.(cards := Retire(t.cards, Some(older), key)))
  {
    if t.cards[older].dedupeKey == key {
      var cards := Retire(t.cards, Some(older), key);
      assert cards[older].dedupeKey == SupersededKey(older, key);
      forall other | other in t.cards && other != older ensures cards[other].dedupeKey != cards[older].dedupeKey {
        RetiringIsFresh(t.cards[older], key, t.cards[other]);
      }
    }
  }

  lemma InsertingKeepsKeys(t: Tables, card: Notification)
    requires KeysSound(t) && card.id == t.nextCard && LiveKey(card.dedupeKey) && !card.state.Orphaned?
    requires !Taken(t.cards, card.channel, card.dedupeKey)
    ensures KeysSound(t.(cards := t.cards[card.id := card], nextCard := t.nextCard + 1))
  {
  }

  lemma AddingKeepsKeys(t: Tables, planned: PlannedCard)
    requires KeysSound(t) && LiveKey(planned.card.dedupeKey) && planned.card.state.IsOpen()
    requires AddCard(t, planned).Ok?
    ensures KeysSound(AddCard(t, planned).value)
  {
    var supersedes := planned.card.supersedes;
    if supersedes.Some? && supersedes.value in t.cards {
      RetiringKeepsKeys(t, supersedes.value, planned.card.dedupeKey);
    }
    var retired := t.(cards := Retire(t.cards, supersedes, planned.card.dedupeKey));
    InsertingKeepsKeys(retired, NewCard(t.nextCard, planned.card));
  }

  lemma {:induction false} AddingAllKeepsKeys(t: Tables, planned: seq<PlannedCard>)
    requires KeysSound(t) && AddCards(t, planned).Ok?
    requires forall p :: p in planned ==> LiveKey(p.card.dedupeKey) && p.card.state.IsOpen()
    ensures KeysSound(AddCards(t, planned).value)
  {
    if planned != [] {
      var rest, last := planned[..|planned| - 1], planned[|planned| - 1];
      assert last in planned;
      AddingAllKeepsKeys(t, rest);
      AddingKeepsKeys(AddCards(t, rest).value, last);
    }
  }

  lemma {:induction false} UpdatingKeepsKeys(t: Tables, updates: seq<CardUpdate>, at: int)
    requires KeysSound(t) && ApplyUpdates(t, updates, at).Ok?
    requires forall u :: u in updates && u.state.Some? ==> !u.state.value.Orphaned?
    ensures KeysSound(ApplyUpdates(t, updates, at).value)
  {
    if updates != [] {
      assert updates[|updates| - 1] in updates;
      UpdatingKeepsKeys(t, updates[..|updates| - 1], at);
    }
  }

  lemma DecisionsKeepKeys(t: Tables, d: Decision)
    requires KeysSound(t) && KeyedDecision(t.cards, d)
    ensures ApplyDecision(t, d).Ok? ==> KeysSound(ApplyDecision(t, d).value)
  {
    if ApplyDecision(t, d).Ok? {
      AddingAllKeepsKeys(t, d.newCards);
      UpdatingKeepsKeys(AddCards(t, d.newCards).value, d.updates, d.at);
    }
  }

  lemma OrphaningKeepsKeys(t: Tables, id: CardId)
    requires KeysSound(t) && id in t.cards
    ensures KeysSound(OrphanCard(t, id).value)
  {
    var after := OrphanCard(t, id).value;
    var key := t.cards[id].dedupeKey;
    assert after.cards[id].dedupeKey == OrphanedKey(id, key);
    forall other | other in t.cards && other != id ensures after.cards[other].dedupeKey != after.cards[id].dedupeKey {
      RetiringIsFresh(t.cards[id], key, t.cards[other]);
    }
  }

  lemma AcksKeepKeys(t: Tables, fingerprint: Fingerprint, revoke: bool, at: int)
    requires KeysSound(t)
    ensures KeysSound(AcknowledgeAlert(t, fingerprint, revoke, at))
  {
    forall id | id in t.cards
      ensures OnlyTouched(t.cards[id], AcknowledgeAlert(t, fingerprint, revoke, at).cards[id])
    {
      AnsweringOnlyTouches(t.cards[id], fingerprint, revoke, at);
    }
  }

  lemma StepsKeepKeys(t: Tables, step: CardStep)
    requires KeysSound(t) && Fitting(step)
    ensures KeysSound(NextTables(t, step))
  {
    match step
    case Changed(delta, snapshot, storm, context, settings, now) =>
      DecidingIsKeyed(t, delta, Resolve(snapshot.routes, delta.alert.labels, delta.alert.severity), snapshot, storm,
                      context, settings, now);
      DecisionsKeepKeys(t, DecisionAt(t, step));
    case MessageGone(id) =>
      if id in t.cards {
        OrphaningKeepsKeys(t, id);
      }
    case AckMoved(fingerprint, revoke, at) => AcksKeepKeys(t, fingerprint, revoke, at);
    case EffectDone(id, report) =>
  }

  // In every store, whatever routes storm and whatever the windows are set to on the way.
  lemma {:induction false} RunsKeepKeys(t: Tables, steps: seq<CardStep>, end: Tables)
    requires KeysSound(t) && Reaches(t, steps, end) && forall s :: s in steps ==> Fitting(s)
    ensures KeysSound(end)
    decreases steps
  {
    if steps != [] {
      assert steps[0] in steps;
      StepsKeepKeys(t, steps[0]);
      RunsKeepKeys(NextTables(t, steps[0]), steps[1..], end);
    }
  }
}
