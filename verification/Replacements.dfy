/** What becomes of the card a new one replaces, in a storm and out of it. */
module Replacements {
  import opened Wrappers
  import opened States
  import opened Labels
  import opened Texts
  import opened DedupeKeys
  import opened Alerts
  import opened Routing
  import opened Storm
  import opened Effects
  import opened Decide
  import opened Cards
  import opened CardFacts
  import opened CardStore
  import opened CardRuns
  import opened CardKeys
  import opened CardLimits

  // Whether a replacement takes its predecessor's key. In any store, storming or not, the card being
  // replaced gives its key up unless the route storms, is not a digest itself, and the outlived card
  // is the one under the configured key: the new card then goes under the window's digest key. The
  // insert itself is refused only if that key is held by a card, which is then outlived too.
  lemma PredecessorsRetireWhen(
    t: Tables, delta: AlertDelta, route: Route, snapshot: RoutingSnapshot, storm: StormState,
    context: AlertContext, settings: DecisionSettings, now: int, older: CardId)
    requires KeysSound(t) && Fits([route], settings, now)
    requires
      var outcome := DecideRoute(delta, route, snapshot, storm, Existing(t.cards), context, settings, now);
      outcome.Create? && outcome.planned.card.supersedes == Some(older)
    ensures older in t.cards && Outlived(t.cards[older], delta.alert, settings, now)
    ensures
      var planned := DecideRoute(delta, route, snapshot, storm, Existing(t.cards), context, settings, now).planned;
      var keeps := storm.IsStorming(route) && !route.strategy.Digest?
        && t.cards[older].dedupeKey == ConfiguredKey(delta.alert, route, settings, now);
      && (planned.card.dedupeKey != t.cards[older].dedupeKey <==> keeps)
      && (AddCard(t, planned).Ok? <==> !keeps || !Taken(t.cards, planned.card.channel, planned.card.dedupeKey))
      && (AddCard(t, planned).Ok? ==>
            (LiveKey(AddCard(t, planned).value.cards[older].dedupeKey) <==> keeps)
            && (RetiredKey(AddCard(t, planned).value.cards[older]) <==> !keeps))
  {
    var keys := DedupeKeysFor(delta.alert, route, storm, settings, now);
    var planned := DecideRoute(delta, route, snapshot, storm, Existing(t.cards), context, settings, now).planned;
    PlannedKeyIsTheLast(delta, route, snapshot, storm, Existing(t.cards), context, settings, now);
    ConfiguredKeysAreLive(delta.alert, route, settings, now);
    HeldIsFound(keys, route.DeliveryChannel(), t, delta.alert, settings, now);
    if storm.IsStorming(route) && !route.strategy.Digest? {
      DigestsAreNotConfigured(delta.alert, route, settings, now);
    }
    ReplacingTakesTheKey(t, planned, older);
  }

  lemma ReplacingTakesTheKey(t: Tables, planned: PlannedCard, older: CardId)
    requires KeysSound(t) && older in t.cards && LiveKey(t.cards[older].dedupeKey)
    requires planned.card.supersedes == Some(older) && planned.card.channel == t.cards[older].channel
    requires LiveKey(planned.card.dedupeKey)
    ensures
      var same := planned.card.dedupeKey == t.cards[older].dedupeKey;
      && (AddCard(t, planned).Ok? <==> same || !Taken(t.cards, planned.card.channel, planned.card.dedupeKey))
      && (AddCard(t, planned).Ok? ==>
            var after := AddCard(t, planned).value.cards[older];
            && (same ==> after == t.cards[older].(dedupeKey := SupersededKey(older, planned.card.dedupeKey)))
            && (!same ==> after == t.cards[older])
            && (LiveKey(after.dedupeKey) <==> !same) && (RetiredKey(after) <==> same))
  {
    LiveKeysAreNotRetired(planned.card.dedupeKey);
    LiveKeysAreNotRetired(t.cards[older].dedupeKey);
    if planned.card.dedupeKey == t.cards[older].dedupeKey {
      RetiringFreesTheKey(t.cards, Some(older), planned.card.dedupeKey);
      RetiredIsNotLive(older, planned.card.dedupeKey);
    } else {
      assert Retire(t.cards, Some(older), planned.card.dedupeKey) == t.cards;
    }
  }

  lemma RetiredIsNotLive(id: CardId, key: DedupeKey)
    ensures !LiveKey(SupersededKey(id, key))
  {
    if LiveKey(SupersededKey(id, key)) {
      LiveKeysAreNotRetired(SupersededKey(id, key));
    }
  }

  // An alert that reaches one route.
  ghost predicate Reaching(step: CardStep, route: Route) {
    && step.Changed?
    && Resolve(step.snapshot.routes, step.delta.alert.labels, step.delta.alert.severity) == [route]
    && step.delta.alert.IsFiring()
    && !step.snapshot.Ignores(route.guild, route.DeliveryChannel(), step.delta.alert.labels, step.now)
  }

  lemma OneRouteDecides(
    delta: AlertDelta, route: Route, snapshot: RoutingSnapshot, storm: StormState, existing: ExistingCards,
    context: AlertContext, settings: DecisionSettings, now: int)
    ensures
      DecideRoutes(delta, [route], snapshot, storm, existing, context, settings, now)
      == Extended(Decision([], [], now), DecideRoute(delta, route, snapshot, storm, existing, context, settings, now))
  {
    assert [route][..0] == [];
  }

  lemma OnePlanApplies(t: Tables, planned: PlannedCard, now: int)
    ensures ApplyDecision(t, Extended(Decision([], [], now), Create(planned))) == AddCard(t, planned)
  {
    assert [] + [planned] == [planned] && [planned][..0] == [];
    assert AddCards(t, [planned]) == AddCard(t, planned);
  }

  lemma OneRouteCreates(t: Tables, step: CardStep, route: Route, planned: PlannedCard)
    requires OneCardPerKey(t.cards) && Reaching(step, route)
    requires OutcomeAt(step, route, Existing(t.cards)) == Create(planned)
    ensures NextTables(t, step) == match AddCard(t, planned) case Ok(after) => after case Err(_) => t
  {
    OneRouteDecides(
      step.delta, route, step.snapshot, step.storm, Existing(t.cards), step.context, step.settings, step.now);
    OnePlanApplies(t, planned, step.now);
  }

  lemma TwoKeysHeld(
    key: DedupeKey, digest: DedupeKey, channel: nat, existing: ExistingCards, alert: Alert,
    settings: DecisionSettings, now: int)
    requires (channel, key) in existing && Outlived(existing[(channel, key)], alert, settings, now)
    requires (channel, digest) !in existing
    ensures Held([key, digest], channel, existing, alert, settings, now) == (None, Some(existing[(channel, key)]))
  {
    assert [key, digest][1..] == [digest];
    OneKeyHeld(digest, channel, existing, alert, settings, now);
  }

  // An outlived card under the configured key of an alert that reaches its route.
  ghost predicate Outliving(t: Tables, step: CardStep, route: Route, older: CardId) {
    && KeysSound(t) && Reaching(step, route) && Fits([route], step.settings, step.now)
    && older in t.cards && t.cards[older].channel == route.DeliveryChannel()
    && t.cards[older].dedupeKey == ConfiguredKey(step.delta.alert, route, step.settings, step.now)
    && Outlived(t.cards[older], step.delta.alert, step.settings, step.now)
  }

  // A card added in its place, which keeps the key it has or gives it up to the new one.
  ghost predicate ReplacedBy(t: Tables, after: Tables, older: CardId, retired: bool) {
    && KeysSound(after) && after.nextCard == t.nextCard + 1 && after.cards.Keys == t.cards.Keys + {t.nextCard}
    && after.cards[t.nextCard].supersedes == Some(older)
    && older in t.cards
    && (if retired then RetiredKey(after.cards[older]) else after.cards[older] == t.cards[older])
    && forall id :: id in t.cards && id != older ==> after.cards[id] == t.cards[id]
  }

  lemma AddingReplaces(t: Tables, planned: PlannedCard, older: CardId)
    requires KeysSound(t) && older in t.cards && LiveKey(t.cards[older].dedupeKey)
    requires planned.card.supersedes == Some(older) && planned.card.channel == t.cards[older].channel
    requires LiveKey(planned.card.dedupeKey) && planned.card.state.IsOpen()
    requires planned.card.dedupeKey == t.cards[older].dedupeKey || !Taken(t.cards, planned.card.channel, planned.card.dedupeKey)
    ensures AddCard(t, planned).Ok?
    ensures ReplacedBy(t, AddCard(t, planned).value, older, planned.card.dedupeKey == t.cards[older].dedupeKey)
  {
    ReplacingTakesTheKey(t, planned, older);
    AddingKeepsKeys(t, planned);
  }

  lemma OutlivedCardsAreReplaced(t: Tables, step: CardStep, route: Route, older: CardId, keys: seq<DedupeKey>)
    requires Outliving(t, step, route, older)
    requires keys == DedupeKeysFor(step.delta.alert, route, step.storm, step.settings, step.now)
    requires
      Held(keys, route.DeliveryChannel(), Existing(t.cards), step.delta.alert, step.settings, step.now)
      == (None, Some(t.cards[older]))
    requires keys[|keys| - 1] == t.cards[older].dedupeKey || !Taken(t.cards, route.DeliveryChannel(), keys[|keys| - 1])
    ensures ReplacedBy(t, NextTables(t, step), older, keys[|keys| - 1] == t.cards[older].dedupeKey)
  {
    var outcome := OutcomeAt(step, route, Existing(t.cards));
    ConfiguredKeysAreLive(step.delta.alert, route, step.settings, step.now);
    PlannedKeyIsTheLast(step.delta, route, step.snapshot, step.storm, Existing(t.cards), step.context, step.settings, step.now);
    OneRouteCreates(t, step, route, outcome.planned);
    AddingReplaces(t, outcome.planned, older);
  }

  // A storm replaces it and leaves it its key.
  lemma StormsReplaceWithoutRetiring(t: Tables, step: CardStep, route: Route, older: CardId)
    requires Outliving(t, step, route, older) && step.storm.IsStorming(route) && !route.strategy.Digest?
    requires !Taken(t.cards, route.DeliveryChannel(), DigestKeyAt(route, step.settings, step.now))
    ensures ReplacedBy(t, NextTables(t, step), older, false)
  {
    var channel := route.DeliveryChannel();
    var key := ConfiguredKey(step.delta.alert, route, step.settings, step.now);
    var digest := DigestKeyAt(route, step.settings, step.now);
    ExistingIsTheTable(t.cards, t.nextCard, channel, key);
    ExistingIsTheTable(t.cards, t.nextCard, channel, digest);
    TwoKeysHeld(key, digest, channel, Existing(t.cards), step.delta.alert, step.settings, step.now);
    DigestsAreNotConfigured(step.delta.alert, route, step.settings, step.now);
    OutlivedCardsAreReplaced(t, step, route, older, [key, digest]);
  }

  // Quiet again, the route replaces it a second time, and now it gives its key up.
  lemma QuietReplacesAgain(t: Tables, step: CardStep, route: Route, older: CardId)
    requires Outliving(t, step, route, older) && !step.storm.IsStorming(route)
    ensures ReplacedBy(t, NextTables(t, step), older, true)
  {
    var key := ConfiguredKey(step.delta.alert, route, step.settings, step.now);
    ExistingIsTheTable(t.cards, t.nextCard, route.DeliveryChannel(), key);
    OneKeyHeld(key, route.DeliveryChannel(), Existing(t.cards), step.delta.alert, step.settings, step.now);
    OutlivedCardsAreReplaced(t, step, route, older, [key]);
  }

  // A later change that reaches the route under the same key, with no longer a regroup window.
  ghost predicate Follows(earlier: CardStep, later: CardStep, route: Route) {
    && Reaching(earlier, route) && Reaching(later, route) && Fits([route], later.settings, later.now)
    && ConfiguredKey(later.delta.alert, route, later.settings, later.now)
       == ConfiguredKey(earlier.delta.alert, route, earlier.settings, earlier.now)
    && later.now >= earlier.now && later.settings.regroupWindow <= earlier.settings.regroupWindow
  }

  // So a card can be replaced twice: once under the window's digest key while its route storms, and
  // once more under its own key after the storm.
  lemma StormsReplaceTwice(t: Tables, stormy: CardStep, quiet: CardStep, route: Route, older: CardId)
    returns (middle: Tables, after: Tables)
    requires Outliving(t, stormy, route, older) && stormy.storm.IsStorming(route) && !route.strategy.Digest?
    requires !Taken(t.cards, route.DeliveryChannel(), DigestKeyAt(route, stormy.settings, stormy.now))
    requires Follows(stormy, quiet, route) && !quiet.storm.IsStorming(route)
    ensures middle == NextTables(t, stormy) && OneCardPerKey(middle.cards) && after == NextTables(middle, quiet)
    ensures
      && t.nextCard in after.cards && after.cards[t.nextCard].supersedes == Some(older)
      && t.nextCard + 1 in after.cards && after.cards[t.nextCard + 1].supersedes == Some(older)
  {
    StormsReplaceWithoutRetiring(t, stormy, route, older);
    middle := NextTables(t, stormy);
    SameKeyLater(t, middle, stormy, quiet, route, older);
    QuietReplacesAgain(middle, quiet, route, older);
    after := NextTables(middle, quiet);
  }

  lemma SameKeyLater(t: Tables, middle: Tables, stormy: CardStep, quiet: CardStep, route: Route, older: CardId)
    requires Outliving(t, stormy, route, older) && !route.strategy.Digest? && ReplacedBy(t, middle, older, false)
    requires Follows(stormy, quiet, route)
    ensures Outliving(middle, quiet, route, older)
  {
  }
}
