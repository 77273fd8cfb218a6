/** The cards over whole runs: one per channel and key, replaced in order and only once. */
module CardRuns {
  import opened Wrappers
  import opened States
  import opened Labels
  import opened Texts
  import opened DedupeKeys
  import opened Alerts
  import opened Routing
  import opened Storm
  import opened Effects
  import opened Decide
  import opened Cards
  import opened CardFacts
  import opened CardStore

  // ---- Keys as rows hold them

  ghost predicate LiveKey(key: DedupeKey) {
    exists scope :: WellFormed(scope) && key == KeyOf(scope)
  }

  ghost predicate RetiredKey(card: Notification) {
    exists key :: card.dedupeKey == SupersededKey(card.id, key) || card.dedupeKey == OrphanedKey(card.id, key)
  }

  lemma LiveKeysAreNotRetired(key: DedupeKey)
    requires LiveKey(key)
    ensures RetirementOf(key).None?
    ensures forall id, other :: key != SupersededKey(id, other) && key != OrphanedKey(id, other)
  {
    var scope :| WellFormed(scope) && key == KeyOf(scope);
    ConstructedKeysAreLive(scope);
    forall id, other ensures key != SupersededKey(id, other) && key != OrphanedKey(id, other) {
      RetiringKeepsTheLivePart(id, other);
    }
  }

  // A key the card is given when it gives its own up is no other card's.
  lemma RetiringIsFresh(card: Notification, key: DedupeKey, other: Notification)
    requires card.id != other.id && (LiveKey(other.dedupeKey) || RetiredKey(other))
    ensures other.dedupeKey != SupersededKey(card.id, key) && other.dedupeKey != OrphanedKey(card.id, key)
  {
    if LiveKey(other.dedupeKey) {
      LiveKeysAreNotRetired(other.dedupeKey);
    } else {
      var own :| other.dedupeKey == SupersededKey(other.id, own) || other.dedupeKey == OrphanedKey(other.id, own);
      RetiredKeysNeverCollide(card.id, key, other.id, own);
      RetiredKeysNeverCollide(other.id, own, card.id, key);
    }
  }

  // ---- What every store keeps

  ghost predicate RowsSound(cards: CardTable, next: CardId) {
    forall id :: id in cards ==>
      && id < next && cards[id].id == id
      && (LiveKey(cards[id].dedupeKey) || RetiredKey(cards[id]))
      && (cards[id].state.Orphaned? ==> RetiredKey(cards[id]))
  }

  // The unique index.
  ghost predicate OneCardPerKey(cards: CardTable) {
    forall a, b :: a in cards && b in cards && a != b && cards[a].channel == cards[b].channel ==>
      cards[a].dedupeKey != cards[b].dedupeKey
  }

  // A card that has been replaced: it gave its key up, and was resolved when it did.
  ghost predicate WasReplaced(cards: CardTable, older: CardId, newer: Notification, regroup: int) {
    && older in cards && older < newer.id
    && cards[older].channel == newer.channel
    && RetiredKey(cards[older])
    && (cards[older].state.Resolved? || cards[older].state.Orphaned?)
    && cards[older].resolvedAt.Some?
    && newer.createdAt - cards[older].resolvedAt.value > regroup
  }

  ghost predicate ReplacementsSound(cards: CardTable, regroup: int) {
    && (forall id :: id in cards && cards[id].supersedes.Some? ==>
          WasReplaced(cards, cards[id].supersedes.value, cards[id], regroup))
    && (forall a, b :: a in cards && b in cards && a != b && cards[a].supersedes.Some? ==>
          cards[a].supersedes != cards[b].supersedes)
  }

  ghost predicate TablesSound(t: Tables, regroup: int) {
    RowsSound(t.cards, t.nextCard) && OneCardPerKey(t.cards) && ReplacementsSound(t.cards, regroup)
  }

  // ---- One card added

  // A planned card is keyed live, and supersedes only a long resolved card holding its key.
  ghost predicate PlannedSoundly(cards: CardTable, planned: PlannedCard, regroup: int) {
    && LiveKey(planned.card.dedupeKey)
    && planned.card.state.IsOpen()
    && (planned.card.supersedes.Some? ==>
          var older := planned.card.supersedes.value;
          && older in cards
          && cards[older].dedupeKey == planned.card.dedupeKey && cards[older].channel == planned.card.channel
          && cards[older].state.Resolved? && cards[older].resolvedAt.Some?
          && planned.card.createdAt - cards[older].resolvedAt.value > regroup)
  }

  lemma RetiringStaysSound(t: Tables, older: CardId, key: DedupeKey, regroup: int)
    requires TablesSound(t, regroup) && older in t.cards && t.cards[older].dedupeKey == key
    ensures TablesSound(t.(cards := Retire(t.cards, Some(older), key)), regroup)
    ensures RetiredKey(Retire(t.cards, Some(older), key)[older])
  {
    var cards := Retire(t.cards, Some(older), key);
    assert cards[older].dedupeKey == SupersededKey(older, key);
    forall other | other in t.cards && other != older ensures cards[other].dedupeKey != cards[older].dedupeKey {
      RetiringIsFresh(t.cards[older], key, t.cards[other]);
    }
    forall id | id in cards && cards[id].supersedes.Some?
      ensures WasReplaced(cards, cards[id].supersedes.value, cards[id], regroup)
    {
      assert WasReplaced(t.cards, t.cards[id].supersedes.value, t.cards[id], regroup);
    }
  }

  lemma AddingStaysSound(t: Tables, planned: PlannedCard, regroup: int)
    requires TablesSound(t, regroup) && PlannedSoundly(t.cards, planned, regroup)
    requires AddCard(t, planned).Ok?
    ensures TablesSound(AddCard(t, planned).value, regroup)
  {
    var key := planned.card.dedupeKey;
    LiveKeysAreNotRetired(key);
    if planned.card.supersedes.Some? {
      var older := planned.card.supersedes.value;
      RetiringStaysSound(t, older, key, regroup);
      NobodyReplacedALiveCard(t, older, regroup);
    }
    var cards := Retire(t.cards, planned.card.supersedes, key);
    InsertingStaysSound(t.(cards := cards), planned, regroup);
  }

  // A card still holding a live key has not been replaced.
  lemma NobodyReplacedALiveCard(t: Tables, older: CardId, regroup: int)
    requires TablesSound(t, regroup) && older in t.cards && LiveKey(t.cards[older].dedupeKey)
    ensures forall id :: id in t.cards ==> t.cards[id].supersedes != Some(older)
  {
    LiveKeysAreNotRetired(t.cards[older].dedupeKey);
    forall id | id in t.cards ensures t.cards[id].supersedes != Some(older) {
      assert t.cards[id].supersedes == Some(older) ==> WasReplaced(t.cards, older, t.cards[id], regroup);
    }
  }

  lemma InsertingStaysSound(t: Tables, planned: PlannedCard, regroup: int)
    requires TablesSound(t, regroup) && LiveKey(planned.card.dedupeKey) && planned.card.state.IsOpen()
    requires !Taken(t.cards, planned.card.channel, planned.card.dedupeKey)
    requires planned.card.supersedes.Some? ==>
      && WasReplaced(t.cards, planned.card.supersedes.value, NewCard(t.nextCard, planned.card), regroup)
      && forall id :: id in t.cards ==> t.cards[id].supersedes != planned.card.supersedes
    ensures
      TablesSound(t.(cards := t.cards[t.nextCard := NewCard(t.nextCard, planned.card)], nextCard := t.nextCard + 1), regroup)
  {
    var card := NewCard(t.nextCard, planned.card);
    var cards := t.cards[t.nextCard := card];
    forall id | id in cards && cards[id].supersedes.Some?
      ensures WasReplaced(cards, cards[id].supersedes.value, cards[id], regroup)
    {
      if id != t.nextCard {
        assert WasReplaced(t.cards, t.cards[id].supersedes.value, t.cards[id], regroup);
      }
    }
  }

  // ---- One decision applied

  // Since the decision was taken, a card is as it was, or gave its key up to another.
  ghost predicate Overtaken(card: Notification, after: CardTable)
    requires card.id in after
  {
    after[card.id].dedupeKey != card.dedupeKey && Taken(after, card.channel, card.dedupeKey)
  }

  ghost predicate OvertakenAtMost(before: CardTable, after: CardTable) {
    forall id :: id in before ==>
      && id == before[id].id && id in after
      && (after[id] == before[id] || Overtaken(before[id], after))
  }

  lemma {:induction false} AddingAllStaysSound(t: Tables, planned: seq<PlannedCard>, regroup: int)
    requires TablesSound(t, regroup)
    requires forall p :: p in planned ==> PlannedSoundly(t.cards, p, regroup)
    requires AddCards(t, planned).Ok?
    ensures
      var after := AddCards(t, planned).value;
      && TablesSound(after, regroup) && OvertakenAtMost(t.cards, after.cards)
      && forall id :: id in t.cards && (forall p :: p in planned ==> p.card.supersedes != Some(id)) ==>
           after.cards[id] == t.cards[id]
  {
    if planned != [] {
      var rest, last := planned[..|planned| - 1], planned[|planned| - 1];
      AddingAllStaysSound(t, rest, regroup);
      var before := AddCards(t, rest).value;
      assert last in planned;
      AddingOneMore(t, before, last, regroup);
    }
  }

  lemma AddingOneMore(t: Tables, before: Tables, last: PlannedCard, regroup: int)
    requires TablesSound(t, regroup) && TablesSound(before, regroup) && OvertakenAtMost(t.cards, before.cards)
    requires PlannedSoundly(t.cards, last, regroup) && AddCard(before, last).Ok?
    ensures TablesSound(AddCard(before, last).value, regroup)
    ensures OvertakenAtMost(t.cards, AddCard(before, last).value.cards)
    ensures forall id :: id in before.cards && last.card.supersedes != Some(id) ==>
      AddCard(before, last).value.cards[id] == before.cards[id]
  {
    if last.card.supersedes.Some? {
      OvertakenMeansConflict(t, before, last);
    }
    AddingStaysSound(before, last, regroup);
    AddingOvertakesItsPredecessor(before, last);
    forall id | id in t.cards
      ensures AddCard(before, last).value.cards[id] == t.cards[id]
        || Overtaken(t.cards[id], AddCard(before, last).value.cards)
    {
      StillTaken(before, last, t.cards[id].channel, t.cards[id].dedupeKey);
    }
  }

  lemma AddingOvertakesItsPredecessor(before: Tables, last: PlannedCard)
    requires AddCard(before, last).Ok? && LiveKey(last.card.dedupeKey) && before.nextCard !in before.cards
    requires last.card.supersedes.Some? ==>
      var older := last.card.supersedes.value;
      && older in before.cards && before.cards[older].id == older
      && before.cards[older].dedupeKey == last.card.dedupeKey
      && before.cards[older].channel == last.card.channel
    ensures
      var after := AddCard(before, last).value.cards;
      && (forall id :: id in before.cards ==> id in after)
      && (forall id :: id in before.cards && last.card.supersedes != Some(id) ==> after[id] == before.cards[id])
      && (last.card.supersedes.Some? ==> Overtaken(before.cards[last.card.supersedes.value], after))
  {
    LiveKeysAreNotRetired(last.card.dedupeKey);
    assert AddCard(before, last).value.cards[before.nextCard].dedupeKey == last.card.dedupeKey;
  }

  // A key somebody holds stays held by somebody.
  lemma StillTaken(before: Tables, last: PlannedCard, channel: nat, key: DedupeKey)
    requires AddCard(before, last).Ok? && before.nextCard !in before.cards
    requires last.card.supersedes.Some? && last.card.supersedes.value in before.cards ==>
      before.cards[last.card.supersedes.value].channel == last.card.channel
    ensures Taken(before.cards, channel, key) ==> Taken(AddCard(before, last).value.cards, channel, key)
  {
    var after := AddCard(before, last).value;
    if Taken(before.cards, channel, key) {
      var id :| id in before.cards && before.cards[id].channel == channel && before.cards[id].dedupeKey == key;
      if last.card.supersedes == Some(id) && before.cards[id].dedupeKey == last.card.dedupeKey {
        assert after.cards[before.nextCard].dedupeKey == key;
      } else {
        assert after.cards[id].dedupeKey == key && after.cards[id].channel == channel;
      }
    }
  }

  // Two cards cannot both take over from one: by then its key is somebody else's.
  lemma OvertakenMeansConflict(t: Tables, before: Tables, last: PlannedCard)
    requires OvertakenAtMost(t.cards, before.cards) && AddCard(before, last).Ok?
    requires last.card.supersedes.Some? && last.card.supersedes.value in t.cards
    requires
      var older := t.cards[last.card.supersedes.value];
      older.dedupeKey == last.card.dedupeKey && older.channel == last.card.channel
    ensures before.cards[last.card.supersedes.value] == t.cards[last.card.supersedes.value]
  {
    var older := last.card.supersedes.value;
    assert before.cards[older].dedupeKey != last.card.dedupeKey ==>
      Retire(before.cards, Some(older), last.card.dedupeKey) == before.cards;
  }

  ghost predicate UpdatesSoundly(cards: CardTable, update: CardUpdate) {
    && update.id in cards && LiveKey(cards[update.id].dedupeKey)
    && (update.state.Some? ==> !update.state.value.Orphaned?)
  }

  // An update moves a card that nobody has replaced, and keeps its key and its links.
  lemma UpdatedLinksHold(t: Tables, update: CardUpdate, at: int, regroup: int, id: CardId)
    requires TablesSound(t, regroup) && UpdatesSoundly(t.cards, update)
    requires id in t.cards && t.cards[id].supersedes.Some?
    ensures
      var cards := t.cards[update.id := Shown(t.cards[update.id], update, at)];
      WasReplaced(cards, t.cards[id].supersedes.value, cards[id], regroup)
  {
    NobodyReplacedALiveCard(t, update.id, regroup);
    assert WasReplaced(t.cards, t.cards[id].supersedes.value, t.cards[id], regroup);
  }

  lemma UpdatingStaysSound(t: Tables, update: CardUpdate, at: int, regroup: int)
    requires TablesSound(t, regroup) && UpdatesSoundly(t.cards, update)
    ensures
      var after := ApplyUpdate(t, update, at);
      && after.Ok? && TablesSound(after.value, regroup)
      && after.value.cards.Keys == t.cards.Keys
      && (forall id :: id in t.cards ==> after.value.cards[id].dedupeKey == t.cards[id].dedupeKey)
  {
    var after := ApplyUpdate(t, update, at).value;
    forall id | id in after.cards && after.cards[id].supersedes.Some?
      ensures WasReplaced(after.cards, after.cards[id].supersedes.value, after.cards[id], regroup)
    {
      UpdatedLinksHold(t, update, at, regroup, id);
    }
  }

  lemma {:induction false} UpdatingAllStaysSound(t: Tables, updates: seq<CardUpdate>, at: int, regroup: int)
    requires TablesSound(t, regroup) && forall u :: u in updates ==> UpdatesSoundly(t.cards, u)
    ensures
      var after := ApplyUpdates(t, updates, at);
      && after.Ok? && TablesSound(after.value, regroup)
      && after.value.cards.Keys == t.cards.Keys
      && (forall id :: id in t.cards ==> after.value.cards[id].dedupeKey == t.cards[id].dedupeKey)
  {
    if updates != [] {
      var rest, last := updates[..|updates| - 1], updates[|updates| - 1];
      UpdatingAllStaysSound(t, rest, at, regroup);
      assert last in updates;
      UpdatingStaysSound(ApplyUpdates(t, rest, at).value, last, at, regroup);
    }
  }

  ghost predicate DecidedSoundly(cards: CardTable, decision: Decision, regroup: int) {
    && (forall p :: p in decision.newCards ==> PlannedSoundly(cards, p, regroup))
    && (forall u :: u in decision.updates ==> UpdatesSoundly(cards, u))
    && (forall p, u :: p in decision.newCards && u in decision.updates ==> p.card.supersedes != Some(u.id))
  }

  lemma DecisionsStaySound(t: Tables, decision: Decision, regroup: int)
    requires TablesSound(t, regroup) && DecidedSoundly(t.cards, decision, regroup)
    ensures ApplyDecision(t, decision).Ok? ==> TablesSound(ApplyDecision(t, decision).value, regroup)
  {
    if AddCards(t, decision.newCards).Ok? {
      AddingAllStaysSound(t, decision.newCards, regroup);
      var added := AddCards(t, decision.newCards).value;
      forall u | u in decision.updates ensures UpdatesSoundly(added.cards, u) {
        assert UpdatesSoundly(t.cards, u);
        assert forall p :: p in decision.newCards ==> p.card.supersedes != Some(u.id);
      }
      UpdatingAllStaysSound(added, decision.updates, decision.at, regroup);
    }
  }

  // ---- The decision itself

  // What the decision reads: the row under each channel and key.
  ghost function Existing(cards: CardTable): ExistingCards
    requires OneCardPerKey(cards)
  {
    map id | id in cards :: (cards[id].channel, cards[id].dedupeKey) := cards[id]
  }

  // No route is over its threshold, ids fit the column that holds them, and the instant is one.
  ghost predicate Quiet(routes: seq<Route>, storm: StormState, settings: DecisionSettings, now: int) {
    && IsTimestamp(now / SECOND)
    && forall r :: r in routes ==> IsI64(r.id) && (r.strategy.Digest? || !storm.IsStorming(r))
  }

  lemma QuietRoutesHaveOneLiveKey(
    alert: Alert, route: Route, storm: StormState, settings: DecisionSettings, now: int)
    requires Quiet([route], storm, settings, now)
    ensures DedupeKeysFor(alert, route, storm, settings, now) == [ConfiguredKey(alert, route, settings, now)]
    ensures LiveKey(ConfiguredKey(alert, route, settings, now))
  {
    assert route in [route];
    var window := WindowAt(settings, now);
    var scope :=
      match route.strategy
      case PerGroup =>
        if alert.groupKey.Some? then KeyScope.Group(alert.groupKey.value) else KeyScope.Alert(settings.Identity(alert))
      case PerAlert => KeyScope.Alert(settings.Identity(alert))
      case Digest => KeyScope.Digest(route.id, window);
    assert WellFormed(scope) && ConfiguredKey(alert, route, settings, now) == KeyOf(scope);
  }

  lemma OneKeyHeld(
    key: DedupeKey, channel: nat, existing: ExistingCards, alert: Alert, settings: DecisionSettings, now: int)
    ensures
      Held([key], channel, existing, alert, settings, now) ==
      if (channel, key) !in existing then (None, None)
      else if Outlived(existing[(channel, key)], alert, settings, now) then (None, Some(existing[(channel, key)]))
      else (Some(existing[(channel, key)]), None)
  {
    assert [key][1..] == [];
  }

  ghost predicate OutcomeSound(
    cards: CardTable, outcome: Outcome, alert: Alert, settings: DecisionSettings, now: int)
  {
    match outcome
    case Nothing => true
    case Create(p) =>
      && PlannedSoundly(cards, p, settings.regroupWindow)
      && (p.card.supersedes.Some? ==> Outlived(cards[p.card.supersedes.value], alert, settings, now))
      && (Taken(cards, p.card.channel, p.card.dedupeKey) ==> p.card.supersedes.Some?)
    case Update(u) => UpdatesSoundly(cards, u) && !Outlived(cards[u.id], alert, settings, now)
  }

  lemma HeldCardsUpdateSoundly(
    cards: CardTable, delta: AlertDelta, route: Route, card: Notification, ignored: bool, acknowledged: bool,
    siblings: seq<Alert>, settings: DecisionSettings, now: int)
    requires card.id in cards && cards[card.id] == card && LiveKey(card.dedupeKey)
    requires !Outlived(card, delta.alert, settings, now)
    ensures
      match UpdateFor(delta, route, card, ignored, acknowledged, siblings, settings, now)
      case None => true
      case Some(update) => OutcomeSound(cards, Update(update), delta.alert, settings, now)
  {
    if !card.state.Orphaned? {
      EveryUpdateOwes(delta, route, card, ignored, acknowledged, siblings, settings, now);
    }
  }

  lemma NewCardsArePlannedSoundly(
    cards: CardTable, delta: AlertDelta, route: Route, key: DedupeKey, ignored: bool, outlived: Option<Notification>,
    settings: DecisionSettings, now: int)
    requires LiveKey(key)
    requires outlived.Some? ==>
      var card := outlived.value;
      && card.id in cards && cards[card.id] == card && card.dedupeKey == key
      && card.channel == route.DeliveryChannel() && Outlived(card, delta.alert, settings, now)
    requires Taken(cards, route.DeliveryChannel(), key) ==> outlived.Some?
    ensures
      match CreationFor(delta, route, key, ignored, if outlived.Some? then Some(outlived.value.id) else None, now)
      case None => true
      case Some(planned) => OutcomeSound(cards, Create(planned), delta.alert, settings, now)
  {
  }

  lemma ExistingIsTheTable(cards: CardTable, next: CardId, channel: nat, key: DedupeKey)
    requires RowsSound(cards, next) && OneCardPerKey(cards)
    ensures (channel, key) in Existing(cards) <==> Taken(cards, channel, key)
    ensures (channel, key) in Existing(cards) ==>
      var card := Existing(cards)[(channel, key)];
      card.id in cards && cards[card.id] == card && card.channel == channel && card.dedupeKey == key
  {
  }

  lemma RoutesDecideSoundly(
    cards: CardTable, next: CardId, delta: AlertDelta, route: Route, snapshot: RoutingSnapshot, storm: StormState,
    context: AlertContext, settings: DecisionSettings, now: int)
    requires RowsSound(cards, next) && OneCardPerKey(cards) && Quiet([route], storm, settings, now)
    ensures
      OutcomeSound(
        cards, DecideRoute(delta, route, snapshot, storm, Existing(cards), context, settings, now),
        delta.alert, settings, now)
  {
    var channel := route.DeliveryChannel();
    var key := ConfiguredKey(delta.alert, route, settings, now);
    var ignored := snapshot.Ignores(route.guild, channel, delta.alert.labels, now);
    QuietRoutesHaveOneLiveKey(delta.alert, route, storm, settings, now);
    OneKeyHeld(key, channel, Existing(cards), delta.alert, settings, now);
    ExistingIsTheTable(cards, next, channel, key);
    var (held, outlived) := Held([key], channel, Existing(cards), delta.alert, settings, now);
    if held.Some? {
      var siblings := if held.value.dedupeKey == PerAlertKey(delta.alert, settings) then context.firingSiblings else [];
      HeldCardsUpdateSoundly(cards, delta, route, held.value, ignored, context.acknowledged, siblings, settings, now);
    } else {
      NewCardsArePlannedSoundly(cards, delta, route, key, ignored, outlived, settings, now);
    }
  }

  ghost predicate OutcomesSound(
    cards: CardTable, d: Decision, alert: Alert, settings: DecisionSettings, now: int)
  {
    && (forall p :: p in d.newCards ==> OutcomeSound(cards, Create(p), alert, settings, now))
    && (forall u :: u in d.updates ==> OutcomeSound(cards, Update(u), alert, settings, now))
  }

  lemma {:induction false} DecidingIsSound(
    cards: CardTable, next: CardId, delta: AlertDelta, routes: seq<Route>, snapshot: RoutingSnapshot,
    storm: StormState, context: AlertContext, settings: DecisionSettings, now: int)
    requires RowsSound(cards, next) && OneCardPerKey(cards) && Quiet(routes, storm, settings, now)
    ensures
      OutcomesSound(cards, DecideRoutes(delta, routes, snapshot, storm, Existing(cards), context, settings, now),
                    delta.alert, settings, now)
  {
    if routes != [] {
      var rest, last := routes[..|routes| - 1], routes[|routes| - 1];
      DecidingIsSound(cards, next, delta, rest, snapshot, storm, context, settings, now);
      assert last in routes;
      RoutesDecideSoundly(cards, next, delta, last, snapshot, storm, context, settings, now);
      OneMoreOutcome(
        cards, DecideRoutes(delta, rest, snapshot, storm, Existing(cards), context, settings, now),
        DecideRoute(delta, last, snapshot, storm, Existing(cards), context, settings, now), delta.alert, settings, now);
    }
  }

  lemma OneMoreOutcome(
    cards: CardTable, d: Decision, outcome: Outcome, alert: Alert, settings: DecisionSettings, now: int)
    requires OutcomesSound(cards, d, alert, settings, now) && OutcomeSound(cards, outcome, alert, settings, now)
    ensures outcome.Create? ==> OutcomesSound(cards, d.(newCards := d.newCards + [outcome.planned]), alert, settings, now)
    ensures outcome.Update? ==> OutcomesSound(cards, d.(updates := d.updates + [outcome.update]), alert, settings, now)
  {
  }

  lemma SoundOutcomesApply(cards: CardTable, d: Decision, alert: Alert, settings: DecisionSettings, now: int)
    requires OutcomesSound(cards, d, alert, settings, now)
    ensures DecidedSoundly(cards, d, settings.regroupWindow)
  {
    forall p, u | p in d.newCards && u in d.updates ensures p.card.supersedes != Some(u.id) {
      assert OutcomeSound(cards, Create(p), alert, settings, now) && OutcomeSound(cards, Update(u), alert, settings, now);
    }
    forall p | p in d.newCards ensures PlannedSoundly(cards, p, settings.regroupWindow) {
      assert OutcomeSound(cards, Create(p), alert, settings, now);
    }
    forall u | u in d.updates ensures UpdatesSoundly(cards, u) {
      assert OutcomeSound(cards, Update(u), alert, settings, now);
    }
  }

  // ---- Whole runs, one change after another

  datatype CardStep =
    | Changed(delta: AlertDelta, snapshot: RoutingSnapshot, storm: StormState, context: AlertContext,
              settings: DecisionSettings, now: int)
    | MessageGone(id: CardId)
    | AckMoved(fingerprint: Fingerprint, revoke: bool, at: int)
    | EffectDone(id: CardId, report: Report)

  ghost function DecisionAt(t: Tables, step: CardStep): Decision
    requires step.Changed? && OneCardPerKey(t.cards)
  {
    DecisionFor(step.delta, step.snapshot, step.storm, Existing(t.cards), step.context, step.settings, step.now)
  }

  // A change the store refuses is dropped: the winner's row is there for the next one.
  ghost function NextTables(t: Tables, step: CardStep): Tables
    requires OneCardPerKey(t.cards)
  {
    match step
    case Changed(_, _, _, _, _, _) =>
      (match ApplyDecision(t, DecisionAt(t, step)) case Ok(after) => after case Err(_) => t)
    case MessageGone(id) => (match OrphanCard(t, id) case Ok(after) => after case Err(_) => t)
    case AckMoved(fingerprint, revoke, at) => AcknowledgeAlert(t, fingerprint, revoke, at)
    case EffectDone(id, report) => WriteReport(t, id, report)
  }

  ghost predicate Calm(step: CardStep, regroup: int) {
    step.Changed? ==>
      && step.settings.regroupWindow == regroup
      && Quiet(Resolve(step.snapshot.routes, step.delta.alert.labels, step.delta.alert.severity),
               step.storm, step.settings, step.now)
  }

  lemma OrphaningStaysSound(t: Tables, id: CardId, regroup: int)
    requires TablesSound(t, regroup) && id in t.cards
    ensures TablesSound(OrphanCard(t, id).value, regroup)
  {
    var after := OrphanCard(t, id).value;
    var key := t.cards[id].dedupeKey;
    assert after.cards[id].dedupeKey == OrphanedKey(id, key);
    forall other | other in t.cards && other != id ensures after.cards[other].dedupeKey != after.cards[id].dedupeKey {
      RetiringIsFresh(t.cards[id], key, t.cards[other]);
    }
    forall newer | newer in after.cards && after.cards[newer].supersedes.Some?
      ensures WasReplaced(after.cards, after.cards[newer].supersedes.value, after.cards[newer], regroup)
    {
      assert WasReplaced(t.cards, t.cards[newer].supersedes.value, t.cards[newer], regroup);
    }
  }

  // A write that leaves keys, links and resolutions alone.
  predicate OnlyTouched(was: Notification, now: Notification) {
    && now.id == was.id && now.dedupeKey == was.dedupeKey && now.channel == was.channel
    && now.supersedes == was.supersedes && now.createdAt == was.createdAt
    && (now.state.Orphaned? <==> was.state.Orphaned?)
    && (was.state.Resolved? ==> now.state.Resolved?)
    && (was.state.Resolved? || was.state.Orphaned? ==> now.resolvedAt == was.resolvedAt)
  }

  lemma TouchingStaysSound(t: Tables, after: Tables, regroup: int)
    requires TablesSound(t, regroup) && after.cards.Keys == t.cards.Keys && after.nextCard == t.nextCard
    requires forall id :: id in t.cards ==> OnlyTouched(t.cards[id], after.cards[id])
    ensures TablesSound(after, regroup)
  {
    forall newer | newer in after.cards && after.cards[newer].supersedes.Some?
      ensures WasReplaced(after.cards, after.cards[newer].supersedes.value, after.cards[newer], regroup)
    {
      assert WasReplaced(t.cards, t.cards[newer].supersedes.value, t.cards[newer], regroup);
    }
  }

  lemma ChangesStaySound(t: Tables, step: CardStep, regroup: int)
    requires TablesSound(t, regroup) && Calm(step, regroup) && step.Changed?
    ensures TablesSound(NextTables(t, step), regroup)
  {
    var routes := Resolve(step.snapshot.routes, step.delta.alert.labels, step.delta.alert.severity);
    DecidingIsSound(t.cards, t.nextCard, step.delta, routes, step.snapshot, step.storm, step.context, step.settings, step.now);
    SoundOutcomesApply(t.cards, DecisionAt(t, step), step.delta.alert, step.settings, step.now);
    DecisionsStaySound(t, DecisionAt(t, step), regroup);
  }

  lemma StepsStaySound(t: Tables, step: CardStep, regroup: int)
    requires TablesSound(t, regroup) && Calm(step, regroup)
    ensures TablesSound(NextTables(t, step), regroup)
  {
    match step
    case Changed(_, _, _, _, _, _) => ChangesStaySound(t, step, regroup);
    case MessageGone(id) =>
      if id in t.cards {
        OrphaningStaysSound(t, id, regroup);
      }
    case AckMoved(fingerprint, revoke, at) => AcksStaySound(t, fingerprint, revoke, at, regroup);
    case EffectDone(id, report) => TouchingStaysSound(t, WriteReport(t, id, report), regroup);
  }

  lemma AnsweringOnlyTouches(card: Notification, fingerprint: Fingerprint, revoke: bool, at: int)
    ensures
      OnlyTouched(card, Answered(card, fingerprint, if revoke then Trigger.AckRevoked else Trigger.Acknowledged, !revoke, at))
  {
  }

  lemma AcksStaySound(t: Tables, fingerprint: Fingerprint, revoke: bool, at: int, regroup: int)
    requires TablesSound(t, regroup)
    ensures TablesSound(AcknowledgeAlert(t, fingerprint, revoke, at), regroup)
  {
    var after := AcknowledgeAlert(t, fingerprint, revoke, at);
    forall id | id in t.cards ensures OnlyTouched(t.cards[id], after.cards[id]) {
      AnsweringOnlyTouches(t.cards[id], fingerprint, revoke, at);
    }
    TouchingStaysSound(t, after, regroup);
  }

  ghost predicate Reaches(t: Tables, steps: seq<CardStep>, end: Tables)
    decreases steps
  {
    if steps == [] then end == t
    else OneCardPerKey(t.cards) && Reaches(NextTables(t, steps[0]), steps[1..], end)
  }

  lemma {:induction false} RunsStaySound(t: Tables, steps: seq<CardStep>, end: Tables, regroup: int)
    requires TablesSound(t, regroup) && Reaches(t, steps, end)
    requires forall s :: s in steps ==> Calm(s, regroup)
    ensures TablesSound(end, regroup)
    decreases steps
  {
    if steps != [] {
      assert steps[0] in steps;
      StepsStaySound(t, steps[0], regroup);
      RunsStaySound(NextTables(t, steps[0]), steps[1..], end, regroup);
    }
  }

  // Over every run with no storm, whatever the routes and however cards are acknowledged, posted or
  // lost on the way: a channel holds one card to a key, a replacement is younger than what it
  // replaces, nothing is replaced twice, and a replacement comes more than a regroup window after
  // its predecessor resolved.
  lemma CardsAreReplacedInOrder(steps: seq<CardStep>, end: Tables, regroup: int)
    requires Reaches(NO_TABLES, steps, end) && forall s :: s in steps ==> Calm(s, regroup)
    ensures forall a, b :: a in end.cards && b in end.cards && a != b && end.cards[a].channel == end.cards[b].channel ==>
      end.cards[a].dedupeKey != end.cards[b].dedupeKey
    ensures forall id :: id in end.cards && end.cards[id].supersedes.Some? ==>
      var older := end.cards[id].supersedes.value;
      && older < id && older in end.cards && end.cards[older].resolvedAt.Some?
      && end.cards[older].channel == end.cards[id].channel
      && end.cards[id].createdAt - end.cards[older].resolvedAt.value > regroup
    ensures forall a, b ::
      (a in end.cards && b in end.cards && end.cards[a].supersedes.Some?
       && end.cards[a].supersedes == end.cards[b].supersedes) ==> a == b
  {
    RunsStaySound(NO_TABLES, steps, end, regroup);
    forall id | id in end.cards && end.cards[id].supersedes.Some?
      ensures WasReplaced(end.cards, end.cards[id].supersedes.value, end.cards[id], regroup)
    {
    }
  }
}
