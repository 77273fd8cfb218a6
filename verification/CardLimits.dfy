/** When a decision conflicts: two of its cards would stand in one place. */
module CardLimits {
  import opened Wrappers
  import opened States
  import opened Labels
  import opened Texts
  import opened DedupeKeys
  import opened Alerts
  import opened Routing
  import opened Storm
  import opened Effects
  import opened Decide
  import opened Cards
  import opened CardFacts
  import opened CardStore
  import opened CardRuns

  predicate SamePlace(a: PlannedCard, b: PlannedCard) {
    a.card.channel == b.card.channel && a.card.dedupeKey == b.card.dedupeKey
  }

  ghost predicate PlacesDiffer(planned: seq<PlannedCard>) {
    forall i, j :: 0 <= i < j < |planned| ==> !SamePlace(planned[i], planned[j])
  }

  predicate HasRow(t: Tables, id: CardId, planned: PlannedCard) {
    id in t.cards && t.cards[id] == NewCard(id, planned.card)
  }

  // The rows after some cards were added: each planned card has one, in order, and the others are
  // as they were or gave their keys up.
  ghost predicate Placed(t: Tables, after: Tables, planned: seq<PlannedCard>) {
    && after.nextCard == t.nextCard + |planned|
    && (forall id :: id in t.cards ==> id < t.nextCard)
    && (forall id :: id in after.cards ==> id in t.cards || t.nextCard <= id < after.nextCard)
    && (forall id :: id in t.cards ==>
          id in after.cards && (after.cards[id] == t.cards[id] || RetirementOf(after.cards[id].dedupeKey).Some?))
    && (forall i :: 0 <= i < |planned| ==> HasRow(after, t.nextCard + i, planned[i]))
  }

  // A planned card finds its place free, or held by the card it takes over from.
  ghost predicate HasRoom(cards: CardTable, planned: PlannedCard, regroup: int) {
    && PlannedSoundly(cards, planned, regroup)
    && (Taken(cards, planned.card.channel, planned.card.dedupeKey) ==> planned.card.supersedes.Some?)
  }

  lemma RetiringFreesTheKey(cards: CardTable, replaced: Option<CardId>, key: DedupeKey)
    requires LiveKey(key) && (replaced.Some? && replaced.value in cards ==> cards[replaced.value].id == replaced.value)
    ensures
      var rows := Retire(cards, replaced, key);
      && rows.Keys == cards.Keys
      && (forall id :: id in cards && replaced != Some(id) ==> rows[id] == cards[id])
      && (forall id :: id in cards && rows[id].dedupeKey == key ==> rows[id] == cards[id] && replaced != Some(id))
      && (forall id :: id in cards ==> rows[id] == cards[id] || RetirementOf(rows[id].dedupeKey).Some?)
  {
    LiveKeysAreNotRetired(key);
    if replaced.Some? {
      RetiringKeepsTheLivePart(replaced.value, key);
    }
  }

  lemma SamePlaceConflicts(t: Tables, before: Tables, planned: seq<PlannedCard>, last: PlannedCard, i: nat)
    requires Placed(t, before, planned) && i < |planned| && SamePlace(planned[i], last)
    requires LiveKey(last.card.dedupeKey)
    requires last.card.supersedes.Some? ==>
      last.card.supersedes.value in t.cards && before.cards[last.card.supersedes.value].id == last.card.supersedes.value
    ensures AddCard(before, last).Err?
  {
    RetiringFreesTheKey(before.cards, last.card.supersedes, last.card.dedupeKey);
    var id := t.nextCard + i;
    assert HasRow(before, id, planned[i]);
    assert Retire(before.cards, last.card.supersedes, last.card.dedupeKey)[id] == before.cards[id];
  }

  // A row of the old table still holding the key is the one to be replaced.
  lemma OldHoldersAreReplaced(t: Tables, before: Tables, planned: seq<PlannedCard>, last: PlannedCard)
    requires OneCardPerKey(t.cards) && Placed(t, before, planned) && LiveKey(last.card.dedupeKey)
    requires last.card.supersedes.Some? ==>
      var older := last.card.supersedes.value;
      older in t.cards && t.cards[older].dedupeKey == last.card.dedupeKey && t.cards[older].channel == last.card.channel
    requires Taken(t.cards, last.card.channel, last.card.dedupeKey) ==> last.card.supersedes.Some?
    ensures forall o ::
      (o in t.cards && before.cards[o].dedupeKey == last.card.dedupeKey && before.cards[o].channel == last.card.channel)
      ==> last.card.supersedes == Some(o)
  {
    LiveKeysAreNotRetired(last.card.dedupeKey);
    assert forall o :: o in t.cards && before.cards[o].dedupeKey == last.card.dedupeKey ==> before.cards[o] == t.cards[o];
  }

  // Whoever is in the way of the next card was added before it.
  lemma ConflictMeansSamePlace(t: Tables, before: Tables, planned: seq<PlannedCard>, last: PlannedCard)
    returns (i: nat)
    requires OneCardPerKey(t.cards) && Placed(t, before, planned) && LiveKey(last.card.dedupeKey)
    requires last.card.supersedes.Some? ==>
      var older := last.card.supersedes.value;
      && older in t.cards && t.cards[older].dedupeKey == last.card.dedupeKey && t.cards[older].channel == last.card.channel
      && before.cards[older].id == older
    requires Taken(t.cards, last.card.channel, last.card.dedupeKey) ==> last.card.supersedes.Some?
    requires AddCard(before, last).Err?
    ensures i < |planned| && SamePlace(planned[i], last)
  {
    var key := last.card.dedupeKey;
    RetiringFreesTheKey(before.cards, last.card.supersedes, key);
    OldHoldersAreReplaced(t, before, planned, last);
    var rows := Retire(before.cards, last.card.supersedes, key);
    var id :| id in rows && rows[id].channel == last.card.channel && rows[id].dedupeKey == key;
    assert before.cards[id] == rows[id] && last.card.supersedes != Some(id);
    i := id - t.nextCard;
    assert HasRow(before, id, planned[i]);
  }

  lemma PlannedRowsStay(t: Tables, before: Tables, planned: seq<PlannedCard>, last: PlannedCard, i: nat)
    requires Placed(t, before, planned) && AddCard(before, last).Ok? && LiveKey(last.card.dedupeKey) && i < |planned|
    requires last.card.supersedes.Some? ==>
      last.card.supersedes.value in t.cards && before.cards[last.card.supersedes.value].id == last.card.supersedes.value
    ensures HasRow(AddCard(before, last).value, t.nextCard + i, planned[i])
  {
    RetiringFreesTheKey(before.cards, last.card.supersedes, last.card.dedupeKey);
    assert HasRow(before, t.nextCard + i, planned[i]);
    assert Retire(before.cards, last.card.supersedes, last.card.dedupeKey)[t.nextCard + i] == before.cards[t.nextCard + i];
  }

  lemma OneMoreIsPlaced(t: Tables, before: Tables, planned: seq<PlannedCard>, last: PlannedCard)
    requires Placed(t, before, planned) && AddCard(before, last).Ok? && LiveKey(last.card.dedupeKey)
    requires last.card.supersedes.Some? ==>
      last.card.supersedes.value in t.cards && before.cards[last.card.supersedes.value].id == last.card.supersedes.value
    ensures Placed(t, AddCard(before, last).value, planned + [last])
  {
    RetiringFreesTheKey(before.cards, last.card.supersedes, last.card.dedupeKey);
    var after, all := AddCard(before, last).value, planned + [last];
    forall i | 0 <= i < |all| ensures HasRow(after, t.nextCard + i, all[i]) {
      if i < |planned| {
        PlannedRowsStay(t, before, planned, last, i);
      }
    }
  }

  lemma {:induction false} CardsConflictWhen(t: Tables, planned: seq<PlannedCard>, regroup: int)
    requires TablesSound(t, regroup) && forall p :: p in planned ==> HasRoom(t.cards, p, regroup)
    ensures AddCards(t, planned).Ok? <==> PlacesDiffer(planned)
    ensures AddCards(t, planned).Ok? ==> Placed(t, AddCards(t, planned).value, planned)
  {
    if planned != [] {
      var n := |planned| - 1;
      var rest, last := planned[..n], planned[n];
      assert planned == rest + [last] && last in planned;
      CardsConflictWhen(t, rest, regroup);
      if AddCards(t, rest).Ok? {
        AddingAllStaysSound(t, rest, regroup);
        OneMoreConflictsWhen(t, AddCards(t, rest).value, rest, last, regroup);
      }
      AppendedPlaces(rest, last);
    }
  }

  lemma OneMoreConflictsWhen(t: Tables, before: Tables, planned: seq<PlannedCard>, last: PlannedCard, regroup: int)
    requires TablesSound(t, regroup) && TablesSound(before, regroup) && Placed(t, before, planned)
    requires HasRoom(t.cards, last, regroup)
    ensures AddCard(before, last).Ok? <==> forall i :: 0 <= i < |planned| ==> !SamePlace(planned[i], last)
    ensures AddCard(before, last).Ok? ==> Placed(t, AddCard(before, last).value, planned + [last])
  {
    if AddCard(before, last).Err? {
      var i := ConflictMeansSamePlace(t, before, planned, last);
    } else {
      forall i | 0 <= i < |planned| ensures !SamePlace(planned[i], last) {
        if SamePlace(planned[i], last) {
          SamePlaceConflicts(t, before, planned, last, i);
        }
      }
      OneMoreIsPlaced(t, before, planned, last);
    }
  }

  // ---- Two routes, one place

  // The outcomes of the routes, in order, and the cards they plan.
  ghost function Outcomes(step: CardStep, routes: seq<Route>, existing: ExistingCards): (outcomes: seq<Outcome>)
    requires step.Changed?
    ensures |outcomes| == |routes|
    ensures forall i :: 0 <= i < |routes| ==> outcomes[i] == OutcomeAt(step, routes[i], existing)
  {
    seq(|routes|, i requires 0 <= i < |routes| => OutcomeAt(step, routes[i], existing))
  }

  function OutcomeAt(step: CardStep, route: Route, existing: ExistingCards): Outcome
    requires step.Changed?
  {
    DecideRoute(step.delta, route, step.snapshot, step.storm, existing, step.context, step.settings, step.now)
  }

  function Plans(outcomes: seq<Outcome>): seq<PlannedCard> {
    if outcomes == [] then []
    else
      var last := outcomes[|outcomes| - 1];
      Plans(outcomes[..|outcomes| - 1]) + if last.Create? then [last.planned] else []
  }

  lemma OneMorePlanned(d: Decision, outcomes: seq<Outcome>, outcome: Outcome)
    requires d.newCards == Plans(outcomes)
    ensures Extended(d, outcome).newCards == Plans(outcomes + [outcome])
  {
    assert (outcomes + [outcome])[..|outcomes|] == outcomes;
  }

  lemma LastOutcome(step: CardStep, routes: seq<Route>, existing: ExistingCards)
    requires step.Changed? && routes != []
    ensures
      var n := |routes| - 1;
      Outcomes(step, routes, existing) == Outcomes(step, routes[..n], existing) + [OutcomeAt(step, routes[n], existing)]
  {
  }

  lemma {:induction false} DecisionsPlanTheOutcomes(step: CardStep, routes: seq<Route>, existing: ExistingCards)
    requires step.Changed?
    ensures
      DecideRoutes(step.delta, routes, step.snapshot, step.storm, existing, step.context, step.settings, step.now).newCards
      == Plans(Outcomes(step, routes, existing))
  {
    if routes != [] {
      var n := |routes| - 1;
      DecisionsPlanTheOutcomes(step, routes[..n], existing);
      LastOutcome(step, routes, existing);
      OneMorePlanned(
        DecideRoutes(step.delta, routes[..n], step.snapshot, step.storm, existing, step.context, step.settings, step.now),
        Outcomes(step, routes[..n], existing), OutcomeAt(step, routes[n], existing));
    }
  }

  ghost predicate ClashFree(outcomes: seq<Outcome>) {
    forall i, j :: 0 <= i < j < |outcomes| && outcomes[i].Create? && outcomes[j].Create? ==>
      !SamePlace(outcomes[i].planned, outcomes[j].planned)
  }

  lemma {:induction false} PlansAreOutcomes(outcomes: seq<Outcome>, p: PlannedCard)
    ensures p in Plans(outcomes) <==> Create(p) in outcomes
  {
    if outcomes != [] {
      var n := |outcomes| - 1;
      PlansAreOutcomes(outcomes[..n], p);
      assert outcomes == outcomes[..n] + [outcomes[n]];
    }
  }

  lemma {:induction false} PlansDifferWhen(outcomes: seq<Outcome>)
    ensures PlacesDiffer(Plans(outcomes)) <==> ClashFree(outcomes)
  {
    if outcomes != [] {
      var n := |outcomes| - 1;
      PlansDifferWhen(outcomes[..n]);
      assert Plans(outcomes[..n]) + [] == Plans(outcomes[..n]);
      if outcomes[n].Create? {
        OneMorePlan(outcomes[..n], outcomes[n].planned);
      }
      ClashesWithTheLast(outcomes);
    }
  }

  lemma ClashesWithTheLast(outcomes: seq<Outcome>)
    requires outcomes != []
    ensures
      var n := |outcomes| - 1;
      ClashFree(outcomes) <==>
      && ClashFree(outcomes[..n])
      && (outcomes[n].Create? ==>
            forall i :: 0 <= i < n && outcomes[i].Create? ==> !SamePlace(outcomes[i].planned, outcomes[n].planned))
  {
    var n := |outcomes| - 1;
    var rest := outcomes[..n];
    assert forall i :: 0 <= i < n ==> rest[i] == outcomes[i];
    if ClashFree(outcomes) {
      assert forall i :: 0 <= i < n && outcomes[n].Create? && outcomes[i].Create? ==>
        !SamePlace(outcomes[i].planned, outcomes[n].planned);
    }
  }

  lemma AppendedPlaces(plans: seq<PlannedCard>, last: PlannedCard)
    ensures PlacesDiffer(plans + [last]) <==>
      (PlacesDiffer(plans) && forall k :: 0 <= k < |plans| ==> !SamePlace(plans[k], last))
  {
    var all := plans + [last];
    assert all[|plans|] == last && forall k :: 0 <= k < |plans| ==> all[k] == plans[k];
    if PlacesDiffer(all) {
      assert forall k :: 0 <= k < |plans| ==> !SamePlace(all[k], all[|plans|]);
    }
  }

  lemma OneMorePlan(outcomes: seq<Outcome>, last: PlannedCard)
    ensures
      PlacesDiffer(Plans(outcomes) + [last]) <==>
      && PlacesDiffer(Plans(outcomes))
      && forall i :: 0 <= i < |outcomes| && outcomes[i].Create? ==> !SamePlace(outcomes[i].planned, last)
  {
    var plans := Plans(outcomes);
    forall p ensures p in plans <==> Create(p) in outcomes {
      PlansAreOutcomes(outcomes, p);
    }
    assert (forall k :: 0 <= k < |plans| ==> !SamePlace(plans[k], last)) <==> (forall p :: p in plans ==> !SamePlace(p, last));
    assert (forall i :: 0 <= i < |outcomes| && outcomes[i].Create? ==> !SamePlace(outcomes[i].planned, last))
      <==> (forall p :: Create(p) in outcomes ==> !SamePlace(p, last));
    AppendedPlaces(plans, last);
  }

  // No card holds the place, or the alert has outlived the one that does.
  ghost predicate Vacant(cards: CardTable, channel: nat, key: DedupeKey, alert: Alert, settings: DecisionSettings, now: int) {
    forall id :: id in cards && cards[id].channel == channel && cards[id].dedupeKey == key ==>
      Outlived(cards[id], alert, settings, now)
  }

  // When a quiet route plans a card, and where.
  lemma RoutesCreateWhen(t: Tables, step: CardStep, route: Route)
    requires step.Changed? && RowsSound(t.cards, t.nextCard) && OneCardPerKey(t.cards)
    requires Quiet([route], step.storm, step.settings, step.now)
    ensures
      var channel, key := route.DeliveryChannel(), ConfiguredKey(step.delta.alert, route, step.settings, step.now);
      var outcome := OutcomeAt(step, route, Existing(t.cards));
      && (outcome.Create? <==>
            && step.delta.alert.IsFiring()
            && !step.snapshot.Ignores(route.guild, channel, step.delta.alert.labels, step.now)
            && Vacant(t.cards, channel, key, step.delta.alert, step.settings, step.now))
      && (outcome.Create? ==> outcome.planned.card.channel == channel && outcome.planned.card.dedupeKey == key)
  {
    var channel, key := route.DeliveryChannel(), ConfiguredKey(step.delta.alert, route, step.settings, step.now);
    QuietRoutesHaveOneLiveKey(step.delta.alert, route, step.storm, step.settings, step.now);
    OneKeyHeld(key, channel, Existing(t.cards), step.delta.alert, step.settings, step.now);
    ExistingIsTheTable(t.cards, t.nextCard, channel, key);
    if Taken(t.cards, channel, key) {
      var card := Existing(t.cards)[(channel, key)];
      assert forall id :: id in t.cards && t.cards[id].channel == channel && t.cards[id].dedupeKey == key ==> id == card.id;
    }
  }

  // Two routes deliver the alert, unmuted, to one channel under one key that no card holds for it.
  ghost predicate RoutesClash(t: Tables, step: CardStep, a: Route, b: Route)
    requires step.Changed?
  {
    var channel, key := a.DeliveryChannel(), ConfiguredKey(step.delta.alert, a, step.settings, step.now);
    && channel == b.DeliveryChannel() && key == ConfiguredKey(step.delta.alert, b, step.settings, step.now)
    && !step.snapshot.Ignores(a.guild, channel, step.delta.alert.labels, step.now)
    && !step.snapshot.Ignores(b.guild, channel, step.delta.alert.labels, step.now)
    && Vacant(t.cards, channel, key, step.delta.alert, step.settings, step.now)
  }

  lemma OutcomesClashWhen(t: Tables, step: CardStep, routes: seq<Route>, i: nat, j: nat)
    requires step.Changed? && RowsSound(t.cards, t.nextCard) && OneCardPerKey(t.cards)
    requires Quiet(routes, step.storm, step.settings, step.now) && i < j < |routes|
    ensures
      var outcomes := Outcomes(step, routes, Existing(t.cards));
      (outcomes[i].Create? && outcomes[j].Create? && SamePlace(outcomes[i].planned, outcomes[j].planned))
      <==> step.delta.alert.IsFiring() && RoutesClash(t, step, routes[i], routes[j])
  {
    assert Quiet([routes[i]], step.storm, step.settings, step.now) && Quiet([routes[j]], step.storm, step.settings, step.now);
    RoutesCreateWhen(t, step, routes[i]);
    RoutesCreateWhen(t, step, routes[j]);
  }

  ghost predicate SomeClash(t: Tables, step: CardStep, routes: seq<Route>)
    requires step.Changed?
  {
    exists i, j :: 0 <= i < j < |routes| && RoutesClash(t, step, routes[i], routes[j])
  }

  lemma OutcomesAreClashFreeWhen(t: Tables, step: CardStep, routes: seq<Route>)
    requires step.Changed? && RowsSound(t.cards, t.nextCard) && OneCardPerKey(t.cards)
    requires Quiet(routes, step.storm, step.settings, step.now)
    ensures ClashFree(Outcomes(step, routes, Existing(t.cards))) <==> !(step.delta.alert.IsFiring() && SomeClash(t, step, routes))
  {
    var outcomes := Outcomes(step, routes, Existing(t.cards));
    forall i: nat, j: nat | i < j < |routes|
      ensures (outcomes[i].Create? && outcomes[j].Create? && SamePlace(outcomes[i].planned, outcomes[j].planned))
        <==> step.delta.alert.IsFiring() && RoutesClash(t, step, routes[i], routes[j])
    {
      OutcomesClashWhen(t, step, routes, i, j);
    }
  }

  lemma PlansClashWhen(t: Tables, step: CardStep, routes: seq<Route>)
    requires step.Changed? && RowsSound(t.cards, t.nextCard) && OneCardPerKey(t.cards)
    requires Quiet(routes, step.storm, step.settings, step.now)
    requires routes == Resolve(step.snapshot.routes, step.delta.alert.labels, step.delta.alert.severity)
    ensures PlacesDiffer(DecisionAt(t, step).newCards) <==> !(step.delta.alert.IsFiring() && SomeClash(t, step, routes))
  {
    DecisionsPlanTheOutcomes(step, routes, Existing(t.cards));
    PlansDifferWhen(Outcomes(step, routes, Existing(t.cards)));
    OutcomesAreClashFreeWhen(t, step, routes);
  }

  // A decision taken from the store as it stands is refused exactly when the alert fires and two of
  // its routes clash. The refusal is of the whole decision, and every later attempt ends the same way.
  lemma DecisionsConflictWhen(t: Tables, step: CardStep, regroup: int)
    requires step.Changed? && TablesSound(t, regroup) && Calm(step, regroup)
    ensures
      ApplyDecision(t, DecisionAt(t, step)).Err? <==>
      && step.delta.alert.IsFiring()
      && SomeClash(t, step, Resolve(step.snapshot.routes, step.delta.alert.labels, step.delta.alert.severity))
    ensures ApplyDecision(t, DecisionAt(t, step)).Err? ==>
      ApplyDecision(t, DecisionAt(t, step)) == Err(Conflict) && NextTables(t, step) == t
  {
    PlansClashWhen(t, step, Resolve(step.snapshot.routes, step.delta.alert.labels, step.delta.alert.severity));
    PlansConflictWhen(t, step, regroup);
  }

  lemma DecisionsHaveRoom(t: Tables, step: CardStep, regroup: int)
    requires step.Changed? && TablesSound(t, regroup) && Calm(step, regroup)
    ensures
      var d := DecisionAt(t, step);
      DecidedSoundly(t.cards, d, regroup) && forall p :: p in d.newCards ==> HasRoom(t.cards, p, regroup)
  {
    var routes := Resolve(step.snapshot.routes, step.delta.alert.labels, step.delta.alert.severity);
    DecidingIsSound(t.cards, t.nextCard, step.delta, routes, step.snapshot, step.storm, step.context, step.settings, step.now);
    OutcomesHaveRoom(t.cards, DecisionAt(t, step), step.delta.alert, step.settings, step.now);
  }

  lemma OutcomesHaveRoom(cards: CardTable, d: Decision, alert: Alert, settings: DecisionSettings, now: int)
    requires OutcomesSound(cards, d, alert, settings, now)
    ensures DecidedSoundly(cards, d, settings.regroupWindow)
    ensures forall p :: p in d.newCards ==> HasRoom(cards, p, settings.regroupWindow)
  {
    SoundOutcomesApply(cards, d, alert, settings, now);
    forall p | p in d.newCards ensures HasRoom(cards, p, settings.regroupWindow) {
      assert OutcomeSound(cards, Create(p), alert, settings, now);
    }
  }

  // The same in terms of the cards planned.
  lemma PlansConflictWhen(t: Tables, step: CardStep, regroup: int)
    requires step.Changed? && TablesSound(t, regroup) && Calm(step, regroup)
    ensures ApplyDecision(t, DecisionAt(t, step)).Ok? <==> PlacesDiffer(DecisionAt(t, step).newCards)
    ensures ApplyDecision(t, DecisionAt(t, step)).Err? ==>
      ApplyDecision(t, DecisionAt(t, step)) == Err(Conflict) && NextTables(t, step) == t
  {
    var d := DecisionAt(t, step);
    DecisionsHaveRoom(t, step, regroup);
    CardsConflictWhen(t, d.newCards, regroup);
    if AddCards(t, d.newCards).Ok? {
      UpdatesStillApply(t, d, regroup);
    } else {
      OnlyConflicts(t, d.newCards);
    }
  }

  // A firing alert that a route takes, and a second route like it behind the first.
  function Doubled(delta: AlertDelta, route: Route, id: int, settings: DecisionSettings, now: int): CardStep {
    Changed(delta, RoutingSnapshot([route, route.(id := id)], []), StormState(map[], 1, 1), AlertContext(false, []), settings, now)
  }

  // Whatever the alert and the route, a copy of the route is enough to lose every card.
  lemma TwoRoutesLoseTheCard(delta: AlertDelta, route: Route, id: int, settings: DecisionSettings, now: int)
    requires delta.alert.IsFiring() && route.Accepts(delta.alert.labels, delta.alert.severity) && route.continueToNext
    requires !route.strategy.Digest? && IsI64(route.id) && IsI64(id)
    requires IsTimestamp(now / SECOND)
    ensures ApplyDecision(NO_TABLES, DecisionAt(NO_TABLES, Doubled(delta, route, id, settings, now))) == Err(Conflict)
  {
    var step := Doubled(delta, route, id, settings, now);
    BothResolve([route, route.(id := id)], delta.alert);
    NothingIsMuted(step, route, route.(id := id));
    ClashesConflict(NO_TABLES, step, settings.regroupWindow, [route, route.(id := id)], 0, 1);
  }

  lemma NothingIsMuted(step: CardStep, a: Route, b: Route)
    requires step.Changed? && step.snapshot.ignores == [] && a.DeliveryChannel() == b.DeliveryChannel()
    requires ConfiguredKey(step.delta.alert, a, step.settings, step.now) == ConfiguredKey(step.delta.alert, b, step.settings, step.now)
    ensures RoutesClash(NO_TABLES, step, a, b)
  {
  }

  lemma ClashesConflict(t: Tables, step: CardStep, regroup: int, routes: seq<Route>, i: nat, j: nat)
    requires step.Changed? && TablesSound(t, regroup) && Calm(step, regroup)
    requires routes == Resolve(step.snapshot.routes, step.delta.alert.labels, step.delta.alert.severity)
    requires step.delta.alert.IsFiring() && i < j < |routes| && RoutesClash(t, step, routes[i], routes[j])
    ensures ApplyDecision(t, DecisionAt(t, step)) == Err(Conflict)
  {
    DecisionsConflictWhen(t, step, regroup);
  }

  lemma BothResolve(both: seq<Route>, alert: Alert)
    requires |both| == 2 && both[0].continueToNext
    requires both[0].Accepts(alert.labels, alert.severity) && both[1].Accepts(alert.labels, alert.severity)
    ensures Resolve(both, alert.labels, alert.severity) == both
  {
    assert both[..1] == [both[0]] && both[..1][..0] == [];
    assert Resolve(both[..1], alert.labels, alert.severity) == both[..1];
  }

  lemma UpdatesStillApply(t: Tables, d: Decision, regroup: int)
    requires TablesSound(t, regroup) && DecidedSoundly(t.cards, d, regroup) && AddCards(t, d.newCards).Ok?
    ensures ApplyDecision(t, d).Ok?
  {
    AddingAllStaysSound(t, d.newCards, regroup);
    var added := AddCards(t, d.newCards).value;
    forall u | u in d.updates ensures UpdatesSoundly(added.cards, u) {
      assert UpdatesSoundly(t.cards, u);
      assert forall p :: p in d.newCards ==> p.card.supersedes != Some(u.id);
    }
    UpdatingAllStaysSound(added, d.updates, d.at, regroup);
  }

  lemma {:induction false} OnlyConflicts(t: Tables, planned: seq<PlannedCard>)
    requires AddCards(t, planned).Err?
    ensures AddCards(t, planned) == Err(Conflict)
  {
    if planned != [] && AddCards(t, planned[..|planned| - 1]).Err? {
      OnlyConflicts(t, planned[..|planned| - 1]);
    }
  }
}
