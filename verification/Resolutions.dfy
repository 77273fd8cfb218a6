/** When a card resolved: on record exactly while it is resolved, as the instant that made it so. */
module Resolutions {
  import opened Wrappers
  import opened States
  import opened Labels
  import opened DedupeKeys
  import opened Alerts
  import opened Routing
  import opened Effects
  import opened Decide
  import opened Cards
  import opened CardStore
  import opened CardRuns
  import opened CardKeys

  // An orphan keeps what it had.
  predicate DatedRight(card: Notification) {
    if card.state.Resolved? then card.resolvedAt.Some? else card.state.Orphaned? || card.resolvedAt.None?
  }

  ghost predicate AllDated(cards: CardTable) {
    forall id :: id in cards ==> DatedRight(cards[id])
  }

  // A card that is resolved now became so at `at`, or was resolved since the instant it was.
  predicate DatedBy(was: Notification, now: Notification, at: int) {
    && (DatedRight(was) && !was.state.Orphaned? ==> DatedRight(now))
    && (now.state.Resolved? && !was.state.Resolved? && !was.state.Orphaned? && DatedRight(was) ==> now.resolvedAt == Some(at))
    && (now.state.Resolved? && was.state.Resolved? && was.resolvedAt.Some? ==>
          now.resolvedAt == was.resolvedAt || now.resolvedAt == Some(at))
  }

  lemma {:induction false} UpdatesDate(t: Tables, updates: seq<CardUpdate>, at: int, id: CardId)
    requires id in t.cards && DatedRight(t.cards[id]) && ApplyUpdates(t, updates, at).Ok?
    ensures id in ApplyUpdates(t, updates, at).value.cards
    ensures
      var now := ApplyUpdates(t, updates, at).value.cards[id];
      && DatedBy(t.cards[id], now, at) && DatedRight(now)
      && (now.resolvedAt == t.cards[id].resolvedAt || now.resolvedAt.None? || now.resolvedAt == Some(at))
  {
    if updates != [] {
      UpdatesDate(t, updates[..|updates| - 1], at, id);
    }
  }

  lemma {:induction false} AddingDates(t: Tables, planned: seq<PlannedCard>)
    requires KeysSound(t) && AllDated(t.cards) && AddCards(t, planned).Ok?
    requires forall p :: p in planned ==> LiveKey(p.card.dedupeKey) && p.card.state.IsOpen()
    ensures AllDated(AddCards(t, planned).value.cards)
    ensures forall id :: id in t.cards ==>
      && id in AddCards(t, planned).value.cards
      && AddCards(t, planned).value.cards[id].state == t.cards[id].state
      && AddCards(t, planned).value.cards[id].resolvedAt == t.cards[id].resolvedAt
  {
    if planned != [] {
      var rest, last := planned[..|planned| - 1], planned[|planned| - 1];
      assert last in planned && forall p :: p in rest ==> p in planned;
      AddingDates(t, rest);
      AddingAllKeepsKeys(t, rest);
    }
  }

  lemma ChangesDate(t: Tables, step: CardStep)
    requires KeysSound(t) && AllDated(t.cards) && step.Changed? && Fitting(step)
    ensures AllDated(NextTables(t, step).cards)
    ensures forall id :: id in t.cards ==>
      id in NextTables(t, step).cards && DatedBy(t.cards[id], NextTables(t, step).cards[id], step.now)
  {
    var d := DecisionAt(t, step);
    DecidingIsKeyed(
      t, step.delta, Resolve(step.snapshot.routes, step.delta.alert.labels, step.delta.alert.severity), step.snapshot,
      step.storm, step.context, step.settings, step.now);
    DecisionsAreDated(
      t, step.delta, Resolve(step.snapshot.routes, step.delta.alert.labels, step.delta.alert.severity), step);
    if ApplyDecision(t, d).Ok? {
      AddingDates(t, d.newCards);
      var added := AddCards(t, d.newCards).value;
      forall id | id in added.cards
        ensures id in NextTables(t, step).cards && DatedRight(NextTables(t, step).cards[id])
        ensures DatedBy(added.cards[id], NextTables(t, step).cards[id], step.now)
      {
        UpdatesDate(added, d.updates, d.at, id);
      }
      NoOthersCome(added, d.updates, d.at);
    }
  }

  lemma {:induction false} DecisionsAreDated(t: Tables, delta: AlertDelta, routes: seq<Route>, step: CardStep)
    requires KeysSound(t) && step.Changed?
    ensures
      DecideRoutes(delta, routes, step.snapshot, step.storm, Existing(t.cards), step.context, step.settings, step.now).at == step.now
  {
    if routes != [] {
      DecisionsAreDated(t, delta, routes[..|routes| - 1], step);
    }
  }

  lemma {:induction false} NoOthersCome(t: Tables, updates: seq<CardUpdate>, at: int)
    requires ApplyUpdates(t, updates, at).Ok?
    ensures ApplyUpdates(t, updates, at).value.cards.Keys == t.cards.Keys
  {
    if updates != [] {
      NoOthersCome(t, updates[..|updates| - 1], at);
    }
  }

  lemma StepsDate(t: Tables, step: CardStep)
    requires KeysSound(t) && AllDated(t.cards) && Fitting(step)
    ensures AllDated(NextTables(t, step).cards)
  {
    if step.Changed? {
      ChangesDate(t, step);
    }
  }

  // Over any run: a card has a time of resolution exactly while it is resolved, whatever it went through
  // before, so the wait for a replacement starts anew each time it resolves.
  lemma {:induction false} ResolutionsAreDated(t: Tables, steps: seq<CardStep>, end: Tables)
    requires KeysSound(t) && AllDated(t.cards) && Reaches(t, steps, end) && forall s :: s in steps ==> Fitting(s)
    ensures AllDated(end.cards)
    decreases steps
  {
    if steps != [] {
      assert steps[0] in steps;
      StepsDate(t, steps[0]);
      StepsKeepKeys(t, steps[0]);
      ResolutionsAreDated(NextTables(t, steps[0]), steps[1..], end);
    }
  }
}
