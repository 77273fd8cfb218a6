/** Cards whose message was deleted: when they come back, and when they do not. */
module Orphans {
  import opened Wrappers
  import opened States
  import opened Labels
  import opened Texts
  import opened DedupeKeys
  import opened Alerts
  import opened Routing
  import opened Storm
  import opened Effects
  import opened Decide
  import opened Cards
  import opened CardFacts
  import opened CardStore
  import opened CardRuns
  import opened CardKeys

  // Deciding and applying are two steps. A card whose message is found deleted in between is brought
  // back by the decision taken before exactly when that moves the card: it then has a state again,
  // and no message and no key.
  lemma StaleDecisionsReviveOrphans(t: Tables, id: CardId, update: CardUpdate, at: int)
    requires id in t.cards && t.cards[id].id == id && update.id == id
    requires update.state.Some? ==> !update.state.value.Orphaned?
    ensures
      var orphaned := OrphanCard(t, id).value;
      var after := ApplyUpdate(orphaned, update, at);
      && orphaned.cards[id].state.Orphaned? && after.Ok?
      && (after.value.cards[id].state.Orphaned? <==> update.state.None?)
      && (update.state.Some? ==> after.value.cards[id].state == update.state.value)
      && after.value.cards[id].message.None? && RetiredKey(after.value.cards[id])
  {
    assert OrphanCard(t, id).value.cards[id].dedupeKey == OrphanedKey(id, t.cards[id].dedupeKey);
  }

  // A card whose message is gone keeps its history and nothing that would be looked for: no message, no pin and
  // no key, so that its place is free for a new card.
  lemma OrphansFreeTheirPlace(t: Tables, id: CardId)
    requires KeysSound(t) && id in t.cards && LiveKey(t.cards[id].dedupeKey)
    ensures
      var was, after := t.cards[id], OrphanCard(t, id);
      && after.Ok? && after.value.cards.Keys == t.cards.Keys && after.value.queue == t.queue
      && after.value.nextCard == t.nextCard && after.value.acks == t.acks
      && !Taken(after.value.cards, was.channel, was.dedupeKey)
      && var orphan := after.value.cards[id];
      && orphan.state.Orphaned? && orphan.message.None? && !orphan.pinned
      && RetirementOf(orphan.dedupeKey) == Some(Retirement.Orphaned) && LivePart(orphan.dedupeKey) == was.dedupeKey
      && orphan == was.(state := orphan.state, message := None, pinned := false, dedupeKey := orphan.dedupeKey)
      && forall other :: other in t.cards && other != id ==> after.value.cards[other] == t.cards[other]
  {
    var key := t.cards[id].dedupeKey;
    RetiringKeepsTheLivePart(id, key);
    LiveKeysAreNotRetired(key);
    var scope :| WellFormed(scope) && key == KeyOf(scope);
    ConstructedKeysAreLive(scope);
    assert OrphanCard(t, id).value.cards[id].dedupeKey == OrphanedKey(id, key);
  }

  ghost predicate IsOrphan(t: Tables, id: CardId) {
    id in t.cards && t.cards[id].state.Orphaned?
  }

  lemma {:induction false} AddingLeavesOrphans(t: Tables, planned: seq<PlannedCard>, id: CardId)
    requires KeysSound(t) && IsOrphan(t, id) && AddCards(t, planned).Ok?
    requires forall p :: p in planned ==> LiveKey(p.card.dedupeKey) && p.card.state.IsOpen()
    ensures id in AddCards(t, planned).value.cards && AddCards(t, planned).value.cards[id] == t.cards[id]
  {
    if planned != [] {
      var rest, last := planned[..|planned| - 1], planned[|planned| - 1];
      assert last in planned;
      AddingLeavesOrphans(t, rest, id);
      AddingAllKeepsKeys(t, rest);
      LiveKeysAreNotRetired(last.card.dedupeKey);
    }
  }

  lemma {:induction false} UpdatingLeavesOrphans(t: Tables, updates: seq<CardUpdate>, at: int, id: CardId)
    requires id in t.cards && ApplyUpdates(t, updates, at).Ok? && forall u :: u in updates ==> u.id != id
    ensures id in ApplyUpdates(t, updates, at).value.cards && ApplyUpdates(t, updates, at).value.cards[id] == t.cards[id]
  {
    if updates != [] {
      assert updates[|updates| - 1] in updates;
      UpdatingLeavesOrphans(t, updates[..|updates| - 1], at, id);
    }
  }

  lemma ChangesLeaveOrphans(t: Tables, step: CardStep, id: CardId)
    requires KeysSound(t) && IsOrphan(t, id) && step.Changed? && Fitting(step)
    ensures id in NextTables(t, step).cards && NextTables(t, step).cards[id] == t.cards[id]
  {
    var d := DecisionAt(t, step);
    DecidingIsKeyed(
      t, step.delta, Resolve(step.snapshot.routes, step.delta.alert.labels, step.delta.alert.severity), step.snapshot,
      step.storm, step.context, step.settings, step.now);
    forall u | u in d.updates ensures u.id != id {
      assert UpdatesSoundly(t.cards, u);
      LiveKeysAreNotRetired(t.cards[u.id].dedupeKey);
    }
    if ApplyDecision(t, d).Ok? {
      AddingLeavesOrphans(t, d.newCards, id);
      UpdatingLeavesOrphans(AddCards(t, d.newCards).value, d.updates, d.at, id);
    }
  }

  // Only a recorded message gives an orphan one.
  predicate Posts(step: CardStep, id: CardId) {
    step.EffectDone? && step.id == id && step.report.message.Some?
  }

  ghost predicate StillOrphan(t: Tables, after: Tables, id: CardId, posted: bool) {
    IsOrphan(t, id) && IsOrphan(after, id) && (t.cards[id].message.None? && !posted ==> after.cards[id].message.None?)
  }

  lemma StepsLeaveOrphans(t: Tables, step: CardStep, id: CardId)
    requires KeysSound(t) && IsOrphan(t, id) && Fitting(step)
    ensures StillOrphan(t, NextTables(t, step), id, Posts(step, id))
  {
    if step.Changed? {
      ChangesLeaveOrphans(t, step, id);
    } else if step.AckMoved? {
      assert AcknowledgeAlert(t, step.fingerprint, step.revoke, step.at).cards[id] == t.cards[id];
    }
  }

  // While every decision is taken from the table it is applied to, an orphan stays one for good, and
  // has no message unless an effect records one for it.
  lemma {:induction false} OrphansStay(t: Tables, steps: seq<CardStep>, end: Tables, id: CardId)
    requires KeysSound(t) && IsOrphan(t, id) && Reaches(t, steps, end) && forall s :: s in steps ==> Fitting(s)
    ensures StillOrphan(t, end, id, exists s :: s in steps && Posts(s, id))
    decreases steps
  {
    if steps != [] {
      assert steps[0] in steps;
      StepsKeepKeys(t, steps[0]);
      StepsLeaveOrphans(t, steps[0], id);
      OrphansStay(NextTables(t, steps[0]), steps[1..], end, id);
    }
  }
}
