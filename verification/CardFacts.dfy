/** What one decision does to one card: where the card lands, and what it is owed. */
module CardFacts {
  import opened Wrappers
  import opened States
  import opened Labels
  import opened DedupeKeys
  import opened Alerts
  import opened Routing
  import opened Storm
  import opened Effects
  import opened Decide

  // A card says what its alert says: open while the alert fires, resolved once it does not.
  predicate Agrees(state: NotificationState, alert: Alert) {
    if alert.IsFiring() then state.IsOpen() else state.Resolved?
  }

  // The change says one thing about the alert and the alert another, on a card already right.
  predicate Contradicts(delta: AlertDelta, card: Notification) {
    || (delta.alert.IsFiring() && delta.kind.Resolved? && card.state.IsOpen())
    || (!delta.alert.IsFiring() && delta.kind.Fired? && card.state.Resolved?)
  }

  // An alert that still fires and that the route delivers.
  predicate GoesOn(route: Route, alert: Alert) {
    && alert.status.Firing? && route.enabled && route.matchers(alert.labels)
    && (route.minSeverity.Some? ==> alert.severity.Rank() >= route.minSeverity.value.Rank())
  }

  function Landed(card: Notification, update: CardUpdate): NotificationState {
    update.state.UnwrapOr(card.state)
  }

  // Self-healing. Whatever state the card was left in, one change to an unmuted alert with no live
  // sibling puts it right, unless the change contradicts the alert it carries.
  lemma OneChangeHeals(
    delta: AlertDelta, route: Route, card: Notification, acknowledged: bool, siblings: seq<Alert>,
    settings: DecisionSettings, now: int)
    requires !card.state.Orphaned? && forall a :: a in siblings ==> !GoesOn(route, a)
    ensures
      var update := UpdateFor(delta, route, card, false, acknowledged, siblings, settings, now);
      && update.Some?
      && update.value.fingerprint == delta.alert.fingerprint
      && (Agrees(Landed(card, update.value), delta.alert) <==> !Contradicts(delta, card))
  {
  }

  // No change that ingestion reports contradicts its alert, so each of them heals the card.
  lemma IngestedChangesHeal(
    rows: AlertTable, batch: IngestBatch, regroup: int, delta: AlertDelta, route: Route, card: Notification,
    acknowledged: bool, siblings: seq<Alert>, settings: DecisionSettings, now: int)
    requires RowsValid(rows) && delta in Ingest(rows, batch, regroup).1
    requires !card.state.Orphaned? && forall a :: a in siblings ==> !GoesOn(route, a)
    ensures
      var update := UpdateFor(delta, route, card, false, acknowledged, siblings, settings, now);
      update.Some? && Agrees(Landed(card, update.value), delta.alert)
  {
    DeltaKindsAgree(rows, batch, regroup);
    OneChangeHeals(delta, route, card, acknowledged, siblings, settings, now);
  }

  // A muted alert heals its card only on the way down. While it fires, an answered or unanswered
  // card goes quiet, and a silenced or resolved one stays as it was.
  lemma MutedChanges(
    delta: AlertDelta, route: Route, card: Notification, acknowledged: bool, siblings: seq<Alert>,
    settings: DecisionSettings, now: int)
    requires !card.state.Orphaned? && KindAgrees(delta.kind, delta.alert)
    requires forall a :: a in siblings ==> !GoesOn(route, a)
    ensures
      var update := UpdateFor(delta, route, card, true, acknowledged, siblings, settings, now);
      && update.Some?
      && (!delta.alert.IsFiring() ==> Landed(card, update.value).Resolved?)
      && (delta.alert.IsFiring() ==>
            (Landed(card, update.value).Ignored? <==> card.state.Firing? || card.state.Acked? || card.state.Ignored?))
      && (delta.alert.IsFiring() && !Landed(card, update.value).Ignored? ==> update.value.state.None?)
  {
  }

  // An unmuted firing alert shows as silenced exactly when the card was re-armed while suppressed,
  // was told of the silence while open, or was silenced already and not told otherwise. So a card
  // coming back from being muted does not show a suppression that began meanwhile.
  lemma SilenceShowsWhen(
    delta: AlertDelta, route: Route, card: Notification, acknowledged: bool, siblings: seq<Alert>,
    settings: DecisionSettings, now: int)
    requires !card.state.Orphaned? && delta.alert.IsFiring() && KindAgrees(delta.kind, delta.alert)
    ensures
      var update := UpdateFor(delta, route, card, false, acknowledged, siblings, settings, now);
      && update.Some?
      && (Landed(card, update.value).Silenced? <==>
            || (card.state.Resolved? && delta.alert.amState.Suppressed?)
            || ((card.state.Firing? || card.state.Acked?) && delta.kind.Silenced?)
            || (card.state.Silenced? && !delta.kind.Unsilenced?))
  {
  }

  // While a sibling still fires on the route, a resolution changes only which alert is on show.
  lemma ResolvedSiblingKeepsTheCard(
    delta: AlertDelta, route: Route, card: Notification, ignored: bool, acknowledged: bool, siblings: seq<Alert>,
    settings: DecisionSettings, now: int)
    requires card.state.IsOpen() && !delta.alert.IsFiring()
    requires exists a :: a in siblings && GoesOn(route, a)
    ensures
      var update := UpdateFor(delta, route, card, ignored, acknowledged, siblings, settings, now);
      && update.Some? && update.value.state.None?
      && (exists a :: a in siblings && GoesOn(route, a) && a.fingerprint == update.value.fingerprint)
      && ((exists a :: a in siblings && GoesOn(route, a) && a.fingerprint == card.fingerprint)
          ==> update.value.fingerprint == card.fingerprint)
  {
  }

  // Siblings keep only the card of the alert itself. A card of a group or a digest resolves with whichever of
  // its alerts resolves.
  lemma SharedCardsResolveAtOnce(
    delta: AlertDelta, route: Route, snapshot: RoutingSnapshot, storm: StormState, existing: ExistingCards,
    context: AlertContext, settings: DecisionSettings, now: int)
    requires !delta.alert.IsFiring()
    ensures
      var keys := DedupeKeysFor(delta.alert, route, storm, settings, now);
      var held := Held(keys, route.DeliveryChannel(), existing, delta.alert, settings, now).0;
      var outcome := DecideRoute(delta, route, snapshot, storm, existing, context, settings, now);
      && (held.None? ==> outcome.Nothing?)
      && (held.Some? && (held.value.state.IsOpen() || held.value.state.Ignored?) ==>
            && outcome.Update?
            && (outcome.update.state == Some(NotificationState.Resolved) <==>
                  || held.value.dedupeKey != DedupeKeys.PerAlert(settings.Identity(delta.alert))
                  || forall a :: a in context.firingSiblings ==> !GoesOn(route, a))
            && (outcome.update.state.Some? ==> outcome.update.fingerprint == delta.alert.fingerprint))
  {
  }

  // A resolved card hears of a resolution without moving, whatever else fires.
  lemma ResolvedStaysResolved(
    delta: AlertDelta, route: Route, card: Notification, ignored: bool, acknowledged: bool, siblings: seq<Alert>,
    settings: DecisionSettings, now: int)
    requires card.state.Resolved? && !delta.alert.IsFiring() && KindAgrees(delta.kind, delta.alert)
    ensures
      var update := UpdateFor(delta, route, card, ignored, acknowledged, siblings, settings, now);
      update.Some? && update.value.state.None?
  {
  }

  // Post flags as the decision queues them: always stamped with the state they were planned for,
  // and closing a post only on the way into resolved.
  predicate WellPlanned(effect: Effect, landed: NotificationState) {
    effect.SetFlags? ==>
      && effect.plannedFor == Some(landed)
      && (effect.archived ==> landed.Resolved?)
  }

  predicate Opens(effect: Effect, card: CardId) {
    && effect.SetFlags? && effect.card == card && !effect.archived && !effect.locked
    && effect.plannedFor.Some? && effect.plannedFor.value.HoldsThreadOpen()
  }

  // A redraw waits for the debounce, and decorations and the strip do not.
  predicate DueInTurn(item: NewOutboxItem, now: int, debounce: nat) {
    && (item.effect.EditCard? ==> item.notBefore == now + debounce)
    && (item.effect.SetTags? || item.effect.ThreadNote? || item.effect.SetPinned? || item.effect.DisableComponents? ==>
          item.notBefore == now)
  }

  // Every update re-renders its card, touches no other, stamps its flags, and when it brings a
  // forum card back from resolved it queues the flags that open the post again.
  lemma EveryUpdateOwes(
    delta: AlertDelta, route: Route, card: Notification, ignored: bool, acknowledged: bool, siblings: seq<Alert>,
    settings: DecisionSettings, now: int)
    requires !card.state.Orphaned?
    ensures
      var update := UpdateFor(delta, route, card, ignored, acknowledged, siblings, settings, now);
      && update.Some?
      && update.value.id == card.id
      && (forall item :: item in update.value.effects ==>
            && item.effect.Card() == Some(card.id) && item.dedupeKey == card.dedupeKey
            && WellPlanned(item.effect, Landed(card, update.value)))
      && (exists item :: item in update.value.effects && item.effect == EditCard(card.id))
      && (forall item :: item in update.value.effects ==> DueInTurn(item, now, settings.debounce))
      && (route.target.Forum? && card.state.Resolved? && Landed(card, update.value).HoldsThreadOpen() ==>
            exists item :: item in update.value.effects && Opens(item.effect, card.id))
      && (update.value.state.Some? ==> update.value.state.value != card.state && !update.value.state.value.Orphaned?)
  {
    var (shown, state) := Move(delta, route, card, ignored, acknowledged, siblings);
    MovesLeaveTheState(delta, route, card, ignored, acknowledged, siblings);
    EffectsAreOwed(delta, route, card, state, shown, settings, now,
                   UpdateFor(delta, route, card, ignored, acknowledged, siblings, settings, now).value.effects);
  }

  lemma MovesLeaveTheState(
    delta: AlertDelta, route: Route, card: Notification, ignored: bool, acknowledged: bool, siblings: seq<Alert>)
    requires !card.state.Orphaned?
    ensures
      var state := Move(delta, route, card, ignored, acknowledged, siblings).1;
      state.Some? ==> state.value != card.state && !state.value.Orphaned?
  {
  }

  lemma EffectsAreOwed(
    delta: AlertDelta, route: Route, card: Notification, state: Option<NotificationState>, shown: Alert,
    settings: DecisionSettings, now: int, effects: seq<NewOutboxItem>)
    requires effects == UpdateEffects(delta, route, card, state, shown, settings, now)
    ensures forall item :: item in effects ==> ItsOwn(item, card, state.UnwrapOr(card.state))
    ensures forall item :: item in effects ==> DueInTurn(item, now, settings.debounce)
    ensures exists item :: item in effects && item.effect == EditCard(card.id)
    ensures route.target.Forum? && card.state.Resolved? && state.UnwrapOr(card.state).HoldsThreadOpen() ==>
      exists item :: item in effects && Opens(item.effect, card.id)
  {
    EveryEffectIsItsCards(delta, route, card, state, shown, settings, now);
    EveryEffectIsDueInTurn(delta, route, card, state, shown, settings, now);
    EveryUpdateRedraws(delta, route, card, state, shown, settings, now);
    if route.target.Forum? && card.state.Resolved? && state.UnwrapOr(card.state).HoldsThreadOpen() {
      RevivalsOpen(delta, route, card, state, shown, settings, now);
    }
  }

  lemma EveryEffectIsDueInTurn(
    delta: AlertDelta, route: Route, card: Notification, state: Option<NotificationState>, shown: Alert,
    settings: DecisionSettings, now: int)
    ensures forall item :: item in UpdateEffects(delta, route, card, state, shown, settings, now) ==>
      DueInTurn(item, now, settings.debounce)
  {
    var decoration := Decoration(delta, route, card, state.UnwrapOr(card.state), state, shown, now);
    assert forall item :: item in decoration ==> DueInTurn(item, now, settings.debounce);
  }

  lemma EveryUpdateRedraws(
    delta: AlertDelta, route: Route, card: Notification, state: Option<NotificationState>, shown: Alert,
    settings: DecisionSettings, now: int)
    ensures exists item ::
      item in UpdateEffects(delta, route, card, state, shown, settings, now) && item.effect == EditCard(card.id)
  {
    assert Redraw(card, settings, now) in UpdateEffects(delta, route, card, state, shown, settings, now);
  }

  lemma RevivalsOpen(
    delta: AlertDelta, route: Route, card: Notification, state: Option<NotificationState>, shown: Alert,
    settings: DecisionSettings, now: int)
    requires route.target.Forum? && card.state.Resolved? && state.UnwrapOr(card.state).HoldsThreadOpen()
    ensures exists item ::
      item in UpdateEffects(delta, route, card, state, shown, settings, now) && Opens(item.effect, card.id)
  {
    var effective := state.UnwrapOr(card.state);
    var item := NewOutboxItem(
      Reopen(route, card, effective, settings), card.dedupeKey, if card.archived then now else now + settings.debounce);
    assert item in Opening(route, card, effective, settings, now) + Window(route, card, effective, settings, now);
    assert item in UpdateEffects(delta, route, card, state, shown, settings, now) && Opens(item.effect, card.id);
  }

  predicate ItsOwn(item: NewOutboxItem, card: Notification, landed: NotificationState) {
    item.effect.Card() == Some(card.id) && item.dedupeKey == card.dedupeKey && WellPlanned(item.effect, landed)
  }

  lemma ForumEffectsAreItsCards(
    delta: AlertDelta, card: Notification, policy: ForumPolicy, effective: NotificationState,
    state: Option<NotificationState>, shown: Alert, now: int)
    ensures forall item :: item in ForumEffects(delta, card, policy, effective, state, shown, now) ==>
      ItsOwn(item, card, effective)
  {
  }

  lemma FlagsAreItsCards(route: Route, policy: ForumPolicy, card: Notification, effective: NotificationState,
                         settings: DecisionSettings, now: int)
    ensures forall item :: item in ReopenedPostWindow(route, card, effective, settings, now) ==> ItsOwn(item, card, effective)
    ensures forall item :: item in ResolvedPostFlags(route, policy, card, settings, now) ==>
      ItsOwn(item, card, NotificationState.Resolved)
  {
  }

  lemma EveryEffectIsItsCards(
    delta: AlertDelta, route: Route, card: Notification, state: Option<NotificationState>, shown: Alert,
    settings: DecisionSettings, now: int)
    ensures forall item :: item in UpdateEffects(delta, route, card, state, shown, settings, now) ==>
      ItsOwn(item, card, state.UnwrapOr(card.state))
  {
    var effective := state.UnwrapOr(card.state);
    if route.target.Forum? {
      ForumEffectsAreItsCards(delta, card, route.target.policy, effective, state, shown, now);
      FlagsAreItsCards(route, route.target.policy, card, effective, settings, now);
    }
  }

  // A card is created exactly for an unmuted firing alert, and mentions exactly when that is news of
  // an unsuppressed fire the route mentions for.
  lemma CreationMentionsWhen(
    delta: AlertDelta, route: Route, key: DedupeKey, ignored: bool, supersedes: Option<CardId>, now: int)
    ensures
      var planned := CreationFor(delta, route, key, ignored, supersedes, now);
      && (planned.Some? <==> delta.alert.IsFiring() && !ignored)
      && (planned.Some? ==>
            && Agrees(planned.value.card.state, delta.alert)
            && (planned.value.card.state.Silenced? <==> delta.alert.amState.Suppressed?)
            && (planned.value.mention <==>
                  delta.kind.Fired? && !delta.alert.amState.Suppressed? && route.MentionsAt(delta.alert.severity)))
  {
  }

  // ---- Tags, notes, pins and controls

  ghost predicate Owes(effects: seq<NewOutboxItem>, effect: Effect) {
    exists item :: item in effects && item.effect == effect
  }

  // Whether a post that landed at `landed` showing `shown` is to be pinned.
  predicate IsToBePinned(route: Route, landed: NotificationState, shown: Alert) {
    && route.target.Forum? && landed.Firing?
    && route.target.policy.pinMinSeverity.Some? && shown.severity.Rank() >= route.target.policy.pinMinSeverity.value.Rank()
  }

  // What an update asks for besides redrawing the card and setting its flags.
  ghost predicate DecoratedAs(
    effects: seq<NewOutboxItem>, delta: AlertDelta, route: Route, card: Notification, state: Option<NotificationState>, shown: Alert)
  {
    var landed := state.UnwrapOr(card.state);
    && (Owes(effects, SetTags(card.id)) <==> route.target.Forum? && (state.Some? || shown.fingerprint != card.fingerprint))
    && (forall note: Effect :: note.ThreadNote? ==>
          (Owes(effects, note) <==>
             route.target.Forum? && state.Some? && route.target.policy.bumpOnStateChange
             && note == ThreadNote(card.id, card.state, landed, delta.flapCount)))
    && (forall pin: Effect :: pin.SetPinned? ==>
          (Owes(effects, pin) <==>
             route.target.Forum? && state.Some? && pin == SetPinned(card.id, IsToBePinned(route, landed, shown))
             && pin.pinned != card.pinned))
    && (Owes(effects, DisableComponents(card.id)) <==> state == Some(NotificationState.Resolved))
  }

  lemma OwesEither(a: seq<NewOutboxItem>, b: seq<NewOutboxItem>, effect: Effect)
    ensures Owes(a + b, effect) <==> Owes(a, effect) || Owes(b, effect)
  {
    if Owes(a, effect) {
      var item :| item in a && item.effect == effect;
      assert item in a + b;
    }
    if Owes(b, effect) {
      var item :| item in b && item.effect == effect;
      assert item in a + b;
    }
  }

  lemma OwesMiddle(before: seq<NewOutboxItem>, middle: seq<NewOutboxItem>, after: seq<NewOutboxItem>, effect: Effect)
    requires !Owes(before, effect) && !Owes(after, effect)
    ensures Owes(before + middle + after, effect) <==> Owes(middle, effect)
  {
    OwesEither(before + middle, after, effect);
    OwesEither(before, middle, effect);
  }

  lemma UpdatesDecorateInTheMiddle(
    delta: AlertDelta, route: Route, card: Notification, state: Option<NotificationState>, shown: Alert,
    settings: DecisionSettings, now: int)
    returns (before: seq<NewOutboxItem>, after: seq<NewOutboxItem>)
    ensures
      UpdateEffects(delta, route, card, state, shown, settings, now)
      == before
         + (Decoration(delta, route, card, state.UnwrapOr(card.state), state, shown, now) + Strip(card, state, now))
         + after
    ensures forall item :: item in before || item in after ==> item.effect.SetFlags? || item.effect.EditCard?
  {
    var effective := state.UnwrapOr(card.state);
    before := Opening(route, card, effective, settings, now) + Window(route, card, effective, settings, now)
      + [Redraw(card, settings, now)];
    after := Seal(route, card, state, settings, now);
  }

  // None of the flags and the redraw is one of these, so they are owed exactly as the decoration and the
  // strip owe them.
  lemma OnlyDecorationsDecorate(
    delta: AlertDelta, route: Route, card: Notification, state: Option<NotificationState>, shown: Alert,
    settings: DecisionSettings, now: int, effect: Effect)
    requires !effect.SetFlags? && !effect.EditCard?
    ensures
      Owes(UpdateEffects(delta, route, card, state, shown, settings, now), effect) <==>
      Owes(Decoration(delta, route, card, state.UnwrapOr(card.state), state, shown, now) + Strip(card, state, now), effect)
  {
    var before, after := UpdatesDecorateInTheMiddle(delta, route, card, state, shown, settings, now);
    OwesMiddle(
      before, Decoration(delta, route, card, state.UnwrapOr(card.state), state, shown, now) + Strip(card, state, now), after,
      effect);
  }

  lemma DecorationsAre(
    delta: AlertDelta, route: Route, card: Notification, state: Option<NotificationState>, shown: Alert, now: int)
    ensures
      DecoratedAs(Decoration(delta, route, card, state.UnwrapOr(card.state), state, shown, now) + Strip(card, state, now),
                  delta, route, card, state, shown)
  {
  }

  // A post is retagged when it moves or shows another alert; only a move leaves a note, and pins the post or
  // unpins it, to what its state and the severity on show ask for; and only resolving takes the controls away.
  lemma DecorationsWhen(
    delta: AlertDelta, route: Route, card: Notification, ignored: bool, acknowledged: bool, siblings: seq<Alert>,
    settings: DecisionSettings, now: int)
    requires !card.state.Orphaned?
    ensures
      var update := UpdateFor(delta, route, card, ignored, acknowledged, siblings, settings, now);
      var shown := Move(delta, route, card, ignored, acknowledged, siblings).0;
      && update.Some? && shown.fingerprint == update.value.fingerprint
      && DecoratedAs(update.value.effects, delta, route, card, update.value.state, shown)
  {
    var (shown, state) := Move(delta, route, card, ignored, acknowledged, siblings);
    DecorationsAre(delta, route, card, state, shown, now);
    forall effect: Effect | !effect.SetFlags? && !effect.EditCard?
      ensures
        Owes(UpdateEffects(delta, route, card, state, shown, settings, now), effect) <==>
        Owes(Decoration(delta, route, card, state.UnwrapOr(card.state), state, shown, now) + Strip(card, state, now), effect)
    {
      OnlyDecorationsDecorate(delta, route, card, state, shown, settings, now, effect);
    }
  }
}
