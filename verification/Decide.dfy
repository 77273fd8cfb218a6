/** From one change of an alert and the cards in the table to the cards created and the cards written. */
module Decide {
  import opened Wrappers
  import opened States
  import opened Labels
  import opened Identity
  import opened DedupeKeys
  import opened Alerts
  import opened Routing
  import opened Storm
  import opened Effects

  // The longest Discord leaves a thread unarchived: one week, in minutes.
  const MAX_AUTO_ARCHIVE: nat := 10080

  const SECOND: int := 1000000

  // All instants and durations are microseconds.
  datatype DecisionSettings = DecisionSettings(
    debounce: nat,
    digestWindow: nat,
    archiveAfterMinutes: nat,
    regroupWindow: nat,
    identity: IdentityPolicy)
  {
    function Identity(alert: Alert): Fingerprint {
      identity.IdentityOf(alert.fingerprint, alert.labels)
    }
  }

  type ExistingCards = map<(nat, DedupeKey), Notification>

  datatype AlertContext = AlertContext(acknowledged: bool, firingSiblings: seq<Alert>)

  // ---- Keys

  // The second that names the window. One that would open before time begins goes by the instant.
  function WindowAt(settings: DecisionSettings, now: int): int {
    var start := WindowStart(now / SECOND, settings.digestWindow / SECOND);
    if IsTimestamp(start) then start else now / SECOND
  }

  function DigestKeyAt(route: Route, settings: DecisionSettings, now: int): DedupeKey {
    DigestKey(route.id, WindowAt(settings, now))
  }

  function PerAlertKey(alert: Alert, settings: DecisionSettings): DedupeKey {
    DedupeKeys.PerAlert(settings.Identity(alert))
  }

  function ConfiguredKey(alert: Alert, route: Route, settings: DecisionSettings, now: int): DedupeKey {
    match route.strategy
    case PerGroup =>
      if alert.groupKey.Some? then DedupeKeys.PerGroup(alert.groupKey.value) else PerAlertKey(alert, settings)
    case PerAlert => PerAlertKey(alert, settings)
    case Digest => DigestKeyAt(route, settings, now)
  }

  // Candidate keys in lookup order: the digest key only in a storm, then the configured one, with no key twice.
  function DedupeKeysFor(alert: Alert, route: Route, storm: StormState, settings: DecisionSettings, now: int)
    : (keys: seq<DedupeKey>)
    ensures keys != []
  {
    var configured := ConfiguredKey(alert, route, settings, now);
    if route.strategy.Digest? || !storm.IsStorming(route) then [configured]
    else [configured, DigestKeyAt(route, settings, now)]
  }

  // ---- The card's side of the decision

  predicate Outlived(card: Notification, alert: Alert, settings: DecisionSettings, now: int) {
    && card.state.Resolved?
    && alert.IsFiring()
    && card.resolvedAt.Some?
    && now - card.resolvedAt.value > settings.regroupWindow
  }

  function InitialState(alert: Alert): NotificationState {
    if !alert.IsFiring() then NotificationState.Resolved
    else if alert.amState.Suppressed? then NotificationState.Silenced
    else NotificationState.Firing
  }

  function CreationFor(
    delta: AlertDelta, route: Route, key: DedupeKey, ignored: bool, supersedes: Option<CardId>, now: int)
    : Option<PlannedCard>
  {
    if ignored || !delta.alert.IsFiring() then None
    else
      var state := InitialState(delta.alert);
      Some(PlannedCard(
             NewNotification(key, delta.alert.fingerprint, route.id, route.DeliveryChannel(), state, supersedes, now),
             state.Firing? && delta.kind.Fired? && route.MentionsAt(delta.alert.severity),
             now))
  }

  // Where the alert stands against where the card stands, and only then the kind of the change.
  function TriggerFor(delta: AlertDelta, card: Notification, ignored: bool): Option<Trigger> {
    if !delta.alert.IsFiring() then
      if card.state.IsOpen() || card.state.Ignored? then Some(Trigger.Resolved) else FromEvent(delta.kind)
    else if ignored && !card.state.Ignored? then Some(Trigger.Ignored)
    else if !ignored && card.state.Ignored? then Some(Trigger.Unignored)
    else if card.state.Resolved? then Some(Trigger.Fired)
    else FromEvent(delta.kind)
  }

  predicate Live(route: Route, alert: Alert) {
    alert.IsFiring() && route.Accepts(alert.labels, alert.severity)
  }

  function FirstLive(route: Route, siblings: seq<Alert>): (r: Option<Alert>)
    ensures r.Some? ==> r.value in siblings && Live(route, r.value)
    ensures r.None? ==> forall a :: a in siblings ==> !Live(route, a)
  {
    if siblings == [] then None
    else if Live(route, siblings[0]) then Some(siblings[0])
    else FirstLive(route, siblings[1..])
  }

  function FirstLiveShowing(route: Route, fingerprint: Fingerprint, siblings: seq<Alert>): (r: Option<Alert>)
    ensures r.Some? ==> r.value in siblings && Live(route, r.value) && r.value.fingerprint == fingerprint
    ensures r.None? ==> forall a :: a in siblings && a.fingerprint == fingerprint ==> !Live(route, a)
  {
    if siblings == [] then None
    else if Live(route, siblings[0]) && siblings[0].fingerprint == fingerprint then Some(siblings[0])
    else FirstLiveShowing(route, fingerprint, siblings[1..])
  }

  // The sibling a card keeps showing when one of its alerts resolves, if any still fires.
  function StillFiring(route: Route, card: Notification, siblings: seq<Alert>): (r: Option<Alert>)
    ensures r.Some? ==> r.value in siblings && Live(route, r.value)
    ensures r.None? ==> forall a :: a in siblings ==> !Live(route, a)
  {
    var showing := FirstLiveShowing(route, card.fingerprint, siblings);
    if showing.Some? then showing else FirstLive(route, siblings)
  }

  // The alert on show after the change and the state the card moves to, if it moves.
  function Move(
    delta: AlertDelta, route: Route, card: Notification, ignored: bool, acknowledged: bool, siblings: seq<Alert>)
    : (Alert, Option<NotificationState>)
  {
    var trigger := TriggerFor(delta, card, ignored);
    var sibling := StillFiring(route, card, siblings);
    if trigger == Some(Trigger.Resolved) && sibling.Some? then
      (sibling.value, None)
    else
      var state := if trigger.Some? then NextState(card.state, trigger.value, acknowledged) else None;
      var rearmed := card.state.Resolved? && state.Some? && (state.value.Firing? || state.value.Acked?);
      (delta.alert,
       if rearmed && delta.alert.amState.Suppressed? then Some(NotificationState.Silenced) else state)
  }

  // ---- What the card is owed

  function AutoArchiveMinutes(route: Route, state: NotificationState, settings: DecisionSettings): nat {
    if state.HoldsThreadOpen() then MAX_AUTO_ARCHIVE
    else
      match route.target
      case Forum(_, policy) => policy.autoArchiveMinutes
      case Text(_, minutes) => minutes
      case Thread(_) => settings.archiveAfterMinutes
      case Dm(_) => settings.archiveAfterMinutes
  }

  function Immediate(effect: Effect, card: Notification, now: int): NewOutboxItem {
    NewOutboxItem(effect, card.dedupeKey, now)
  }

  // Flags that open a post and keep it open for as long as `state` asks.
  function Reopen(route: Route, card: Notification, state: NotificationState, settings: DecisionSettings): Effect {
    SetFlags(card.id, false, false, AutoArchiveMinutes(route, state, settings), Some(state))
  }

  // A post left open on resolve takes its week back, behind whatever seal is still queued.
  function ReopenedPostWindow(
    route: Route, card: Notification, effective: NotificationState, settings: DecisionSettings, now: int)
    : seq<NewOutboxItem>
  {
    if card.archived || !card.state.Resolved? || !effective.HoldsThreadOpen() then []
    else [NewOutboxItem(Reopen(route, card, effective, settings), card.dedupeKey, now + settings.debounce)]
  }

  function ResolvedPostFlags(route: Route, policy: ForumPolicy, card: Notification, settings: DecisionSettings, now: int)
    : seq<NewOutboxItem>
  {
    if !policy.archiveOnResolve && card.archived then []
    else
      [NewOutboxItem(
         SetFlags(card.id, policy.archiveOnResolve, policy.archiveOnResolve && policy.lockOnResolve,
                  AutoArchiveMinutes(route, NotificationState.Resolved, settings), Some(NotificationState.Resolved)),
         card.dedupeKey,
         now + settings.debounce)]
  }

  function ForumEffects(
    delta: AlertDelta, card: Notification, policy: ForumPolicy,
    effective: NotificationState, state: Option<NotificationState>, shown: Alert, now: int)
    : seq<NewOutboxItem>
  {
    var wantsPin := effective.WantsPin() && policy.pinMinSeverity.Some? && shown.severity.AtLeast(policy.pinMinSeverity.value);
    (if state.Some? || shown.fingerprint != card.fingerprint then [Immediate(SetTags(card.id), card, now)] else [])
    + (if state.Some? && policy.bumpOnStateChange
       then [Immediate(ThreadNote(card.id, card.state, effective, delta.flapCount), card, now)] else [])
    + (if state.Some? && wantsPin != card.pinned then [Immediate(SetPinned(card.id, wantsPin), card, now)] else [])
  }

  function Opening(
    route: Route, card: Notification, effective: NotificationState, settings: DecisionSettings, now: int): seq<NewOutboxItem>
  {
    if card.archived then [Immediate(Reopen(route, card, effective, settings), card, now)] else []
  }

  function Window(
    route: Route, card: Notification, effective: NotificationState, settings: DecisionSettings, now: int): seq<NewOutboxItem>
  {
    if route.target.Forum? then ReopenedPostWindow(route, card, effective, settings, now) else []
  }

  function Redraw(card: Notification, settings: DecisionSettings, now: int): NewOutboxItem {
    NewOutboxItem(EditCard(card.id), card.dedupeKey, now + settings.debounce)
  }

  function Decoration(
    delta: AlertDelta, route: Route, card: Notification, effective: NotificationState,
    state: Option<NotificationState>, shown: Alert, now: int): seq<NewOutboxItem>
  {
    if route.target.Forum? then ForumEffects(delta, card, route.target.policy, effective, state, shown, now) else []
  }

  function Strip(card: Notification, state: Option<NotificationState>, now: int): seq<NewOutboxItem> {
    if state == Some(NotificationState.Resolved) then [Immediate(DisableComponents(card.id), card, now)] else []
  }

  function Seal(
    route: Route, card: Notification, state: Option<NotificationState>, settings: DecisionSettings, now: int)
    : seq<NewOutboxItem>
  {
    if state == Some(NotificationState.Resolved) && route.target.Forum?
    then ResolvedPostFlags(route, route.target.policy, card, settings, now) else []
  }

  function UpdateEffects(
    delta: AlertDelta, route: Route, card: Notification,
    state: Option<NotificationState>, shown: Alert, settings: DecisionSettings, now: int)
    : seq<NewOutboxItem>
  {
    var effective := state.UnwrapOr(card.state);
    Opening(route, card, effective, settings, now)
    + Window(route, card, effective, settings, now)
    + [Redraw(card, settings, now)]
    + Decoration(delta, route, card, effective, state, shown, now)
    + Strip(card, state, now)
    + Seal(route, card, state, settings, now)
  }

  // The write a held card gets: its shown alert, its state and its effects, or nothing when all three stay.
  function UpdateFor(
    delta: AlertDelta, route: Route, card: Notification, ignored: bool, acknowledged: bool,
    siblings: seq<Alert>, settings: DecisionSettings, now: int)
    : Option<CardUpdate>
  {
    if card.state.Orphaned? then None
    else
      var (shown, state) := Move(delta, route, card, ignored, acknowledged, siblings);
      Some(CardUpdate(card.id, shown.fingerprint, state, UpdateEffects(delta, route, card, state, shown, settings, now)))
  }

  // ---- One route, then all of them

  datatype Outcome = Nothing | Update(update: CardUpdate) | Create(planned: PlannedCard)

  // The first card that can still carry the change, and the first one it has outlived.
  function Held(keys: seq<DedupeKey>, channel: nat, existing: ExistingCards, alert: Alert, settings: DecisionSettings, now: int)
    : (Option<Notification>, Option<Notification>)
  {
    if keys == [] then (None, None)
    else if (channel, keys[0]) !in existing then Held(keys[1..], channel, existing, alert, settings, now)
    else
      var card := existing[(channel, keys[0])];
      if Outlived(card, alert, settings, now) then
        (Held(keys[1..], channel, existing, alert, settings, now).0, Some(card))
      else (Some(card), None)
  }

  function DecideRoute(
    delta: AlertDelta, route: Route, snapshot: RoutingSnapshot, storm: StormState, existing: ExistingCards,
    context: AlertContext, settings: DecisionSettings, now: int)
    : Outcome
  {
    var channel := route.DeliveryChannel();
    var ignored := snapshot.Ignores(route.guild, channel, delta.alert.labels, now);
    var keys := DedupeKeysFor(delta.alert, route, storm, settings, now);
    var (held, outlived) := Held(keys, channel, existing, delta.alert, settings, now);
    match held
    case Some(card) =>
      var siblings :=
        if card.dedupeKey == PerAlertKey(delta.alert, settings) then context.firingSiblings else [];
      (match UpdateFor(delta, route, card, ignored, context.acknowledged, siblings, settings, now)
       case None => Nothing
       case Some(update) => Update(update))
    case None =>
      (match CreationFor(delta, route, keys[|keys| - 1], ignored,
                         if outlived.Some? then Some(outlived.value.id) else None, now)
       case None => Nothing
       case Some(planned) => Create(planned))
  }

  // The decision with one more route's outcome at its end.
  function Extended(decision: Decision, outcome: Outcome): Decision {
    match outcome
    case Nothing => decision
    case Update(update) => decision.(updates := decision.updates + [update])
    case Create(planned) => decision.(newCards := decision.newCards + [planned])
  }

  function DecideRoutes(
    delta: AlertDelta, routes: seq<Route>, snapshot: RoutingSnapshot, storm: StormState, existing: ExistingCards,
    context: AlertContext, settings: DecisionSettings, now: int)
    : Decision
  {
    if routes == [] then Decision([], [], now)
    else
      var last := |routes| - 1;
      Extended(DecideRoutes(delta, routes[..last], snapshot, storm, existing, context, settings, now),
               DecideRoute(delta, routes[last], snapshot, storm, existing, context, settings, now))
  }

  function DecisionFor(
    delta: AlertDelta, snapshot: RoutingSnapshot, storm: StormState, existing: ExistingCards,
    context: AlertContext, settings: DecisionSettings, now: int)
    : Decision
  {
    DecideRoutes(delta, Resolve(snapshot.routes, delta.alert.labels, delta.alert.severity),
                 snapshot, storm, existing, context, settings, now)
  }

  lemma OneMoreRouteDecided(
    delta: AlertDelta, routes: seq<Route>, r: nat, snapshot: RoutingSnapshot, storm: StormState, existing: ExistingCards,
    context: AlertContext, settings: DecisionSettings, now: int)
    requires r < |routes|
    ensures
      DecideRoutes(delta, routes[..r + 1], snapshot, storm, existing, context, settings, now)
      == Extended(DecideRoutes(delta, routes[..r], snapshot, storm, existing, context, settings, now),
                  DecideRoute(delta, routes[r], snapshot, storm, existing, context, settings, now))
  {
    assert routes[..r + 1][..r] == routes[..r];
  }

  // ---- The decision as the program takes it, pushing into what it returns.

  method DecideDelta(
    delta: AlertDelta, snapshot: RoutingSnapshot, storm: StormState, existing: ExistingCards,
    context: AlertContext, settings: DecisionSettings, now: int)
    returns (decision: Decision)
    ensures decision == DecisionFor(delta, snapshot, storm, existing, context, settings, now)
  {
    decision := Decision([], [], now);
    var identity := settings.Identity(delta.alert);
    var routes := snapshot.ResolveRoutes(delta.alert.labels, delta.alert.severity);
    for r := 0 to |routes|
      invariant decision == DecideRoutes(delta, routes[..r], snapshot, storm, existing, context, settings, now)
    {
      ghost var before := decision;
      OneMoreRouteDecided(delta, routes, r, snapshot, storm, existing, context, settings, now);
      var outcome := DecideForRoute(delta, routes[r], identity, snapshot, storm, existing, context, settings, now);
      match outcome
      case Nothing =>
      case Update(update) => decision := decision.(updates := decision.updates + [update]);
      case Create(planned) => decision := decision.(newCards := decision.newCards + [planned]);
      assert decision == Extended(before, outcome);
    }
    assert routes[..|routes|] == routes;
  }

  // The body of the loop over routes: edit the card that holds a key, or create one under the last.
  method DecideForRoute(
    delta: AlertDelta, route: Route, identity: Fingerprint, snapshot: RoutingSnapshot, storm: StormState,
    existing: ExistingCards, context: AlertContext, settings: DecisionSettings, now: int)
    returns (outcome: Outcome)
    requires identity == settings.Identity(delta.alert)
    ensures outcome == DecideRoute(delta, route, snapshot, storm, existing, context, settings, now)
  {
    var channel := route.DeliveryChannel();
    var ignored := snapshot.Ignores(route.guild, channel, delta.alert.labels, now);
    var keys := DedupeKeysFor(delta.alert, route, storm, settings, now);
    var held, outlived := FindHeld(keys, channel, existing, delta.alert, settings, now);
    if held.Some? {
      var card := held.value;
      var siblings := if card.dedupeKey == DedupeKeys.PerAlert(identity) then context.firingSiblings else [];
      var update := PlanUpdate(delta, route, card, ignored, context.acknowledged, siblings, settings, now);
      outcome := if update.Some? then Update(update.value) else Nothing;
    } else {
      var supersedes := if outlived.Some? then Some(outlived.value.id) else None;
      var planned := CreationFor(delta, route, keys[|keys| - 1], ignored, supersedes, now);
      outcome := if planned.Some? then Create(planned.value) else Nothing;
    }
  }

  method FindHeld(
    keys: seq<DedupeKey>, channel: nat, existing: ExistingCards, alert: Alert, settings: DecisionSettings, now: int)
    returns (held: Option<Notification>, outlived: Option<Notification>)
    ensures (held, outlived) == Held(keys, channel, existing, alert, settings, now)
  {
    held, outlived := None, None;
    for k := 0 to |keys|
      invariant
        var rest := Held(keys[k..], channel, existing, alert, settings, now);
        Held(keys, channel, existing, alert, settings, now)
        == (rest.0, if outlived.Some? then outlived else rest.1)
    {
      if (channel, keys[k]) in existing {
        var card := existing[(channel, keys[k])];
        if Outlived(card, alert, settings, now) {
          if outlived.None? {
            outlived := Some(card);
          }
        } else {
          held := Some(card);
          return;
        }
      }
    }
  }

  method PlanUpdate(
    delta: AlertDelta, route: Route, card: Notification, ignored: bool, acknowledged: bool,
    siblings: seq<Alert>, settings: DecisionSettings, now: int)
    returns (update: Option<CardUpdate>)
    ensures update == UpdateFor(delta, route, card, ignored, acknowledged, siblings, settings, now)
  {
    if card.state.Orphaned? {
      return None;
    }
    var (shown, state) := Move(delta, route, card, ignored, acknowledged, siblings);
    var effective := state.UnwrapOr(card.state);
    var forum := route.target.Forum?;
    var effects := [];
    if card.archived {
      effects := effects + [Immediate(Reopen(route, card, effective, settings), card, now)];
    }
    if forum {
      effects := effects + ReopenedPostWindow(route, card, effective, settings, now);
    }
    effects := effects + [NewOutboxItem(EditCard(card.id), card.dedupeKey, now + settings.debounce)];
    ghost var edited := effects;
    assert edited
      == Opening(route, card, effective, settings, now) + Window(route, card, effective, settings, now)
       + [Redraw(card, settings, now)];
    if forum {
      effects := effects + ForumEffects(delta, card, route.target.policy, effective, state, shown, now);
    }
    assert effects == edited + Decoration(delta, route, card, effective, state, shown, now);
    ghost var decorated := effects;
    if state == Some(NotificationState.Resolved) {
      effects := effects + [Immediate(DisableComponents(card.id), card, now)];
      if forum {
        effects := effects + ResolvedPostFlags(route, route.target.policy, card, settings, now);
      }
    }
    assert effects == decorated + Strip(card, state, now) + Seal(route, card, state, settings, now);
    assert effects == UpdateEffects(delta, route, card, state, shown, settings, now);
    update := Some(CardUpdate(card.id, shown.fingerprint, state, effects));
  }
}
