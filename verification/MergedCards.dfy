/** One card for several alerts: open exactly while one of them fires. */
module MergedCards {
  import opened Wrappers
  import opened States
  import opened Labels
  import opened DedupeKeys
  import opened Alerts
  import opened Routing
  import opened Storm
  import opened Effects
  import opened Decide
  import opened Cards
  import opened CardFacts
  import opened CardStore
  import opened CardRuns
  import opened CardLimits

  // ---- Who holds a key in a channel, before and after a decision

  ghost predicate Holder(cards: CardTable, channel: nat, key: DedupeKey, card: Notification) {
    card.id in cards && cards[card.id] == card && card.channel == channel && card.dedupeKey == key
  }

  predicate At(planned: PlannedCard, channel: nat, key: DedupeKey) {
    planned.card.channel == channel && planned.card.dedupeKey == key
  }

  lemma AddingElsewhereKeepsTheHolder(
    t: Tables, planned: seq<PlannedCard>, channel: nat, key: DedupeKey, card: Notification, regroup: int)
    requires TablesSound(t, regroup) && forall p :: p in planned ==> PlannedSoundly(t.cards, p, regroup)
    requires AddCards(t, planned).Ok?
    requires forall p :: p in planned ==> !At(p, channel, key)
    requires Holder(t.cards, channel, key, card)
    ensures Holder(AddCards(t, planned).value.cards, channel, key, card)
  {
    AddingAllStaysSound(t, planned, regroup);
    assert forall p :: p in planned ==> p.card.supersedes != Some(card.id);
  }

  lemma AddingElsewhereKeepsItFree(t: Tables, after: Tables, planned: seq<PlannedCard>, channel: nat, key: DedupeKey)
    requires Placed(t, after, planned) && LiveKey(key)
    requires forall p :: p in planned ==> !At(p, channel, key)
    requires !Taken(t.cards, channel, key)
    ensures !Taken(after.cards, channel, key)
  {
    LiveKeysAreNotRetired(key);
    forall id | id in after.cards ensures !(after.cards[id].channel == channel && after.cards[id].dedupeKey == key) {
      if id !in t.cards {
        assert HasRow(after, id, planned[id - t.nextCard]);
        assert planned[id - t.nextCard] in planned;
      }
    }
  }

  lemma AddingPutsTheHolder(t: Tables, after: Tables, planned: seq<PlannedCard>, i: nat)
    requires Placed(t, after, planned) && i < |planned|
    ensures
      Holder(after.cards, planned[i].card.channel, planned[i].card.dedupeKey, NewCard(t.nextCard + i, planned[i].card))
  {
    assert HasRow(after, t.nextCard + i, planned[i]);
  }

  lemma {:induction false} UpdatingElsewhereKeepsTheHolder(t: Tables, updates: seq<CardUpdate>, at: int, card: Notification)
    requires ApplyUpdates(t, updates, at).Ok?
    requires Holder(t.cards, card.channel, card.dedupeKey, card)
    requires forall u :: u in updates ==> u.id != card.id
    ensures Holder(ApplyUpdates(t, updates, at).value.cards, card.channel, card.dedupeKey, card)
  {
    if updates != [] {
      var last := updates[|updates| - 1];
      assert last in updates;
      UpdatingElsewhereKeepsTheHolder(t, updates[..|updates| - 1], at, card);
    }
  }

  lemma {:induction false} UpdatingMovesTheHolder(t: Tables, updates: seq<CardUpdate>, at: int, card: Notification, i: nat)
    requires ApplyUpdates(t, updates, at).Ok?
    requires Holder(t.cards, card.channel, card.dedupeKey, card)
    requires i < |updates| && updates[i].id == card.id
    requires forall j :: 0 <= j < |updates| && j != i ==> updates[j].id != card.id
    ensures Holder(ApplyUpdates(t, updates, at).value.cards, card.channel, card.dedupeKey, Shown(card, updates[i], at))
  {
    var n := |updates| - 1;
    if i == n {
      assert forall u :: u in updates[..n] ==> u.id != card.id;
      UpdatingElsewhereKeepsTheHolder(t, updates[..n], at, card);
    } else {
      UpdatingMovesTheHolder(t, updates[..n], at, card, i);
    }
  }

  lemma {:induction false} UpdatingKeepsItFree(t: Tables, updates: seq<CardUpdate>, at: int, channel: nat, key: DedupeKey)
    requires ApplyUpdates(t, updates, at).Ok? && !Taken(t.cards, channel, key)
    ensures !Taken(ApplyUpdates(t, updates, at).value.cards, channel, key)
  {
    if updates != [] {
      UpdatingKeepsItFree(t, updates[..|updates| - 1], at, channel, key);
    }
  }

  // ---- What a decision does at one place

  predicate UpdatesAt(cards: CardTable, update: CardUpdate, channel: nat, key: DedupeKey) {
    update.id in cards && cards[update.id].channel == channel && cards[update.id].dedupeKey == key
  }

  ghost predicate OnlyOutcome(cards: CardTable, d: Decision, outcome: Outcome, channel: nat, key: DedupeKey) {
    match outcome
    case Nothing =>
      (forall p :: p in d.newCards ==> !At(p, channel, key)) && (forall u :: u in d.updates ==> !UpdatesAt(cards, u, channel, key))
    case Create(planned) =>
      && (exists i :: 0 <= i < |d.newCards| && d.newCards[i] == planned && At(planned, channel, key))
      && (forall u :: u in d.updates ==> !UpdatesAt(cards, u, channel, key))
    case Update(update) =>
      && (forall p :: p in d.newCards ==> !At(p, channel, key))
      && UpdatesAt(cards, update, channel, key)
      && (exists i :: 0 <= i < |d.updates| && d.updates[i] == update
                      && forall j :: 0 <= j < |d.updates| && j != i ==> !UpdatesAt(cards, d.updates[j], channel, key))
  }

  lemma RoutesActAtTheirPlace(
    cards: CardTable, next: CardId, delta: AlertDelta, route: Route, snapshot: RoutingSnapshot, storm: StormState,
    context: AlertContext, settings: DecisionSettings, now: int)
    requires RowsSound(cards, next) && OneCardPerKey(cards) && Quiet([route], storm, settings, now)
    ensures
      var key := ConfiguredKey(delta.alert, route, settings, now);
      match DecideRoute(delta, route, snapshot, storm, Existing(cards), context, settings, now)
      case Nothing => true
      case Create(p) => At(p, route.DeliveryChannel(), key)
      case Update(u) => UpdatesAt(cards, u, route.DeliveryChannel(), key)
  {
    var channel := route.DeliveryChannel();
    var key := ConfiguredKey(delta.alert, route, settings, now);
    QuietRoutesHaveOneLiveKey(delta.alert, route, storm, settings, now);
    OneKeyHeld(key, channel, Existing(cards), delta.alert, settings, now);
    RoutesDecideSoundly(cards, next, delta, route, snapshot, storm, context, settings, now);
  }

  // At most one of the routes, the one at `at`, delivers to the place.
  ghost predicate OnlyRoute(
    routes: seq<Route>, at: int, alert: Alert, channel: nat, key: DedupeKey, settings: DecisionSettings, now: int)
  {
    forall k :: 0 <= k < |routes| && k != at ==>
      routes[k].DeliveryChannel() != channel || ConfiguredKey(alert, routes[k], settings, now) != key
  }

  lemma OneMoreElsewhere(cards: CardTable, d: Decision, more: Outcome, outcome: Outcome, channel: nat, key: DedupeKey)
    requires OnlyOutcome(cards, d, outcome, channel, key)
    requires more.Create? ==> !At(more.planned, channel, key)
    requires more.Update? ==> !UpdatesAt(cards, more.update, channel, key)
    ensures more.Create? ==> OnlyOutcome(cards, d.(newCards := d.newCards + [more.planned]), outcome, channel, key)
    ensures more.Update? ==> OnlyOutcome(cards, d.(updates := d.updates + [more.update]), outcome, channel, key)
  {
    if more.Create? && outcome.Create? {
      var i :| 0 <= i < |d.newCards| && d.newCards[i] == outcome.planned && At(outcome.planned, channel, key);
      assert (d.newCards + [more.planned])[i] == outcome.planned;
    }
    if more.Update? && outcome.Update? {
      var all := d.updates + [more.update];
      var i :| 0 <= i < |d.updates| && d.updates[i] == outcome.update
        && forall j :: 0 <= j < |d.updates| && j != i ==> !UpdatesAt(cards, d.updates[j], channel, key);
      assert all[i] == outcome.update;
      assert forall j :: 0 <= j < |all| && j != i ==> !UpdatesAt(cards, all[j], channel, key);
    }
  }

  lemma FirstHere(cards: CardTable, d: Decision, more: Outcome, channel: nat, key: DedupeKey)
    requires OnlyOutcome(cards, d, Nothing, channel, key)
    requires more.Create? ==> At(more.planned, channel, key)
    requires more.Update? ==> UpdatesAt(cards, more.update, channel, key)
    ensures more.Create? ==> OnlyOutcome(cards, d.(newCards := d.newCards + [more.planned]), more, channel, key)
    ensures more.Update? ==> OnlyOutcome(cards, d.(updates := d.updates + [more.update]), more, channel, key)
  {
    if more.Create? {
      assert (d.newCards + [more.planned])[|d.newCards|] == more.planned;
    }
    if more.Update? {
      var all := d.updates + [more.update];
      assert all[|d.updates|] == more.update;
      assert forall j :: 0 <= j < |all| && j != |d.updates| ==> all[j] in d.updates;
    }
  }

  lemma {:induction false} DecisionActsOnceAtAPlace(
    cards: CardTable, next: CardId, delta: AlertDelta, routes: seq<Route>, at: int, snapshot: RoutingSnapshot,
    storm: StormState, context: AlertContext, settings: DecisionSettings, now: int, channel: nat, key: DedupeKey)
    requires RowsSound(cards, next) && OneCardPerKey(cards) && Quiet(routes, storm, settings, now)
    requires OnlyRoute(routes, at, delta.alert, channel, key, settings, now)
    requires 0 <= at < |routes| ==>
      routes[at].DeliveryChannel() == channel && ConfiguredKey(delta.alert, routes[at], settings, now) == key
    ensures
      OnlyOutcome(
        cards, DecideRoutes(delta, routes, snapshot, storm, Existing(cards), context, settings, now),
        if 0 <= at < |routes| then DecideRoute(delta, routes[at], snapshot, storm, Existing(cards), context, settings, now)
        else Nothing,
        channel, key)
  {
    if routes != [] {
      var n := |routes| - 1;
      var rest, last := routes[..n], routes[n];
      DecisionActsOnceAtAPlace(cards, next, delta, rest, at, snapshot, storm, context, settings, now, channel, key);
      assert last in routes;
      RoutesActAtTheirPlace(cards, next, delta, last, snapshot, storm, context, settings, now);
      var d := DecideRoutes(delta, rest, snapshot, storm, Existing(cards), context, settings, now);
      var more := DecideRoute(delta, last, snapshot, storm, Existing(cards), context, settings, now);
      if at == n {
        FirstHere(cards, d, more, channel, key);
      } else {
        var outcome := if 0 <= at < n then
          DecideRoute(delta, rest[at], snapshot, storm, Existing(cards), context, settings, now) else Nothing;
        OneMoreElsewhere(cards, d, more, outcome, channel, key);
      }
    }
  }

  // ---- The holder after the decision

  ghost predicate Applies(t: Tables, d: Decision, regroup: int) {
    && TablesSound(t, regroup) && DecidedSoundly(t.cards, d, regroup)
    && (forall p :: p in d.newCards ==> HasRoom(t.cards, p, regroup))
    && PlacesDiffer(d.newCards)
  }

  lemma ApplyingSucceeds(t: Tables, d: Decision, regroup: int) returns (added: Tables)
    requires Applies(t, d, regroup)
    ensures AddCards(t, d.newCards) == Ok(added) && Placed(t, added, d.newCards) && TablesSound(added, regroup)
    ensures ApplyUpdates(added, d.updates, d.at).Ok? && ApplyDecision(t, d) == ApplyUpdates(added, d.updates, d.at)
  {
    CardsConflictWhen(t, d.newCards, regroup);
    AddingAllStaysSound(t, d.newCards, regroup);
    UpdatesStillApply(t, d, regroup);
    added := AddCards(t, d.newCards).value;
  }

  lemma NothingKeepsTheHolder(t: Tables, d: Decision, channel: nat, key: DedupeKey, regroup: int)
    requires Applies(t, d, regroup) && OnlyOutcome(t.cards, d, Nothing, channel, key) && LiveKey(key)
    ensures ApplyDecision(t, d).Ok?
    ensures forall card :: Holder(t.cards, channel, key, card) ==> Holder(ApplyDecision(t, d).value.cards, channel, key, card)
    ensures !Taken(t.cards, channel, key) ==> !Taken(ApplyDecision(t, d).value.cards, channel, key)
  {
    var added := ApplyingSucceeds(t, d, regroup);
    forall card | Holder(t.cards, channel, key, card) ensures Holder(ApplyDecision(t, d).value.cards, channel, key, card) {
      AddingElsewhereKeepsTheHolder(t, d.newCards, channel, key, card, regroup);
      assert forall u :: u in d.updates ==> u.id != card.id;
      UpdatingElsewhereKeepsTheHolder(added, d.updates, d.at, card);
    }
    if !Taken(t.cards, channel, key) {
      AddingElsewhereKeepsItFree(t, added, d.newCards, channel, key);
      UpdatingKeepsItFree(added, d.updates, d.at, channel, key);
    }
  }

  lemma UpdatesMoveTheHolder(t: Tables, d: Decision, update: CardUpdate, card: Notification, regroup: int)
    requires Applies(t, d, regroup) && OnlyOutcome(t.cards, d, Update(update), card.channel, card.dedupeKey)
    requires Holder(t.cards, card.channel, card.dedupeKey, card) && update.id == card.id
    ensures ApplyDecision(t, d).Ok?
    ensures Holder(ApplyDecision(t, d).value.cards, card.channel, card.dedupeKey, Shown(card, update, d.at))
  {
    var channel, key := card.channel, card.dedupeKey;
    var added := ApplyingSucceeds(t, d, regroup);
    AddingElsewhereKeepsTheHolder(t, d.newCards, channel, key, card, regroup);
    var i :| 0 <= i < |d.updates| && d.updates[i] == update
      && forall j :: 0 <= j < |d.updates| && j != i ==> !UpdatesAt(t.cards, d.updates[j], channel, key);
    forall j | 0 <= j < |d.updates| && j != i ensures d.updates[j].id != card.id {
      assert !UpdatesAt(t.cards, d.updates[j], channel, key);
    }
    UpdatingMovesTheHolder(added, d.updates, d.at, card, i);
  }

  lemma UpdatesNameOlderCards(t: Tables, d: Decision, regroup: int)
    requires TablesSound(t, regroup) && DecidedSoundly(t.cards, d, regroup)
    ensures forall u :: u in d.updates ==> u.id < t.nextCard
  {
    forall u | u in d.updates ensures u.id < t.nextCard {
      assert UpdatesSoundly(t.cards, u);
    }
  }

  lemma CreationsPutTheHolder(t: Tables, d: Decision, i: nat, regroup: int)
    requires Applies(t, d, regroup) && i < |d.newCards|
    ensures ApplyDecision(t, d).Ok?
    ensures
      var planned := d.newCards[i].card;
      Holder(ApplyDecision(t, d).value.cards, planned.channel, planned.dedupeKey, NewCard(t.nextCard + i, planned))
  {
    var added := ApplyingSucceeds(t, d, regroup);
    AddingPutsTheHolder(t, added, d.newCards, i);
    UpdatesNameOlderCards(t, d, regroup);
    var card := NewCard(t.nextCard + i, d.newCards[i].card);
    assert card.id == t.nextCard + i;
    UpdatingElsewhereKeepsTheHolder(added, d.updates, d.at, card);
  }

  // ---- Alerts that share one card

  // The label `alertname`, in bytes.
  const ALERTNAME: Text := [97, 108, 101, 114, 116, 110, 97, 109, 101]

  // The alerts of one identity on one per-alert route, and the card they share.
  datatype Group = Group(
    route: Route, settings: DecisionSettings, identity: Fingerprint, name: Option<Text>, members: Fingerprint -> bool)
  {
    function Channel(): nat {
      route.DeliveryChannel()
    }

    function Key(): DedupeKey {
      DedupeKeys.PerAlert(identity)
    }

    // The fingerprint of an alert decides whether it is one of the group, and its members share a name.
    predicate Knows(alert: Alert) {
      && (settings.Identity(alert) == identity <==> members(alert.fingerprint))
      && (members(alert.fingerprint) ==> Get(alert.labels, ALERTNAME) == name)
    }
  }

  // Changes accepted with the rows and not decided on yet wait in `pending`.
  datatype Site = Site(rows: AlertTable, pending: seq<AlertDelta>, tables: Tables)

  datatype MergeStep =
    | Delivered(batch: IngestBatch)
    | Applied(snapshot: RoutingSnapshot, storm: StormState, acknowledged: bool, siblings: seq<Alert>, now: int)
    | AckMoves(fingerprint: Fingerprint, revoke: bool, at: int)
    | EffectLands(id: CardId, report: Report)

  // What is read for a resolution: every other alert of the name and identity that still fires.
  ghost predicate AreSiblings(rows: AlertTable, settings: DecisionSettings, alert: Alert, siblings: seq<Alert>) {
    forall a :: a in siblings <==>
      && a.fingerprint in rows && rows[a.fingerprint].alert == a && a.IsFiring()
      && Get(a.labels, ALERTNAME) == Get(alert.labels, ALERTNAME)
      && a.fingerprint != alert.fingerprint && settings.Identity(a) == settings.Identity(alert)
  }

  ghost predicate Can(g: Group, s: Site, step: MergeStep) {
    match step
    case Delivered(batch) => s.pending == [] && forall a :: a in batch.alerts ==> g.Knows(a)
    case Applied(snapshot, storm, _, siblings, now) =>
      && s.pending != []
      && var alert := s.pending[0].alert;
      && var routes := Resolve(snapshot.routes, alert.labels, alert.severity);
      && Quiet(routes, storm, g.settings, now)
      && PlacesPart(routes, alert, g.settings, now)
      && (g.members(alert.fingerprint) ==> g.route in routes && !snapshot.Ignores(g.route.guild, g.Channel(), alert.labels, now))
      && (forall f :: f in s.rows && g.members(f) ==> g.route.Accepts(s.rows[f].alert.labels, s.rows[f].alert.severity))
      && (if alert.IsFiring() then siblings == [] else AreSiblings(s.rows, g.settings, alert, siblings))
    case _ => true
  }

  function Change(g: Group, s: Site, step: MergeStep): CardStep
    requires step.Applied? && s.pending != []
  {
    Changed(s.pending[0], step.snapshot, step.storm, AlertContext(step.acknowledged, step.siblings), g.settings, step.now)
  }

  ghost function Next(g: Group, s: Site, step: MergeStep): Site
    requires Can(g, s, step) && OneCardPerKey(s.tables.cards)
  {
    match step
    case Delivered(batch) =>
      var (rows, deltas) := Ingest(s.rows, batch, g.settings.regroupWindow);
      Site(rows, deltas, s.tables)
    case Applied(_, _, _, _, _) =>
      s.(pending := s.pending[1..], tables := NextTables(s.tables, Change(g, s, step)))
    case AckMoves(fingerprint, revoke, at) => s.(tables := AcknowledgeAlert(s.tables, fingerprint, revoke, at))
    case EffectLands(id, report) => s.(tables := WriteReport(s.tables, id, report))
  }

  ghost predicate FiringMember(g: Group, s: Site, f: Fingerprint) {
    f in s.rows && g.members(f) && s.rows[f].alert.IsFiring()
  }

  ghost predicate RowsKnown(g: Group, s: Site) {
    && RowsValid(s.rows)
    && (forall f :: f in s.rows ==> g.Knows(s.rows[f].alert))
    && (forall i :: 0 <= i < |s.pending| ==>
          KindAgrees(s.pending[i].kind, s.pending[i].alert) && g.Knows(s.pending[i].alert))
    && (forall f :: Reported(s.pending, f) ==> f in s.rows && s.rows[f].alert == LastReport(s.pending, f).value.alert)
  }

  // A member that fires and has nothing left to decide has an open card.
  ghost predicate FiringIsShown(g: Group, s: Site) {
    forall f :: FiringMember(g, s, f) && !Reported(s.pending, f) ==>
      exists card :: Holder(s.tables.cards, g.Channel(), g.Key(), card) && card.state.IsOpen()
  }

  // The card is open or resolved, and an open one shows a member that fires or is still to be decided.
  ghost predicate ShownIsFiring(g: Group, s: Site) {
    forall card :: Holder(s.tables.cards, g.Channel(), g.Key(), card) ==>
      && (card.state.IsOpen() || card.state.Resolved?)
      && (card.state.IsOpen() ==>
            g.members(card.fingerprint) && (Reported(s.pending, card.fingerprint) || FiringMember(g, s, card.fingerprint)))
  }

  ghost predicate Merged(g: Group, s: Site) {
    && TablesSound(s.tables, g.settings.regroupWindow)
    && RowsKnown(g, s) && FiringIsShown(g, s) && ShownIsFiring(g, s)
  }

  lemma {:induction false} TailReports(deltas: seq<AlertDelta>, f: Fingerprint)
    requires deltas != []
    ensures
      LastReport(deltas, f) ==
      if LastReport(deltas[1..], f).Some? then LastReport(deltas[1..], f)
      else if deltas[0].alert.fingerprint == f then Some(deltas[0]) else None
  {
    var n := |deltas| - 1;
    var tail := deltas[1..];
    if n == 0 {
      assert deltas[..0] == [] && tail == [];
    } else {
      assert tail[n - 1] == deltas[n] && tail[..n - 1] == deltas[..n][1..];
      if deltas[n].alert.fingerprint != f {
        TailReports(deltas[..n], f);
      }
    }
  }

  lemma RowsStayKnown(g: Group, s: Site)
    requires RowsKnown(g, s) && s.pending != []
    ensures RowsKnown(g, s.(pending := s.pending[1..]))
    ensures forall f :: Reported(s.pending, f) <==> Reported(s.pending[1..], f) || s.pending[0].alert.fingerprint == f
    ensures
      var alert := s.pending[0].alert;
      !Reported(s.pending[1..], alert.fingerprint) ==>
        alert.fingerprint in s.rows && s.rows[alert.fingerprint].alert == alert
  {
    forall f
      ensures Reported(s.pending, f) <==> Reported(s.pending[1..], f) || s.pending[0].alert.fingerprint == f
      ensures Reported(s.pending[1..], f) ==> LastReport(s.pending, f) == LastReport(s.pending[1..], f)
    {
      TailReports(s.pending, f);
    }
    TailReports(s.pending, s.pending[0].alert.fingerprint);
    assert forall i :: 0 <= i < |s.pending[1..]| ==> s.pending[1..][i] == s.pending[i + 1];
  }

  // ---- A batch arrives

  lemma {:induction false} IngestKeepsKnown(g: Group, rows: AlertTable, batch: IngestBatch)
    requires RowsValid(rows) && (forall f :: f in rows ==> g.Knows(rows[f].alert))
    requires forall a :: a in batch.alerts ==> g.Knows(a)
    ensures
      var (after, deltas) := Ingest(rows, batch, g.settings.regroupWindow);
      && (forall f :: f in after ==> g.Knows(after[f].alert))
      && (forall i :: 0 <= i < |deltas| ==> g.Knows(deltas[i].alert))
    decreases |batch.alerts|
  {
    if batch.alerts != [] {
      var last := batch.alerts[|batch.alerts| - 1];
      assert last in batch.alerts;
      IngestKeepsKnown(g, rows, Prefix(batch));
      IngestKeepsRowsValid(rows, Prefix(batch), g.settings.regroupWindow);
      IngestUnfolds(rows, batch, g.settings.regroupWindow);
      OneArrival(Ingest(rows, Prefix(batch), g.settings.regroupWindow).0, batch.groupKey, last, batch.receivedAt,
                 g.settings.regroupWindow);
    }
  }

  lemma IngestedRowsAreKnown(g: Group, s: Site, batch: IngestBatch)
    requires RowsKnown(g, s) && Can(g, s, Delivered(batch))
    ensures
      var (rows, deltas) := Ingest(s.rows, batch, g.settings.regroupWindow);
      && RowsKnown(g, Site(rows, deltas, s.tables))
      && forall f :: !Reported(deltas, f) ==> Untouched(s.rows, rows, f)
  {
    var regroup := g.settings.regroupWindow;
    var (rows, deltas) := Ingest(s.rows, batch, regroup);
    IngestKeepsRowsValid(s.rows, batch, regroup);
    IngestKeepsKnown(g, s.rows, batch);
    DeltaKindsAgree(s.rows, batch, regroup);
    forall f
      ensures Reported(deltas, f) ==> f in rows && rows[f].alert == LastReport(deltas, f).value.alert
      ensures !Reported(deltas, f) ==> Untouched(s.rows, rows, f)
    {
      DeltasCarryTheRows(s.rows, batch, regroup, f);
    }
  }

  // The same cards, while the rows and what is pending move on.
  lemma CardsOutlastTheRows(g: Group, s: Site, after: Site)
    requires FiringIsShown(g, s) && ShownIsFiring(g, s) && after.tables == s.tables
    requires forall f :: FiringMember(g, after, f) && !Reported(after.pending, f) ==>
      FiringMember(g, s, f) && !Reported(s.pending, f)
    requires forall f :: Reported(s.pending, f) || FiringMember(g, s, f) ==>
      Reported(after.pending, f) || FiringMember(g, after, f)
    ensures FiringIsShown(g, after) && ShownIsFiring(g, after)
  {
  }

  lemma DeliveriesMerge(g: Group, s: Site, batch: IngestBatch)
    requires Merged(g, s) && OneCardPerKey(s.tables.cards) && Can(g, s, Delivered(batch))
    ensures Merged(g, Next(g, s, Delivered(batch)))
  {
    var (rows, deltas) := Ingest(s.rows, batch, g.settings.regroupWindow);
    var after := Site(rows, deltas, s.tables);
    IngestedRowsAreKnown(g, s, batch);
    assert forall f :: !Reported(s.pending, f);
    forall f
      ensures FiringMember(g, after, f) && !Reported(deltas, f) ==> FiringMember(g, s, f)
      ensures FiringMember(g, s, f) ==> Reported(deltas, f) || FiringMember(g, after, f)
    {
      assert !Reported(deltas, f) ==> Untouched(s.rows, rows, f);
    }
    CardsOutlastTheRows(g, s, after);
  }

  // ---- A change is decided

  // No two of the routes deliver the alert to one channel under one key.
  ghost predicate PlacesPart(routes: seq<Route>, alert: Alert, settings: DecisionSettings, now: int) {
    forall i, j :: 0 <= i < j < |routes| ==>
      || routes[i].DeliveryChannel() != routes[j].DeliveryChannel()
      || ConfiguredKey(alert, routes[i], settings, now) != ConfiguredKey(alert, routes[j], settings, now)
  }

  lemma ChangesApply(g: Group, s: Site, step: MergeStep) returns (d: Decision)
    requires TablesSound(s.tables, g.settings.regroupWindow) && step.Applied? && Can(g, s, step)
    ensures d == DecisionAt(s.tables, Change(g, s, step)) && Applies(s.tables, d, g.settings.regroupWindow)
    ensures ApplyDecision(s.tables, d).Ok? && Next(g, s, step).tables == ApplyDecision(s.tables, d).value
    ensures TablesSound(Next(g, s, step).tables, g.settings.regroupWindow)
  {
    var regroup := g.settings.regroupWindow;
    d := DecisionAt(s.tables, Change(g, s, step));
    DecisionsHaveRoom(s.tables, Change(g, s, step), regroup);
    PartedPlacesApply(s.tables, Change(g, s, step), regroup);
    var added := ApplyingSucceeds(s.tables, d, regroup);
    DecisionsStaySound(s.tables, d, regroup);
  }

  // Routes that part ways never plan two cards for one place.
  lemma PartedPlacesApply(t: Tables, step: CardStep, regroup: int)
    requires step.Changed? && TablesSound(t, regroup) && Calm(step, regroup)
    requires
      var routes := Resolve(step.snapshot.routes, step.delta.alert.labels, step.delta.alert.severity);
      PlacesPart(routes, step.delta.alert, step.settings, step.now)
    ensures PlacesDiffer(DecisionAt(t, step).newCards)
  {
    DecisionsConflictWhen(t, step, regroup);
    PlansConflictWhen(t, step, regroup);
  }

  // ---- A change to an alert outside the group

  lemma OtherIdentitiesHaveOtherKeys(g: Group, alert: Alert, route: Route, now: int)
    requires g.Knows(alert) && !g.members(alert.fingerprint)
    ensures ConfiguredKey(alert, route, g.settings, now) != g.Key()
  {
    var key := ConfiguredKey(alert, route, g.settings, now);
    assert g.Key()[0] == 'a';
    if key == PerAlertKey(alert, g.settings) {
      assert key[2..] == g.settings.Identity(alert) && g.Key()[2..] == g.identity;
    }
  }

  lemma StrangersLeaveTheCard(g: Group, s: Site, step: MergeStep)
    requires Merged(g, s) && step.Applied? && Can(g, s, step)
    requires !g.members(s.pending[0].alert.fingerprint)
    ensures Merged(g, Next(g, s, step))
  {
    var delta := s.pending[0];
    var routes := Resolve(step.snapshot.routes, delta.alert.labels, delta.alert.severity);
    var d := ChangesApply(g, s, step);
    var after := Next(g, s, step);
    forall k | 0 <= k < |routes|
      ensures routes[k].DeliveryChannel() != g.Channel() || ConfiguredKey(delta.alert, routes[k], g.settings, step.now) != g.Key()
    {
      OtherIdentitiesHaveOtherKeys(g, delta.alert, routes[k], step.now);
    }
    DecisionActsOnceAtAPlace(
      s.tables.cards, s.tables.nextCard, delta, routes, -1, step.snapshot, step.storm,
      AlertContext(step.acknowledged, step.siblings), g.settings, step.now, g.Channel(), g.Key());
    GroupKeyIsLive(g);
    NothingKeepsTheHolder(s.tables, d, g.Channel(), g.Key(), g.settings.regroupWindow);
    RowsStayKnown(g, s);
    SameHolder(g, s, after);
  }

  lemma GroupKeyIsLive(g: Group)
    ensures LiveKey(g.Key())
  {
    assert g.Key() == KeyOf(KeyScope.Alert(g.identity)) && WellFormed(KeyScope.Alert(g.identity));
  }

  // The holder is who it was, and only a stranger's change left the queue.
  lemma SameHolder(g: Group, s: Site, after: Site)
    requires Merged(g, s) && s.pending != [] && !g.members(s.pending[0].alert.fingerprint)
    requires after.rows == s.rows && after.pending == s.pending[1..] && RowsKnown(g, after)
    requires TablesSound(after.tables, g.settings.regroupWindow)
    requires forall f :: Reported(s.pending, f) <==> Reported(s.pending[1..], f) || s.pending[0].alert.fingerprint == f
    requires forall card :: Holder(s.tables.cards, g.Channel(), g.Key(), card) ==>
      Holder(after.tables.cards, g.Channel(), g.Key(), card)
    requires !Taken(s.tables.cards, g.Channel(), g.Key()) ==> !Taken(after.tables.cards, g.Channel(), g.Key())
    ensures Merged(g, after)
  {
    HoldersAreTheSame(s.tables, after.tables, g.Channel(), g.Key(), g.settings.regroupWindow);
    forall f | FiringMember(g, after, f) && !Reported(after.pending, f)
      ensures exists card :: Holder(after.tables.cards, g.Channel(), g.Key(), card) && card.state.IsOpen()
    {
      assert FiringMember(g, s, f) && !Reported(s.pending, f);
      var card :| Holder(s.tables.cards, g.Channel(), g.Key(), card) && card.state.IsOpen();
      assert Holder(after.tables.cards, g.Channel(), g.Key(), card);
    }
    assert FiringIsShown(g, after);
    assert ShownIsFiring(g, after);
  }

  lemma HoldersAreTheSame(t: Tables, after: Tables, channel: nat, key: DedupeKey, regroup: int)
    requires TablesSound(t, regroup) && TablesSound(after, regroup)
    requires forall card :: Holder(t.cards, channel, key, card) ==> Holder(after.cards, channel, key, card)
    requires !Taken(t.cards, channel, key) ==> !Taken(after.cards, channel, key)
    ensures forall card :: Holder(after.cards, channel, key, card) ==> Holder(t.cards, channel, key, card)
  {
    forall card | Holder(after.cards, channel, key, card) ensures Holder(t.cards, channel, key, card) {
      assert Taken(after.cards, channel, key);
      var id :| id in t.cards && t.cards[id].channel == channel && t.cards[id].dedupeKey == key;
      assert Holder(t.cards, channel, key, t.cards[id]);
      assert Holder(after.cards, channel, key, t.cards[id]);
      assert id == card.id;
    }
  }

  // ---- A change to a member

  // The change as a per-alert route decides it, on the card that holds its key if one does.
  function Heard(
    delta: AlertDelta, route: Route, key: DedupeKey, acknowledged: bool, siblings: seq<Alert>,
    settings: DecisionSettings, now: int, holder: Option<Notification>): Outcome
  {
    if holder.Some? && !Outlived(holder.value, delta.alert, settings, now) then
      match UpdateFor(delta, route, holder.value, false, acknowledged, siblings, settings, now)
      case None => Nothing
      case Some(update) => Update(update)
    else
      match CreationFor(delta, route, key, false, if holder.Some? then Some(holder.value.id) else None, now)
      case None => Nothing
      case Some(planned) => Create(planned)
  }

  lemma OneKeyHeard(
    delta: AlertDelta, route: Route, snapshot: RoutingSnapshot, storm: StormState, existing: ExistingCards,
    context: AlertContext, settings: DecisionSettings, now: int, holder: Option<Notification>)
    requires DedupeKeysFor(delta.alert, route, storm, settings, now) == [PerAlertKey(delta.alert, settings)]
    requires !snapshot.Ignores(route.guild, route.DeliveryChannel(), delta.alert.labels, now)
    requires
      var place := (route.DeliveryChannel(), PerAlertKey(delta.alert, settings));
      && (holder.Some? <==> place in existing)
      && (holder.Some? ==> existing[place] == holder.value && holder.value.dedupeKey == place.1)
    ensures
      DecideRoute(delta, route, snapshot, storm, existing, context, settings, now)
      == Heard(delta, route, PerAlertKey(delta.alert, settings), context.acknowledged, context.firingSiblings,
               settings, now, holder)
  {
    OneKeyHeld(PerAlertKey(delta.alert, settings), route.DeliveryChannel(), existing, delta.alert, settings, now);
  }

  ghost predicate HolderIs(cards: CardTable, channel: nat, key: DedupeKey, holder: Option<Notification>) {
    if holder.Some? then Holder(cards, channel, key, holder.value) else !Taken(cards, channel, key)
  }

  lemma HolderIsWhatIsRead(cards: CardTable, channel: nat, key: DedupeKey, holder: Option<Notification>)
    requires OneCardPerKey(cards) && HolderIs(cards, channel, key, holder)
    ensures holder.Some? <==> (channel, key) in Existing(cards)
    ensures holder.Some? ==> Existing(cards)[(channel, key)] == holder.value
  {
    if holder.Some? {
      assert (cards[holder.value.id].channel, cards[holder.value.id].dedupeKey) == (channel, key);
    }
  }

  function HeardBy(g: Group, s: Site, step: MergeStep, holder: Option<Notification>): Outcome
    requires step.Applied? && s.pending != []
  {
    Heard(s.pending[0], g.route, g.Key(), step.acknowledged, step.siblings, g.settings, step.now, holder)
  }

  lemma GroupRouteHears(g: Group, s: Site, step: MergeStep, holder: Option<Notification>)
    requires OneCardPerKey(s.tables.cards) && step.Applied? && Can(g, s, step)
    requires g.Knows(s.pending[0].alert) && g.members(s.pending[0].alert.fingerprint) && g.route.strategy.PerAlert?
    requires HolderIs(s.tables.cards, g.Channel(), g.Key(), holder)
    ensures
      DecideRoute(s.pending[0], g.route, step.snapshot, step.storm, Existing(s.tables.cards),
                  AlertContext(step.acknowledged, step.siblings), g.settings, step.now)
      == HeardBy(g, s, step, holder)
    ensures ConfiguredKey(s.pending[0].alert, g.route, g.settings, step.now) == g.Key()
  {
    var delta := s.pending[0];
    var routes := Resolve(step.snapshot.routes, delta.alert.labels, delta.alert.severity);
    assert Quiet([g.route], step.storm, g.settings, step.now);
    QuietRoutesHaveOneLiveKey(delta.alert, g.route, step.storm, g.settings, step.now);
    HolderIsWhatIsRead(s.tables.cards, g.Channel(), g.Key(), holder);
    OneKeyHeard(delta, g.route, step.snapshot, step.storm, Existing(s.tables.cards),
                AlertContext(step.acknowledged, step.siblings), g.settings, step.now, holder);
  }

  lemma GroupRouteIsAlone(g: Group, routes: seq<Route>, alert: Alert, now: int) returns (r: nat)
    requires PlacesPart(routes, alert, g.settings, now) && g.route in routes
    requires ConfiguredKey(alert, g.route, g.settings, now) == g.Key()
    ensures r < |routes| && routes[r] == g.route
    ensures OnlyRoute(routes, r, alert, g.Channel(), g.Key(), g.settings, now)
  {
    r :| 0 <= r < |routes| && routes[r] == g.route;
    forall k | 0 <= k < |routes| && k != r
      ensures routes[k].DeliveryChannel() != g.Channel() || ConfiguredKey(alert, routes[k], g.settings, now) != g.Key()
    {
      assert k < r || r < k;
    }
  }

  // The decision does at the group's place what the group's route decides, and nothing else.
  lemma MembersActOnce(g: Group, s: Site, step: MergeStep, d: Decision, holder: Option<Notification>)
    requires TablesSound(s.tables, g.settings.regroupWindow) && step.Applied? && Can(g, s, step)
    requires g.Knows(s.pending[0].alert) && g.members(s.pending[0].alert.fingerprint)
    requires g.route.strategy.PerAlert? && d == DecisionAt(s.tables, Change(g, s, step))
    requires HolderIs(s.tables.cards, g.Channel(), g.Key(), holder)
    ensures OnlyOutcome(s.tables.cards, d, HeardBy(g, s, step, holder), g.Channel(), g.Key())
  {
    var delta := s.pending[0];
    var routes := Resolve(step.snapshot.routes, delta.alert.labels, delta.alert.severity);
    GroupRouteHears(g, s, step, holder);
    var r := GroupRouteIsAlone(g, routes, delta.alert, step.now);
    DecisionActsOnceAtAPlace(
      s.tables.cards, s.tables.nextCard, delta, routes, r, step.snapshot, step.storm,
      AlertContext(step.acknowledged, step.siblings), g.settings, step.now, g.Channel(), g.Key());
  }

  // A firing member opens the card it finds, or gets a new one, and is what it shows.
  ghost predicate Opened(outcome: Outcome, holder: Option<Notification>, alert: Alert, channel: nat, key: DedupeKey, at: int) {
    match outcome
    case Create(p) => At(p, channel, key) && p.card.state.IsOpen() && p.card.fingerprint == alert.fingerprint
    case Update(u) =>
      && holder.Some? && u.id == holder.value.id
      && Shown(holder.value, u, at).state.IsOpen() && u.fingerprint == alert.fingerprint
    case Nothing => false
  }

  lemma FiringMembersOpen(
    delta: AlertDelta, route: Route, key: DedupeKey, acknowledged: bool, settings: DecisionSettings, now: int,
    holder: Option<Notification>)
    requires delta.alert.IsFiring() && KindAgrees(delta.kind, delta.alert)
    requires holder.Some? ==> !holder.value.state.Orphaned?
    ensures
      Opened(Heard(delta, route, key, acknowledged, [], settings, now, holder), holder, delta.alert,
             route.DeliveryChannel(), key, now)
  {
    if holder.Some? && !Outlived(holder.value, delta.alert, settings, now) {
      OneChangeHeals(delta, route, holder.value, acknowledged, [], settings, now);
      EveryUpdateOwes(delta, route, holder.value, false, acknowledged, [], settings, now);
    }
  }

  // A resolved member leaves a resolved card resolved, keeps an open one open for a live sibling,
  // and otherwise resolves it.
  lemma ResolvedMembersSettle(
    delta: AlertDelta, route: Route, key: DedupeKey, acknowledged: bool, siblings: seq<Alert>,
    settings: DecisionSettings, now: int, card: Notification)
    requires !delta.alert.IsFiring() && KindAgrees(delta.kind, delta.alert)
    requires card.state.IsOpen() || card.state.Resolved?
    ensures
      var outcome := Heard(delta, route, key, acknowledged, siblings, settings, now, Some(card));
      && outcome.Update? && outcome.update.id == card.id
      && var after := Shown(card, outcome.update, now);
      && (if card.state.IsOpen() && (exists a :: a in siblings && GoesOn(route, a))
          then after.state == card.state && exists a :: a in siblings && GoesOn(route, a) && a.fingerprint == after.fingerprint
          else after.state.Resolved?)
  {
    EveryUpdateOwes(delta, route, card, false, acknowledged, siblings, settings, now);
    if card.state.Resolved? {
      ResolvedStaysResolved(delta, route, card, false, acknowledged, siblings, settings, now);
    } else if exists a :: a in siblings && GoesOn(route, a) {
      ResolvedSiblingKeepsTheCard(delta, route, card, false, acknowledged, siblings, settings, now);
    } else {
      OneChangeHeals(delta, route, card, acknowledged, siblings, settings, now);
    }
  }

  // The siblings read for a member are the other firing members, and the route takes all of them.
  lemma SiblingsAreFiringMembers(g: Group, s: Site, step: MergeStep)
    requires RowsKnown(g, s) && step.Applied? && Can(g, s, step)
    requires g.members(s.pending[0].alert.fingerprint) && !s.pending[0].alert.IsFiring()
    ensures forall a :: a in step.siblings && Live(g.route, a) ==>
      FiringMember(g, s, a.fingerprint) && a.fingerprint != s.pending[0].alert.fingerprint
    ensures forall f :: FiringMember(g, s, f) && f != s.pending[0].alert.fingerprint ==>
      s.rows[f].alert in step.siblings && Live(g.route, s.rows[f].alert)
  {
    var alert := s.pending[0].alert;
    assert g.Knows(alert);
    forall a | a in step.siblings ensures FiringMember(g, s, a.fingerprint) && a.fingerprint != alert.fingerprint {
      assert g.Knows(s.rows[a.fingerprint].alert);
    }
    forall f | FiringMember(g, s, f) && f != alert.fingerprint
      ensures s.rows[f].alert in step.siblings && Live(g.route, s.rows[f].alert)
    {
      assert g.Knows(s.rows[f].alert) && s.rows[f].alert.fingerprint == f;
    }
  }

  lemma CurrentHolder(t: Tables, channel: nat, key: DedupeKey, regroup: int) returns (holder: Option<Notification>)
    requires TablesSound(t, regroup) && LiveKey(key)
    ensures HolderIs(t.cards, channel, key, holder)
    ensures holder.Some? ==> !holder.value.state.Orphaned?
    ensures forall card :: Holder(t.cards, channel, key, card) ==> holder == Some(card)
  {
    holder := None;
    if Taken(t.cards, channel, key) {
      var id :| id in t.cards && t.cards[id].channel == channel && t.cards[id].dedupeKey == key;
      holder := Some(t.cards[id]);
      LiveKeysAreNotRetired(key);
    }
  }

  lemma FiringLands(
    t: Tables, d: Decision, outcome: Outcome, holder: Option<Notification>, alert: Alert, channel: nat, key: DedupeKey,
    regroup: int)
    returns (card: Notification)
    requires Applies(t, d, regroup) && OnlyOutcome(t.cards, d, outcome, channel, key)
    requires HolderIs(t.cards, channel, key, holder) && Opened(outcome, holder, alert, channel, key, d.at)
    ensures ApplyDecision(t, d).Ok?
    ensures Holder(ApplyDecision(t, d).value.cards, channel, key, card)
    ensures card.state.IsOpen() && card.fingerprint == alert.fingerprint
  {
    if outcome.Update? {
      UpdatesMoveTheHolder(t, d, outcome.update, holder.value, regroup);
      card := Shown(holder.value, outcome.update, d.at);
    } else {
      var i := CreatedAt(t.cards, d, outcome, channel, key);
      CreationsPutTheHolder(t, d, i, regroup);
      card := NewCard(t.nextCard + i, outcome.planned.card);
    }
  }

  lemma CreatedAt(cards: CardTable, d: Decision, outcome: Outcome, channel: nat, key: DedupeKey) returns (i: nat)
    requires outcome.Create? && OnlyOutcome(cards, d, outcome, channel, key)
    ensures i < |d.newCards| && d.newCards[i] == outcome.planned
  {
    i :| 0 <= i < |d.newCards| && d.newCards[i] == outcome.planned;
  }

  lemma DecisionIsStamped(g: Group, s: Site, step: MergeStep)
    requires OneCardPerKey(s.tables.cards) && step.Applied? && s.pending != []
    ensures DecisionAt(s.tables, Change(g, s, step)).at == step.now
  {
    var delta := s.pending[0];
    RoutesStamp(delta, Resolve(step.snapshot.routes, delta.alert.labels, delta.alert.severity), step.snapshot, step.storm,
                Existing(s.tables.cards), AlertContext(step.acknowledged, step.siblings), g.settings, step.now);
  }

  lemma {:induction false} RoutesStamp(
    delta: AlertDelta, routes: seq<Route>, snapshot: RoutingSnapshot, storm: StormState, existing: ExistingCards,
    context: AlertContext, settings: DecisionSettings, now: int)
    ensures DecideRoutes(delta, routes, snapshot, storm, existing, context, settings, now).at == now
  {
    if routes != [] {
      RoutesStamp(delta, routes[..|routes| - 1], snapshot, storm, existing, context, settings, now);
    }
  }

  lemma FiringMembersMerge(g: Group, s: Site, step: MergeStep)
    requires Merged(g, s) && step.Applied? && Can(g, s, step) && g.route.strategy.PerAlert?
    requires g.members(s.pending[0].alert.fingerprint) && s.pending[0].alert.IsFiring()
    ensures Merged(g, Next(g, s, step))
  {
    var alert := s.pending[0].alert;
    var d := ChangesApply(g, s, step);
    GroupKeyIsLive(g);
    var holder := CurrentHolder(s.tables, g.Channel(), g.Key(), g.settings.regroupWindow);
    MembersActOnce(g, s, step, d, holder);
    DecisionIsStamped(g, s, step);
    FiringMembersOpen(s.pending[0], g.route, g.Key(), step.acknowledged, g.settings, step.now, holder);
    var card := FiringLands(
      s.tables, d, HeardBy(g, s, step, holder), holder, alert, g.Channel(), g.Key(), g.settings.regroupWindow);
    RowsStayKnown(g, s);
    OpenCardMerges(g, s, Next(g, s, step), card);
  }

  // One open card, showing a member that fires or is still to be decided, is all it takes.
  lemma OpenCardMerges(g: Group, s: Site, after: Site, card: Notification)
    requires RowsKnown(g, after) && TablesSound(after.tables, g.settings.regroupWindow)
    requires Holder(after.tables.cards, g.Channel(), g.Key(), card) && card.state.IsOpen()
    requires g.members(card.fingerprint)
    requires Reported(after.pending, card.fingerprint) || FiringMember(g, after, card.fingerprint)
    ensures Merged(g, after)
  {
    forall other | Holder(after.tables.cards, g.Channel(), g.Key(), other) ensures other == card {
      assert other.id == card.id;
    }
  }

  // The card resolves, or was resolved already: nothing that is decided on may still be firing.
  lemma ResolvedCardMerges(g: Group, after: Site, card: Notification)
    requires RowsKnown(g, after) && TablesSound(after.tables, g.settings.regroupWindow)
    requires Holder(after.tables.cards, g.Channel(), g.Key(), card) && card.state.Resolved?
    requires forall f :: FiringMember(g, after, f) ==> Reported(after.pending, f)
    ensures Merged(g, after)
  {
    forall other | Holder(after.tables.cards, g.Channel(), g.Key(), other) ensures other == card {
      assert other.id == card.id;
    }
  }

  lemma NoCardMerges(g: Group, after: Site)
    requires RowsKnown(g, after) && TablesSound(after.tables, g.settings.regroupWindow)
    requires !Taken(after.tables.cards, g.Channel(), g.Key())
    requires forall f :: FiringMember(g, after, f) ==> Reported(after.pending, f)
    ensures Merged(g, after)
  {
  }

  // With no open card to show it, a member that still fires has a change of its own to come.
  lemma OnlyPendingMembersFire(g: Group, s: Site, holder: Option<Notification>)
    requires Merged(g, s) && s.pending != [] && !s.pending[0].alert.IsFiring()
    requires forall card :: Holder(s.tables.cards, g.Channel(), g.Key(), card) ==> holder == Some(card)
    requires holder.Some? ==> !holder.value.state.IsOpen()
    ensures forall f :: FiringMember(g, s, f) ==> Reported(s.pending[1..], f)
  {
    RowsStayKnown(g, s);
    forall f | FiringMember(g, s, f) ensures Reported(s.pending[1..], f) {
      assert !Reported(s.pending, f) ==> exists card :: Holder(s.tables.cards, g.Channel(), g.Key(), card) && card.state.IsOpen();
    }
  }

  lemma UnheldMembersMerge(g: Group, s: Site, step: MergeStep, d: Decision)
    requires Merged(g, s) && step.Applied? && Can(g, s, step)
    requires !s.pending[0].alert.IsFiring() && !Taken(s.tables.cards, g.Channel(), g.Key())
    requires Applies(s.tables, d, g.settings.regroupWindow) && OnlyOutcome(s.tables.cards, d, Nothing, g.Channel(), g.Key())
    requires ApplyDecision(s.tables, d).Ok? && Next(g, s, step).tables == ApplyDecision(s.tables, d).value
    requires TablesSound(Next(g, s, step).tables, g.settings.regroupWindow)
    ensures Merged(g, Next(g, s, step))
  {
    GroupKeyIsLive(g);
    NothingKeepsTheHolder(s.tables, d, g.Channel(), g.Key(), g.settings.regroupWindow);
    RowsStayKnown(g, s);
    OnlyPendingMembersFire(g, s, None);
    NoCardMerges(g, Next(g, s, step));
  }

  lemma NoSiblingMeansPending(g: Group, s: Site, step: MergeStep)
    requires RowsKnown(g, s) && step.Applied? && Can(g, s, step)
    requires g.members(s.pending[0].alert.fingerprint) && !s.pending[0].alert.IsFiring()
    requires !exists a :: a in step.siblings && Live(g.route, a)
    ensures forall f :: FiringMember(g, s, f) ==> Reported(s.pending[1..], f)
  {
    RowsStayKnown(g, s);
    SiblingsAreFiringMembers(g, s, step);
  }

  // The card as a resolved member leaves it, and why that is right.
  lemma SettledCardMerges(g: Group, s: Site, step: MergeStep, after: Site, card: Notification, moved: Notification)
    requires Merged(g, s) && step.Applied? && Can(g, s, step)
    requires g.members(s.pending[0].alert.fingerprint) && !s.pending[0].alert.IsFiring()
    requires forall other :: Holder(s.tables.cards, g.Channel(), g.Key(), other) ==> other == card
    requires after.rows == s.rows && after.pending == s.pending[1..]
    requires TablesSound(after.tables, g.settings.regroupWindow)
    requires Holder(after.tables.cards, g.Channel(), g.Key(), moved)
    requires
      if card.state.IsOpen() && (exists a :: a in step.siblings && Live(g.route, a))
      then moved.state == card.state
        && exists a :: a in step.siblings && Live(g.route, a) && a.fingerprint == moved.fingerprint
      else moved.state.Resolved?
    ensures Merged(g, after)
  {
    RowsStayKnown(g, s);
    if !card.state.IsOpen() {
      OnlyPendingMembersFire(g, s, Some(card));
      ResolvedCardMerges(g, after, moved);
    } else if exists a :: a in step.siblings && Live(g.route, a) {
      SiblingsAreFiringMembers(g, s, step);
      assert FiringMember(g, after, moved.fingerprint);
      OpenCardMerges(g, s, after, moved);
    } else {
      NoSiblingMeansPending(g, s, step);
      ResolvedCardMerges(g, after, moved);
    }
  }

  lemma HeldMembersMerge(g: Group, s: Site, step: MergeStep, d: Decision, card: Notification)
    requires Merged(g, s) && step.Applied? && Can(g, s, step) && g.members(s.pending[0].alert.fingerprint)
    requires !s.pending[0].alert.IsFiring() && Holder(s.tables.cards, g.Channel(), g.Key(), card)
    requires forall other :: Holder(s.tables.cards, g.Channel(), g.Key(), other) ==> other == card
    requires Applies(s.tables, d, g.settings.regroupWindow) && d.at == step.now
    requires OnlyOutcome(s.tables.cards, d, HeardBy(g, s, step, Some(card)), g.Channel(), g.Key())
    requires ApplyDecision(s.tables, d).Ok? && Next(g, s, step).tables == ApplyDecision(s.tables, d).value
    requires TablesSound(Next(g, s, step).tables, g.settings.regroupWindow)
    ensures Merged(g, Next(g, s, step))
  {
    var outcome := HeardBy(g, s, step, Some(card));
    assert card.state.IsOpen() || card.state.Resolved?;
    ResolvedMembersSettle(s.pending[0], g.route, g.Key(), step.acknowledged, step.siblings, g.settings, step.now, card);
    var moved := Shown(card, outcome.update, step.now);
    UpdatesMoveTheHolder(s.tables, d, outcome.update, card, g.settings.regroupWindow);
    SettledCardMerges(g, s, step, Next(g, s, step), card, moved);
  }

  lemma ResolvedMembersMerge(g: Group, s: Site, step: MergeStep)
    requires Merged(g, s) && step.Applied? && Can(g, s, step) && g.route.strategy.PerAlert?
    requires g.members(s.pending[0].alert.fingerprint) && !s.pending[0].alert.IsFiring()
    ensures Merged(g, Next(g, s, step))
  {
    var d := ChangesApply(g, s, step);
    GroupKeyIsLive(g);
    var holder := CurrentHolder(s.tables, g.Channel(), g.Key(), g.settings.regroupWindow);
    MembersActOnce(g, s, step, d, holder);
    DecisionIsStamped(g, s, step);
    if holder.Some? {
      HeldMembersMerge(g, s, step, d, holder.value);
    } else {
      assert HeardBy(g, s, step, None) == Nothing;
      UnheldMembersMerge(g, s, step, d);
    }
  }

  // ---- Whole runs

  // A write that keeps keys and shown alerts, and keeps open cards open and resolved ones resolved.
  predicate KeepsShowing(was: Notification, now: Notification) {
    && OnlyTouched(was, now) && now.fingerprint == was.fingerprint
    && (was.state.IsOpen() <==> now.state.IsOpen()) && (was.state.Resolved? <==> now.state.Resolved?)
  }

  lemma TouchesMerge(g: Group, s: Site, tables: Tables)
    requires Merged(g, s) && tables.cards.Keys == s.tables.cards.Keys && tables.nextCard == s.tables.nextCard
    requires forall id :: id in s.tables.cards ==> KeepsShowing(s.tables.cards[id], tables.cards[id])
    ensures Merged(g, s.(tables := tables))
  {
    var after := s.(tables := tables);
    TouchingStaysSound(s.tables, tables, g.settings.regroupWindow);
    forall card | Holder(s.tables.cards, g.Channel(), g.Key(), card)
      ensures Holder(tables.cards, g.Channel(), g.Key(), tables.cards[card.id])
    {
    }
    forall f | FiringMember(g, after, f) && !Reported(after.pending, f)
      ensures exists card :: Holder(tables.cards, g.Channel(), g.Key(), card) && card.state.IsOpen()
    {
      assert FiringMember(g, s, f);
      var card :| Holder(s.tables.cards, g.Channel(), g.Key(), card) && card.state.IsOpen();
      assert Holder(tables.cards, g.Channel(), g.Key(), tables.cards[card.id]);
    }
    forall card | Holder(tables.cards, g.Channel(), g.Key(), card)
      ensures Holder(s.tables.cards, g.Channel(), g.Key(), s.tables.cards[card.id])
    {
    }
    assert forall f :: FiringMember(g, after, f) <==> FiringMember(g, s, f);
    assert ShownIsFiring(g, after);
  }

  lemma AnsweringKeepsShowing(card: Notification, fingerprint: Fingerprint, revoke: bool, at: int)
    ensures
      KeepsShowing(card, Answered(card, fingerprint, if revoke then Trigger.AckRevoked else Trigger.Acknowledged, !revoke, at))
  {
  }

  lemma AcksMerge(g: Group, s: Site, fingerprint: Fingerprint, revoke: bool, at: int)
    requires Merged(g, s)
    ensures Merged(g, s.(tables := AcknowledgeAlert(s.tables, fingerprint, revoke, at)))
  {
    var after := AcknowledgeAlert(s.tables, fingerprint, revoke, at);
    forall id | id in s.tables.cards ensures KeepsShowing(s.tables.cards[id], after.cards[id]) {
      AnsweringKeepsShowing(s.tables.cards[id], fingerprint, revoke, at);
    }
    TouchesMerge(g, s, after);
  }

  lemma WritingKeepsShowing(t: Tables, id: CardId, report: Report, other: CardId)
    requires other in t.cards
    ensures
      var after := WriteReport(t, id, report);
      after.cards.Keys == t.cards.Keys && after.nextCard == t.nextCard && KeepsShowing(t.cards[other], after.cards[other])
  {
  }

  lemma ReportsMerge(g: Group, s: Site, id: CardId, report: Report)
    requires Merged(g, s)
    ensures Merged(g, s.(tables := WriteReport(s.tables, id, report)))
  {
    var after := WriteReport(s.tables, id, report);
    forall other | other in s.tables.cards ensures KeepsShowing(s.tables.cards[other], after.cards[other]) {
      WritingKeepsShowing(s.tables, id, report, other);
    }
    TouchesMerge(g, s, after);
  }

  lemma StepsMerge(g: Group, s: Site, step: MergeStep)
    requires Merged(g, s) && Can(g, s, step) && g.route.strategy.PerAlert?
    ensures Merged(g, Next(g, s, step))
  {
    match step
    case Delivered(batch) => DeliveriesMerge(g, s, batch);
    case AckMoves(fingerprint, revoke, at) => AcksMerge(g, s, fingerprint, revoke, at);
    case EffectLands(id, report) => ReportsMerge(g, s, id, report);
    case Applied(_, _, _, _, _) => DecidedChangesMerge(g, s, step);
  }

  lemma DecidedChangesMerge(g: Group, s: Site, step: MergeStep)
    requires Merged(g, s) && step.Applied? && Can(g, s, step) && g.route.strategy.PerAlert?
    ensures Merged(g, Next(g, s, step))
  {
    if !g.members(s.pending[0].alert.fingerprint) {
      StrangersLeaveTheCard(g, s, step);
    } else if s.pending[0].alert.IsFiring() {
      FiringMembersMerge(g, s, step);
    } else {
      ResolvedMembersMerge(g, s, step);
    }
  }

  ghost predicate Reaches(g: Group, s: Site, steps: seq<MergeStep>, end: Site)
    decreases steps
  {
    if steps == [] then end == s
    else Can(g, s, steps[0]) && OneCardPerKey(s.tables.cards) && Reaches(g, Next(g, s, steps[0]), steps[1..], end)
  }

  lemma {:induction false} RunsMerge(g: Group, s: Site, steps: seq<MergeStep>, end: Site)
    requires Merged(g, s) && Reaches(g, s, steps, end) && g.route.strategy.PerAlert?
    ensures Merged(g, end)
    decreases steps
  {
    if steps != [] {
      StepsMerge(g, s, steps[0]);
      RunsMerge(g, Next(g, s, steps[0]), steps[1..], end);
    }
  }

  const FRESH_SITE: Site := Site(map[], [], NO_TABLES)

  // Whenever a batch has been decided on in full, the card of a merged identity is open exactly
  // when some alert of the identity fires, and an open card shows one that does.
  lemma CardsFollowTheirAlerts(g: Group, steps: seq<MergeStep>, end: Site)
    requires g.route.strategy.PerAlert? && Reaches(g, FRESH_SITE, steps, end) && end.pending == []
    ensures
      (exists card :: Holder(end.tables.cards, g.Channel(), g.Key(), card) && card.state.IsOpen())
      <==> (exists f :: FiringMember(g, end, f))
    ensures forall card :: Holder(end.tables.cards, g.Channel(), g.Key(), card) ==>
      && (card.state.IsOpen() || card.state.Resolved?)
      && (card.state.IsOpen() ==> FiringMember(g, end, card.fingerprint))
  {
    assert FRESH_SITE.rows == map[] && FRESH_SITE.tables.cards == map[];
    RunsMerge(g, FRESH_SITE, steps, end);
  }
}
