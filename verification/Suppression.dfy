/** Which change each arrival is reported as, and a silence from its delivery to the card. */
module Suppression {
  import opened Wrappers
  import opened States
  import opened Labels
  import opened DedupeKeys
  import opened Alerts
  import opened Routing
  import opened Effects
  import opened Decide
  import opened CardFacts

  // ---- One arrival

  // The row an arrival meets, and the alert it leaves there.
  function RowMet(rows: AlertTable, incoming: Alert): Option<AlertRecord> {
    Find(rows, incoming.fingerprint)
  }

  predicate WasFiring(row: Option<AlertRecord>) {
    row.Some? && row.value.alert.IsFiring()
  }

  predicate WasSuppressed(row: Option<AlertRecord>) {
    row.Some? && row.value.alert.amState.Suppressed?
  }

  // Each kind of report, by what the row said and what the delivery says.
  ghost predicate RightlyReported(row: Option<AlertRecord>, delta: AlertDelta) {
    var alert := delta.alert;
    var crossed := row.None? || row.value.alert.IsFiring() != alert.IsFiring();
    match delta.kind
    case Fired => crossed && alert.IsFiring()
    case Resolved => crossed && !alert.IsFiring()
    case Silenced => !crossed && alert.amState.Suppressed? && !WasSuppressed(row)
    case Unsilenced => !crossed && !alert.amState.Suppressed? && WasSuppressed(row)
    case Updated => !crossed && alert.amState.Suppressed? == WasSuppressed(row) && IsMaterialChange(row.value.alert, alert)
  }

  // An arrival is reported as what it is, and goes unreported exactly when the row says it already.
  lemma ArrivalsAreRightlyReported(rows: AlertTable, group: Option<GroupKey>, incoming: Alert, at: int, regroup: int)
    ensures
      var row := RowMet(rows, incoming);
      var arrived := Arriving(rows, group, incoming);
      var delta := IngestOne(rows, group, incoming, at, regroup).1;
      && (delta.Some? ==> delta.value.alert == arrived && RightlyReported(row, delta.value))
      && (delta.None? <==>
            && row.Some? && row.value.alert.IsFiring() == incoming.IsFiring()
            && row.value.alert.amState.Suppressed? == incoming.amState.Suppressed?
            && !IsMaterialChange(row.value.alert, arrived))
  {
  }

  // The group an arriving alert is filed under: its own, or else the batch's, or else the one on record.
  function FirstNamed(own: Option<GroupKey>, batch: Option<GroupKey>, stored: Option<GroupKey>): Option<GroupKey> {
    if own.Some? then own else if batch.Some? then batch else stored
  }

  // What arrives is stored whole, with the group it is filed under and the times it was seen, and goes
  // unreported only when nothing about it is new.
  lemma ArrivalsAreStored(rows: AlertTable, group: Option<GroupKey>, incoming: Alert, at: int, regroup: int)
    requires RowsValid(rows)
    ensures
      var f, row := incoming.fingerprint, RowMet(rows, incoming);
      var arrived := incoming.(groupKey := FirstNamed(incoming.groupKey, group, if row.Some? then row.value.alert.groupKey else None));
      var (after, delta) := IngestOne(rows, group, incoming, at, regroup);
      && f in after && after[f].lastSeenAt == at
      && after[f].firstSeenAt == (if row.Some? then row.value.firstSeenAt else at)
      && (delta.None? <==> row.Some? && row.value.alert == arrived.(severity := row.value.alert.severity))
      && (delta.Some? ==>
            && after[f].alert == arrived == delta.value.alert
            && delta.value.observedAt == at && delta.value.flapCount == after[f].flapCount)
  {
  }

  // ---- Batches

  // The table as the alert at `k` finds it.
  function TableAt(rows: AlertTable, batch: IngestBatch, regroup: int, k: nat): AlertTable
    requires k <= |batch.alerts|
  {
    Ingest(rows, batch.(alerts := batch.alerts[..k]), regroup).0
  }

  function ReportAt(rows: AlertTable, batch: IngestBatch, regroup: int, k: nat): Option<AlertDelta>
    requires k < |batch.alerts|
  {
    IngestOne(TableAt(rows, batch, regroup, k), batch.groupKey, batch.alerts[k], batch.receivedAt, regroup).1
  }

  ghost predicate ReportedFor(rows: AlertTable, batch: IngestBatch, regroup: int, k: nat, delta: AlertDelta) {
    k < |batch.alerts| && ReportAt(rows, batch, regroup, k) == Some(delta)
  }

  // Every report of a batch is for one of its alerts, and every alert with something to report is in it.
  lemma {:induction false} ReportsAreForArrivals(rows: AlertTable, batch: IngestBatch, regroup: int)
    ensures forall delta :: delta in Ingest(rows, batch, regroup).1 <==>
      exists k: nat :: ReportedFor(rows, batch, regroup, k, delta)
    decreases |batch.alerts|
  {
    if batch.alerts != [] {
      var prefix, last := Prefix(batch), |batch.alerts| - 1;
      ReportsAreForArrivals(rows, prefix, regroup);
      IngestUnfolds(rows, batch, regroup);
      assert batch.(alerts := batch.alerts[..last]) == prefix;
      forall k: nat, delta
        ensures ReportedFor(rows, batch, regroup, k, delta) <==>
          ReportedFor(rows, prefix, regroup, k, delta) || (k == last && ReportAt(rows, batch, regroup, last) == Some(delta))
      {
        if k < last {
          assert batch.alerts[..k] == prefix.alerts[..k];
        }
      }
      assert ReportAt(rows, batch, regroup, last).Some? ==>
        ReportedFor(rows, batch, regroup, last, ReportAt(rows, batch, regroup, last).value);
    }
  }

  // Over any table and batch, whatever is reported is rightly reported of the row as the arrival met it.
  lemma BatchesAreRightlyReported(rows: AlertTable, batch: IngestBatch, regroup: int, delta: AlertDelta) returns (k: nat)
    requires delta in Ingest(rows, batch, regroup).1
    ensures k < |batch.alerts|
    ensures RightlyReported(RowMet(TableAt(rows, batch, regroup, k), batch.alerts[k]), delta)
    ensures delta.alert.fingerprint == batch.alerts[k].fingerprint && delta.alert.amState == batch.alerts[k].amState
  {
    ReportsAreForArrivals(rows, batch, regroup);
    k :| ReportedFor(rows, batch, regroup, k, delta);
    ArrivalsAreRightlyReported(TableAt(rows, batch, regroup, k), batch.groupKey, batch.alerts[k], batch.receivedAt, regroup);
  }

  // ---- From the delivery to the card

  // An alert delivered as suppressed silences its unmuted open card exactly when it was known to fire
  // unsuppressed until then, and lifting the suppression of an alert known to be suppressed brings the card
  // back, answered if somebody holds the alert.
  lemma SuppressionReachesTheCard(
    rows: AlertTable, batch: IngestBatch, regroup: int, k: nat, route: Route, card: Notification,
    acknowledged: bool, siblings: seq<Alert>, settings: DecisionSettings, now: int)
    requires k < |batch.alerts| && ReportAt(rows, batch, regroup, k).Some? && batch.alerts[k].IsFiring()
    requires card.state.IsOpen()
    ensures
      var row := RowMet(TableAt(rows, batch, regroup, k), batch.alerts[k]);
      var delta := ReportAt(rows, batch, regroup, k).value;
      var update := UpdateFor(delta, route, card, false, acknowledged, siblings, settings, now);
      && delta in Ingest(rows, batch, regroup).1 && update.Some?
      && (!card.state.Silenced? ==>
            (Landed(card, update.value).Silenced? <==>
               batch.alerts[k].amState.Suppressed? && WasFiring(row) && !WasSuppressed(row)))
      && (card.state.Silenced? ==>
            (!Landed(card, update.value).Silenced? <==>
               !batch.alerts[k].amState.Suppressed? && WasFiring(row) && WasSuppressed(row)))
      && (card.state.Silenced? && !Landed(card, update.value).Silenced? ==>
            Landed(card, update.value) == if acknowledged then NotificationState.Acked else NotificationState.Firing)
  {
    var delta := ReportAt(rows, batch, regroup, k).value;
    ReportsAreForArrivals(rows, batch, regroup);
    assert ReportedFor(rows, batch, regroup, k, delta);
    ArrivalsAreRightlyReported(TableAt(rows, batch, regroup, k), batch.groupKey, batch.alerts[k], batch.receivedAt, regroup);
    SilencesLand(delta, route, card, acknowledged, siblings, settings, now);
  }

  lemma SilencesLand(
    delta: AlertDelta, route: Route, card: Notification, acknowledged: bool, siblings: seq<Alert>,
    settings: DecisionSettings, now: int)
    requires card.state.IsOpen() && delta.alert.IsFiring() && !delta.kind.Resolved?
    ensures
      var update := UpdateFor(delta, route, card, false, acknowledged, siblings, settings, now);
      && update.Some?
      && Landed(card, update.value)
         == if delta.kind.Silenced? then NotificationState.Silenced
            else if card.state.Silenced? && delta.kind.Unsilenced?
            then if acknowledged then NotificationState.Acked else NotificationState.Firing
            else card.state
  {
  }
}
