/** Alerts, their stored rows, and what an arriving alert does to its row. */
module Alerts {
  import opened Wrappers
  import opened States
  import opened Labels
  import opened DedupeKeys

  datatype Severity = Info | Warning | Critical {
    function Rank(): nat {
      match this
      case Info => 0
      case Warning => 1
      case Critical => 2
    }

    predicate AtLeast(floor: Severity) {
      Rank() >= floor.Rank()
    }
  }

  datatype AlertStatus = Firing | Resolved

  datatype AmState = Active | Suppressed | Unprocessed

  // `severity` is the value parsed out of the `severity` label.
  datatype Alert = Alert(
    fingerprint: Fingerprint,
    labels: Labels,
    severity: Severity,
    annotations: map<string, string>,
    startsAt: int,
    endsAt: Option<int>,
    generatorUrl: Option<string>,
    status: AlertStatus,
    amState: AmState,
    silencedBy: seq<string>,
    inhibitedBy: seq<string>,
    groupKey: Option<GroupKey>)
  {
    predicate IsFiring() {
      status.Firing?
    }
  }

  datatype AlertDelta = AlertDelta(kind: EventKind, alert: Alert, flapCount: nat, observedAt: int)

  datatype AlertRecord = AlertRecord(
    alert: Alert,
    firstSeenAt: int,
    lastSeenAt: int,
    resolvedAt: Option<int>,
    flapCount: nat)

  datatype Transition = Transition(kind: EventKind, flapCount: nat, firstSeenAt: int, resolvedAt: Option<int>)

  const U32_MAX: nat := 0xffff_ffff

  function SaturatingIncrement(n: nat): nat {
    if n < U32_MAX then n + 1 else U32_MAX
  }

  function ResolvedAt(incoming: Alert, receivedAt: int): Option<int> {
    if incoming.IsFiring() then None else Some(incoming.endsAt.UnwrapOr(receivedAt))
  }

  predicate Regrouped(previous: AlertRecord, receivedAt: int, regroup: int) {
    previous.resolvedAt.Some? && receivedAt - previous.resolvedAt.value > regroup
  }

  // Everything a card would show, and nothing else.
  predicate IsMaterialChange(previous: Alert, incoming: Alert) {
    || previous.labels != incoming.labels
    || previous.annotations != incoming.annotations
    || previous.startsAt != incoming.startsAt
    || previous.endsAt != incoming.endsAt
    || previous.generatorUrl != incoming.generatorUrl
    || previous.amState != incoming.amState
    || previous.silencedBy != incoming.silencedBy
    || previous.inhibitedBy != incoming.inhibitedBy
    || previous.groupKey != incoming.groupKey
  }

  function Classify(previous: Option<AlertRecord>, incoming: Alert, receivedAt: int, regroup: int): Option<Transition> {
    match previous
    case None =>
      Some(Transition(
             if incoming.IsFiring() then EventKind.Fired else EventKind.Resolved,
             0, receivedAt, ResolvedAt(incoming, receivedAt)))
    case Some(row) =>
      var base := Transition(EventKind.Updated, row.flapCount, row.firstSeenAt, row.resolvedAt);
      if row.alert.status != incoming.status then
        if !incoming.IsFiring() then
          Some(base.(kind := EventKind.Resolved, resolvedAt := ResolvedAt(incoming, receivedAt)))
        else if Regrouped(row, receivedAt, regroup) then
          Some(base.(kind := EventKind.Fired, flapCount := 0, resolvedAt := None))
        else
          Some(base.(kind := EventKind.Fired, flapCount := SaturatingIncrement(row.flapCount), resolvedAt := None))
      else if row.alert.amState.Suppressed? != incoming.amState.Suppressed? then
        Some(base.(kind := if incoming.amState.Suppressed? then EventKind.Silenced else EventKind.Unsilenced))
      else if IsMaterialChange(row.alert, incoming) then
        Some(base)
      else
        None
  }

  // A delivery that names no group keeps the group already known.
  function CarryOver(previous: Option<AlertRecord>, incoming: Alert): Alert {
    if incoming.groupKey.None? && previous.Some? then incoming.(groupKey := previous.value.alert.groupKey)
    else incoming
  }

  type AlertTable = map<Fingerprint, AlertRecord>

  datatype IngestBatch = IngestBatch(groupKey: Option<GroupKey>, alerts: seq<Alert>, receivedAt: int)

  function Find(rows: AlertTable, fingerprint: Fingerprint): Option<AlertRecord> {
    if fingerprint in rows then Some(rows[fingerprint]) else None
  }

  // The alert as the batch delivers it: with the batch's group, or the one already stored.
  function Arriving(rows: AlertTable, group: Option<GroupKey>, incoming: Alert): Alert {
    var named := if incoming.groupKey.None? then incoming.(groupKey := group) else incoming;
    CarryOver(Find(rows, named.fingerprint), named)
  }

  function IngestOne(rows: AlertTable, group: Option<GroupKey>, incoming: Alert, at: int, regroup: int)
    : (AlertTable, Option<AlertDelta>)
  {
    var alert := Arriving(rows, group, incoming);
    var previous := Find(rows, alert.fingerprint);
    match Classify(previous, alert, at, regroup)
    case None =>
      (if previous.Some? then rows[alert.fingerprint := previous.value.(lastSeenAt := at)] else rows, None)
    case Some(t) =>
      (rows[alert.fingerprint := AlertRecord(alert, t.firstSeenAt, at, t.resolvedAt, t.flapCount)],
       Some(AlertDelta(t.kind, alert, t.flapCount, at)))
  }

  function Ingest(rows: AlertTable, batch: IngestBatch, regroup: int): (r: (AlertTable, seq<AlertDelta>))
    decreases |batch.alerts|
  {
    if batch.alerts == [] then (rows, [])
    else
      var last := |batch.alerts| - 1;
      var (before, deltas) := Ingest(rows, batch.(alerts := batch.alerts[..last]), regroup);
      var (after, delta) := IngestOne(before, batch.groupKey, batch.alerts[last], batch.receivedAt, regroup);
      (after, if delta.Some? then deltas + [delta.value] else deltas)
  }

  // The store's alert table, written by one transaction per batch.
  class AlertStore {
    var rows: AlertTable
    const regroup: int

    constructor (regroup: int)
      ensures rows == map[] && this.regroup == regroup
    {
      rows := map[];
      this.regroup := regroup;
    }

    method IngestBatch(batch: IngestBatch) returns (deltas: seq<AlertDelta>, duplicates: nat)
      modifies this
      ensures (rows, deltas) == Ingest(old(rows), batch, regroup)
      ensures |deltas| + duplicates == |batch.alerts|
    {
      deltas, duplicates := [], 0;
      for i := 0 to |batch.alerts|
        invariant (rows, deltas) == Ingest(old(rows), batch.(alerts := batch.alerts[..i]), regroup)
        invariant |deltas| + duplicates == i
      {
        assert batch.alerts[..i + 1][..i] == batch.alerts[..i];
        var alert := batch.alerts[i];
        if alert.groupKey.None? {
          alert := alert.(groupKey := batch.groupKey);
        }
        var previous := Find(rows, alert.fingerprint);
        alert := CarryOver(previous, alert);
        var transition := Classify(previous, alert, batch.receivedAt, regroup);
        if transition.None? {
          if previous.Some? {
            rows := rows[alert.fingerprint := previous.value.(lastSeenAt := batch.receivedAt)];
          }
          duplicates := duplicates + 1;
        } else {
          var t := transition.value;
          rows := rows[alert.fingerprint :=
            AlertRecord(alert, t.firstSeenAt, batch.receivedAt, t.resolvedAt, t.flapCount)];
          deltas := deltas + [AlertDelta(t.kind, alert, t.flapCount, batch.receivedAt)];
        }
      }
      assert batch.alerts[..|batch.alerts|] == batch.alerts;
    }
  }

  // Rows are filed under their own fingerprint, and record a resolution exactly while resolved.
  ghost predicate RowsValid(rows: AlertTable) {
    forall f :: f in rows ==>
      && rows[f].alert.fingerprint == f
      && (rows[f].resolvedAt.Some? <==> rows[f].alert.status.Resolved?)
  }

  // What one arrival does: only its own row moves, and the row ends up as the delivery has it.
  lemma OneArrival(rows: AlertTable, group: Option<GroupKey>, incoming: Alert, at: int, regroup: int)
    requires RowsValid(rows)
    ensures
      var (after, delta) := IngestOne(rows, group, incoming, at, regroup);
      var f := incoming.fingerprint;
      && RowsValid(after)
      && f in after && after == rows[f := after[f]]
      && (delta.Some? ==> delta.value.alert == after[f].alert && KindAgrees(delta.value.kind, delta.value.alert))
      && (delta.None? ==> f in rows && after[f] == rows[f].(lastSeenAt := at))
      && (f in rows && rows[f].alert.groupKey.Some? ==> after[f].alert.groupKey.Some?)
      && (f in rows && rows[f].alert.groupKey.Some? && group.None? && incoming.groupKey.None?
          ==> after[f].alert.groupKey == rows[f].alert.groupKey)
  {
  }

  lemma OneArrivalSettles(rows: AlertTable, group: Option<GroupKey>, incoming: Alert, at: int, regroup: int)
    requires RowsValid(rows)
    ensures Settled(IngestOne(rows, group, incoming, at, regroup).0, group, incoming)
  {
  }

  function Prefix(batch: IngestBatch): IngestBatch
    requires batch.alerts != []
  {
    batch.(alerts := batch.alerts[..|batch.alerts| - 1])
  }

  lemma {:induction false} IngestKeepsRowsValid(rows: AlertTable, batch: IngestBatch, regroup: int)
    requires RowsValid(rows)
    ensures RowsValid(Ingest(rows, batch, regroup).0)
    decreases |batch.alerts|
  {
    if batch.alerts != [] {
      IngestKeepsRowsValid(rows, Prefix(batch), regroup);
      var last := batch.alerts[|batch.alerts| - 1];
      OneArrival(Ingest(rows, Prefix(batch), regroup).0, batch.groupKey, last, batch.receivedAt, regroup);
    }
  }

  // A known group is never lost: whatever arrives, a row that names a group goes on naming one,
  // and a delivery that names none leaves it as it was.
  lemma {:induction false} GroupKeySurvives(rows: AlertTable, batch: IngestBatch, regroup: int, f: Fingerprint)
    requires RowsValid(rows) && f in rows && rows[f].alert.groupKey.Some?
    ensures
      var after := Ingest(rows, batch, regroup).0;
      && f in after
      && after[f].alert.groupKey.Some?
      && (batch.groupKey.None? && (forall a :: a in batch.alerts && a.fingerprint == f ==> a.groupKey.None?)
          ==> after[f].alert.groupKey == rows[f].alert.groupKey)
    decreases |batch.alerts|
  {
    if batch.alerts != [] {
      var last := batch.alerts[|batch.alerts| - 1];
      IngestKeepsRowsValid(rows, Prefix(batch), regroup);
      GroupKeySurvives(rows, Prefix(batch), regroup, f);
      assert last in batch.alerts;
      OneArrival(Ingest(rows, Prefix(batch), regroup).0, batch.groupKey, last, batch.receivedAt, regroup);
    }
  }

  ghost predicate DistinctAlerts(alerts: seq<Alert>) {
    forall i, j :: 0 <= i < j < |alerts| ==> alerts[i].fingerprint != alerts[j].fingerprint
  }

  // What a row must look like for a delivery to change nothing.
  ghost predicate Settled(rows: AlertTable, group: Option<GroupKey>, incoming: Alert) {
    && incoming.fingerprint in rows
    && var arrived := Arriving(rows, group, incoming);
    && rows[incoming.fingerprint].alert.status == arrived.status
    && !IsMaterialChange(rows[incoming.fingerprint].alert, arrived)
  }

  lemma SettledSurvives(
    rows: AlertTable, after: AlertTable, group: Option<GroupKey>, incoming: Alert, moved: Fingerprint)
    requires Settled(rows, group, incoming) && incoming.fingerprint != moved
    requires moved in after && after == rows[moved := after[moved]]
    ensures Settled(after, group, incoming)
  {
    assert Find(after, incoming.fingerprint) == Find(rows, incoming.fingerprint);
  }

  lemma {:induction false} IngestSettles(rows: AlertTable, batch: IngestBatch, regroup: int)
    requires RowsValid(rows) && DistinctAlerts(batch.alerts)
    ensures
      var after := Ingest(rows, batch, regroup).0;
      forall i :: 0 <= i < |batch.alerts| ==> Settled(after, batch.groupKey, batch.alerts[i])
    decreases |batch.alerts|
  {
    if batch.alerts != [] {
      var last := |batch.alerts| - 1;
      var prefix := Prefix(batch);
      IngestSettles(rows, prefix, regroup);
      IngestKeepsRowsValid(rows, prefix, regroup);
      var before := Ingest(rows, prefix, regroup).0;
      OneArrival(before, batch.groupKey, batch.alerts[last], batch.receivedAt, regroup);
      OneArrivalSettles(before, batch.groupKey, batch.alerts[last], batch.receivedAt, regroup);
      forall i | 0 <= i < last ensures Settled(Ingest(rows, batch, regroup).0, batch.groupKey, batch.alerts[i]) {
        assert prefix.alerts[i] == batch.alerts[i];
        SettledSurvives(before, Ingest(rows, batch, regroup).0, batch.groupKey, batch.alerts[i], batch.alerts[last].fingerprint);
      }
    }
  }

  lemma {:induction false} SettledYieldsNothing(rows: AlertTable, batch: IngestBatch, regroup: int)
    requires RowsValid(rows)
    requires forall i :: 0 <= i < |batch.alerts| ==> Settled(rows, batch.groupKey, batch.alerts[i])
    ensures
      var (after, deltas) := Ingest(rows, batch, regroup);
      && deltas == []
      && after.Keys == rows.Keys
      && (forall f :: f in rows ==> after[f].(lastSeenAt := rows[f].lastSeenAt) == rows[f])
    decreases |batch.alerts|
  {
    if batch.alerts != [] {
      var last := |batch.alerts| - 1;
      var prefix := Prefix(batch);
      forall i | 0 <= i < |prefix.alerts| ensures Settled(rows, batch.groupKey, prefix.alerts[i]) {
        assert prefix.alerts[i] == batch.alerts[i];
      }
      SettledYieldsNothing(rows, prefix, regroup);
      var before := Ingest(rows, prefix, regroup).0;
      assert Settled(rows, batch.groupKey, batch.alerts[last]);
      assert before[batch.alerts[last].fingerprint].alert == rows[batch.alerts[last].fingerprint].alert;
    }
  }

  // Redelivering a batch of distinct alerts is accepted without a single change, however much
  // later it arrives; only the time of the last sighting moves.
  lemma RedeliveryChangesNothing(rows: AlertTable, batch: IngestBatch, again: int, regroup: int)
    requires RowsValid(rows) && DistinctAlerts(batch.alerts)
    ensures
      var once := Ingest(rows, batch, regroup).0;
      var (twice, deltas) := Ingest(once, batch.(receivedAt := again), regroup);
      && deltas == []
      && twice.Keys == once.Keys
      && (forall f :: f in once ==> twice[f].(lastSeenAt := once[f].lastSeenAt) == once[f])
  {
    IngestSettles(rows, batch, regroup);
    IngestKeepsRowsValid(rows, batch, regroup);
    SettledYieldsNothing(Ingest(rows, batch, regroup).0, batch.(receivedAt := again), regroup);
  }

  // The kind of a change always agrees with the status of the alert it carries.
  predicate KindAgrees(kind: EventKind, alert: Alert) {
    && (kind.Fired? ==> alert.IsFiring())
    && (kind.Resolved? ==> !alert.IsFiring())
  }

  // A row nobody reported a change for is as it was.
  ghost predicate Untouched(rows: AlertTable, after: AlertTable, f: Fingerprint) {
    (f in after <==> f in rows) && (f in after ==> after[f].alert == rows[f].alert)
  }

  ghost predicate Reported(deltas: seq<AlertDelta>, f: Fingerprint) {
    exists i :: 0 <= i < |deltas| && deltas[i].alert.fingerprint == f
  }

  function LastReport(deltas: seq<AlertDelta>, f: Fingerprint): (d: Option<AlertDelta>)
    ensures d.Some? <==> Reported(deltas, f)
    ensures d.Some? ==> d.value in deltas && d.value.alert.fingerprint == f
  {
    if deltas == [] then None
    else if deltas[|deltas| - 1].alert.fingerprint == f then Some(deltas[|deltas| - 1])
    else LastReport(deltas[..|deltas| - 1], f)
  }

  lemma IngestUnfolds(rows: AlertTable, batch: IngestBatch, regroup: int)
    requires batch.alerts != []
    ensures
      var (before, some) := Ingest(rows, Prefix(batch), regroup);
      var (after, delta) :=
        IngestOne(before, batch.groupKey, batch.alerts[|batch.alerts| - 1], batch.receivedAt, regroup);
      Ingest(rows, batch, regroup) == (after, if delta.Some? then some + [delta.value] else some)
  {
  }

  // The last accepted change to an alert carries the alert as its row now holds it, and a row
  // with no accepted change is as it was.
  lemma {:induction false} DeltasCarryTheRows(rows: AlertTable, batch: IngestBatch, regroup: int, f: Fingerprint)
    requires RowsValid(rows)
    ensures
      var (after, deltas) := Ingest(rows, batch, regroup);
      match LastReport(deltas, f)
      case None => Untouched(rows, after, f)
      case Some(d) => f in after && after[f].alert == d.alert
    decreases |batch.alerts|
  {
    if batch.alerts != [] {
      var last := batch.alerts[|batch.alerts| - 1];
      DeltasCarryTheRows(rows, Prefix(batch), regroup, f);
      IngestKeepsRowsValid(rows, Prefix(batch), regroup);
      IngestUnfolds(rows, batch, regroup);
      var (before, some) := Ingest(rows, Prefix(batch), regroup);
      OneArrival(before, batch.groupKey, last, batch.receivedAt, regroup);
      var (after, delta) := IngestOne(before, batch.groupKey, last, batch.receivedAt, regroup);
      if delta.Some? {
        assert (some + [delta.value])[..|some|] == some;
      }
    }
  }

  lemma {:induction false} DeltaKindsAgree(rows: AlertTable, batch: IngestBatch, regroup: int)
    requires RowsValid(rows)
    ensures
      var deltas := Ingest(rows, batch, regroup).1;
      forall i :: 0 <= i < |deltas| ==> KindAgrees(deltas[i].kind, deltas[i].alert)
    decreases |batch.alerts|
  {
    if batch.alerts != [] {
      DeltaKindsAgree(rows, Prefix(batch), regroup);
      IngestKeepsRowsValid(rows, Prefix(batch), regroup);
      IngestUnfolds(rows, batch, regroup);
      OneArrival(Ingest(rows, Prefix(batch), regroup).0, batch.groupKey,
                 batch.alerts[|batch.alerts| - 1], batch.receivedAt, regroup);
    }
  }
}
