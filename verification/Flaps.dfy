/** What the flap count on an alert's row says about every delivery the row has seen. */
module Flaps {
  import opened Wrappers
  import opened Labels
  import opened DedupeKeys
  import opened Alerts

  datatype Delivery = Delivery(alert: Alert, at: int)

  // One alert's row after a run of deliveries of it.
  function RowAfter(history: seq<Delivery>, regroup: int): Option<AlertRecord> {
    if history == [] then None
    else
      var last := history[|history| - 1];
      var previous := RowAfter(history[..|history| - 1], regroup);
      var alert := CarryOver(previous, last.alert);
      match Classify(previous, alert, last.at, regroup)
      case None => if previous.Some? then Some(previous.value.(lastSeenAt := last.at)) else None
      case Some(t) => Some(AlertRecord(alert, t.firstSeenAt, last.at, t.resolvedAt, t.flapCount))
  }

  predicate Fires(history: seq<Delivery>, i: nat)
    requires i < |history|
  {
    history[i].alert.IsFiring()
  }

  predicate Refires(history: seq<Delivery>, i: nat)
    requires i < |history|
  {
    i > 0 && Fires(history, i) && !Fires(history, i - 1)
  }

  // When the resolved stretch that delivery `i` belongs to began.
  function StretchStart(history: seq<Delivery>, i: nat): (start: nat)
    requires i < |history|
    ensures start <= i
  {
    if i == 0 || Fires(history, i - 1) then i else StretchStart(history, i - 1)
  }

  function ResolvedSince(history: seq<Delivery>, i: nat): int
    requires i < |history|
  {
    var first := history[StretchStart(history, i)];
    first.alert.endsAt.UnwrapOr(first.at)
  }

  // A re-fire after a quiet gap longer than the regroup window.
  predicate RefiresAfterQuiet(history: seq<Delivery>, i: nat, regroup: int)
    requires i < |history|
  {
    Refires(history, i) && history[i].at - ResolvedSince(history, i - 1) > regroup
  }

  ghost function RefiresBetween(history: seq<Delivery>, start: nat): set<nat> {
    set i: nat | start < i < |history| && Refires(history, i)
  }

  lemma {:induction false} StretchStartIsStable(history: seq<Delivery>, longer: seq<Delivery>, i: nat)
    requires i < |history| && history <= longer
    ensures StretchStart(history, i) == StretchStart(longer, i)
  {
    if i > 0 && !Fires(history, i - 1) {
      StretchStartIsStable(history, longer, i - 1);
    }
  }

  // The row keeps the status of the last delivery and, while resolved, when its stretch began.
  lemma {:induction false} RowFollowsHistory(history: seq<Delivery>, regroup: int)
    requires history != []
    ensures
      var row := RowAfter(history, regroup);
      var last := |history| - 1;
      && row.Some?
      && row.value.alert.status == history[last].alert.status
      && row.value.resolvedAt == if Fires(history, last) then None else Some(ResolvedSince(history, last))
    decreases |history|
  {
    var last := |history| - 1;
    if last > 0 {
      RowFollowsHistory(history[..last], regroup);
      StretchStartIsStable(history[..last], history, last - 1);
      assert history[..last][StretchStart(history, last - 1)] == history[StretchStart(history, last - 1)];
    }
  }

  lemma OneMoreDelivery(history: seq<Delivery>, regroup: int)
    requires |history| > 1
    ensures
      var last := |history| - 1;
      var (before, after) := (RowAfter(history[..last], regroup), RowAfter(history, regroup));
      && before.Some? && after.Some?
      && after.value.flapCount ==
         if RefiresAfterQuiet(history, last, regroup) then 0
         else if Refires(history, last) then SaturatingIncrement(before.value.flapCount)
         else before.value.flapCount
  {
    var last := |history| - 1;
    var earlier := history[..last];
    RowFollowsHistory(earlier, regroup);
    StretchStartIsStable(earlier, history, last - 1);
    assert earlier[StretchStart(history, last - 1)] == history[StretchStart(history, last - 1)];
  }

  lemma EarlierRefiresStand(history: seq<Delivery>, regroup: int, i: nat)
    requires i < |history| - 1
    ensures Refires(history, i) == Refires(history[..|history| - 1], i)
    ensures RefiresAfterQuiet(history, i, regroup) == RefiresAfterQuiet(history[..|history| - 1], i, regroup)
  {
    if i > 0 {
      var earlier := history[..|history| - 1];
      StretchStartIsStable(earlier, history, i - 1);
      assert earlier[StretchStart(history, i - 1)] == history[StretchStart(history, i - 1)];
    }
  }

  lemma OneMoreRefire(history: seq<Delivery>, start: nat)
    requires |history| > 1 && start < |history| - 1
    ensures
      var (before, after) := (|RefiresBetween(history[..|history| - 1], start)|, |RefiresBetween(history, start)|);
      after == if Refires(history, |history| - 1) then before + 1 else before
  {
    var last := |history| - 1;
    var before, after := RefiresBetween(history[..last], start), RefiresBetween(history, start);
    forall i: nat | i < last ensures i in after <==> i in before {
      EarlierRefiresStand(history, 0, i);
    }
    assert after == if Refires(history, last) then before + {last} else before;
  }

  // The count is the number of re-fires since the last quiet gap longer than the window, or since
  // the first sighting when there has been none, held at the 32-bit maximum.
  lemma {:induction false} FlapCountMeansRefires(history: seq<Delivery>, regroup: int) returns (start: nat)
    requires history != []
    ensures start < |history|
    ensures start == 0 || RefiresAfterQuiet(history, start, regroup)
    ensures forall i: nat :: start < i < |history| ==> !RefiresAfterQuiet(history, i, regroup)
    ensures
      var refires := |RefiresBetween(history, start)|;
      && RowAfter(history, regroup).Some?
      && RowAfter(history, regroup).value.flapCount == if refires < U32_MAX then refires else U32_MAX
    decreases |history|
  {
    var last := |history| - 1;
    if last == 0 {
      start := 0;
      assert RefiresBetween(history, 0) == {};
      assert history[..0] == [];
    } else {
      start := FlapCountMeansRefires(history[..last], regroup);
      forall i: nat | i < last
        ensures RefiresAfterQuiet(history, i, regroup) == RefiresAfterQuiet(history[..last], i, regroup)
      {
        EarlierRefiresStand(history, regroup, i);
      }
      OneMoreDelivery(history, regroup);
      OneMoreRefire(history, start);
      if RefiresAfterQuiet(history, last, regroup) {
        start := last;
        assert RefiresBetween(history, last) == {};
      }
    }
  }

  // ---- The deliveries behind a stored row

  // The alert with the group it arrived under.
  function Named(group: Option<GroupKey>, incoming: Alert): Alert {
    if incoming.groupKey.None? then incoming.(groupKey := group) else incoming
  }

  function Filed(group: Option<GroupKey>, incoming: Alert, at: int, f: Fingerprint): seq<Delivery> {
    if incoming.fingerprint == f then [Delivery(Named(group, incoming), at)] else []
  }

  // The deliveries of one alert in a batch.
  function DeliveriesOf(batch: IngestBatch, f: Fingerprint): seq<Delivery>
    decreases |batch.alerts|
  {
    if batch.alerts == [] then []
    else
      DeliveriesOf(Prefix(batch), f) + Filed(batch.groupKey, batch.alerts[|batch.alerts| - 1], batch.receivedAt, f)
  }

  function HistoryOf(batches: seq<IngestBatch>, f: Fingerprint): seq<Delivery> {
    if batches == [] then []
    else HistoryOf(batches[..|batches| - 1], f) + DeliveriesOf(batches[|batches| - 1], f)
  }

  function Ingested(batches: seq<IngestBatch>, regroup: int): AlertTable {
    if batches == [] then map[]
    else Ingest(Ingested(batches[..|batches| - 1], regroup), batches[|batches| - 1], regroup).0
  }

  lemma OneMoreDeliveryFiled(
    rows: AlertTable, history: seq<Delivery>, group: Option<GroupKey>, incoming: Alert, at: int, regroup: int)
    requires Find(rows, incoming.fingerprint) == RowAfter(history, regroup)
    ensures
      Find(IngestOne(rows, group, incoming, at, regroup).0, incoming.fingerprint)
      == RowAfter(history + [Delivery(Named(group, incoming), at)], regroup)
  {
    assert (history + [Delivery(Named(group, incoming), at)])[..|history|] == history;
  }

  lemma OneArrivalFiled(
    rows: AlertTable, history: seq<Delivery>, group: Option<GroupKey>, incoming: Alert, at: int, regroup: int, f: Fingerprint)
    requires Find(rows, f) == RowAfter(history, regroup)
    ensures Find(IngestOne(rows, group, incoming, at, regroup).0, f) == RowAfter(history + Filed(group, incoming, at, f), regroup)
  {
    if incoming.fingerprint == f {
      OneMoreDeliveryFiled(rows, history, group, incoming, at, regroup);
    } else {
      assert history + Filed(group, incoming, at, f) == history;
    }
  }

  lemma LastArrivalOf(rows: AlertTable, batch: IngestBatch, f: Fingerprint, history: seq<Delivery>, regroup: int)
    requires batch.alerts != []
    ensures
      var last := batch.alerts[|batch.alerts| - 1];
      && Ingest(rows, batch, regroup).0
         == IngestOne(Ingest(rows, Prefix(batch), regroup).0, batch.groupKey, last, batch.receivedAt, regroup).0
      && history + DeliveriesOf(batch, f)
         == history + DeliveriesOf(Prefix(batch), f) + Filed(batch.groupKey, last, batch.receivedAt, f)
  {
    IngestUnfolds(rows, batch, regroup);
  }

  lemma {:induction false} BatchesFileDeliveries(
    rows: AlertTable, batch: IngestBatch, f: Fingerprint, history: seq<Delivery>, regroup: int)
    requires Find(rows, f) == RowAfter(history, regroup)
    ensures Find(Ingest(rows, batch, regroup).0, f) == RowAfter(history + DeliveriesOf(batch, f), regroup)
    decreases |batch.alerts|
  {
    if batch.alerts == [] {
      assert history + DeliveriesOf(batch, f) == history;
    } else {
      BatchesFileDeliveries(rows, Prefix(batch), f, history, regroup);
      LastArrivalOf(rows, batch, f, history, regroup);
      OneArrivalFiled(
        Ingest(rows, Prefix(batch), regroup).0, history + DeliveriesOf(Prefix(batch), f), batch.groupKey,
        batch.alerts[|batch.alerts| - 1], batch.receivedAt, regroup, f);
    }
  }

  // Whatever batches arrived, and whatever else was in them, an alert's stored row is the one its own
  // deliveries leave.
  lemma {:induction false} RowsAreTheirHistory(batches: seq<IngestBatch>, f: Fingerprint, regroup: int)
    ensures Find(Ingested(batches, regroup), f) == RowAfter(HistoryOf(batches, f), regroup)
  {
    if batches != [] {
      var n := |batches| - 1;
      RowsAreTheirHistory(batches[..n], f, regroup);
      BatchesFileDeliveries(Ingested(batches[..n], regroup), batches[n], f, HistoryOf(batches[..n], f), regroup);
    }
  }

  // So a stored flap count is the number of re-fires since the last long quiet gap.
  lemma StoredCountMeansRefires(batches: seq<IngestBatch>, f: Fingerprint, regroup: int) returns (start: nat)
    requires f in Ingested(batches, regroup)
    ensures
      var history := HistoryOf(batches, f);
      && start < |history|
      && (start == 0 || RefiresAfterQuiet(history, start, regroup))
      && (forall i: nat :: start < i < |history| ==> !RefiresAfterQuiet(history, i, regroup))
      && var refires := |RefiresBetween(history, start)|;
      Ingested(batches, regroup)[f].flapCount == if refires < U32_MAX then refires else U32_MAX
  {
    RowsAreTheirHistory(batches, f, regroup);
    start := FlapCountMeansRefires(HistoryOf(batches, f), regroup);
  }

  // ---- One resolution and one fire

  // The count after a resolution at `t1` and a fire at `t2` is what it was before.
  predicate CountStays(count: nat, down: Alert, t1: int, t2: int, regroup: int) {
    if t2 - down.endsAt.UnwrapOr(t1) > regroup then count == 0 else count == U32_MAX
  }

  lemma ResolutionKeepsTheCount(rows: AlertTable, group: Option<GroupKey>, down: Alert, at: int, regroup: int)
    requires RowsValid(rows) && down.fingerprint in rows && rows[down.fingerprint].alert.IsFiring() && !down.IsFiring()
    ensures
      var (after, delta) := IngestOne(rows, group, down, at, regroup);
      && delta.Some? && delta.value.kind.Resolved? && down.fingerprint in after
      && after[down.fingerprint].flapCount == rows[down.fingerprint].flapCount
      && after[down.fingerprint].alert.status.Resolved?
      && after[down.fingerprint].resolvedAt == Some(down.endsAt.UnwrapOr(at))
  {
  }

  lemma FireMovesTheCount(rows: AlertTable, group: Option<GroupKey>, up: Alert, at: int, regroup: int)
    requires up.fingerprint in rows && rows[up.fingerprint].alert.status.Resolved? && up.IsFiring()
    requires rows[up.fingerprint].resolvedAt.Some?
    ensures
      var (after, delta) := IngestOne(rows, group, up, at, regroup);
      && delta.Some? && delta.value.kind.Fired? && up.fingerprint in after
      && after[up.fingerprint].flapCount ==
         if at - rows[up.fingerprint].resolvedAt.value > regroup then 0
         else SaturatingIncrement(rows[up.fingerprint].flapCount)
  {
  }

  lemma CountsStayWhen(count: nat, down: Alert, t1: int, t2: int, regroup: int)
    ensures
      (if t2 - down.endsAt.UnwrapOr(t1) > regroup then 0 else SaturatingIncrement(count)) == count
      <==> CountStays(count, down, t1, t2, regroup)
  {
  }

  // A firing alert that resolves and fires again changes its flap count, unless it comes back after
  // a long gap with a count of none, or the count cannot go up.
  lemma RefiresMoveTheCount(
    rows: AlertTable, downGroup: Option<GroupKey>, upGroup: Option<GroupKey>, down: Alert, up: Alert, t1: int, t2: int,
    regroup: int)
    requires RowsValid(rows) && down.fingerprint in rows && rows[down.fingerprint].alert.IsFiring()
    requires !down.IsFiring() && up.IsFiring() && up.fingerprint == down.fingerprint
    ensures
      var f := down.fingerprint;
      var (resolved, fell) := IngestOne(rows, downGroup, down, t1, regroup);
      var (refired, rose) := IngestOne(resolved, upGroup, up, t2, regroup);
      && fell.Some? && fell.value.kind.Resolved? && rose.Some? && rose.value.kind.Fired?
      && f in refired
      && (refired[f].flapCount == rows[f].flapCount <==> CountStays(rows[f].flapCount, down, t1, t2, regroup))
      && refired[f].flapCount ==
         if t2 - down.endsAt.UnwrapOr(t1) > regroup then 0 else SaturatingIncrement(rows[f].flapCount)
  {
    ResolutionKeepsTheCount(rows, downGroup, down, t1, regroup);
    FireMovesTheCount(IngestOne(rows, downGroup, down, t1, regroup).0, upGroup, up, t2, regroup);
    CountsStayWhen(rows[down.fingerprint].flapCount, down, t1, t2, regroup);
  }
}
