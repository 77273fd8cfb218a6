/** The poll that converges the rows onto what Alertmanager holds. */
module Reconciler {
  import opened Wrappers
  import opened Labels
  import opened Alerts

  const SECOND: int := 1000000

  // Poll starts are kept in whole seconds; zero stands for none yet.
  datatype Recon = Recon(rows: AlertTable, lastPoll: int, previousPoll: int)

  function Fingerprints(alerts: seq<Alert>): set<Fingerprint> {
    set alert | alert in alerts :: alert.fingerprint
  }

  // Still firing here, not in the answer, and last seen before the cutoff.
  predicate Missing(rows: AlertTable, present: set<Fingerprint>, cutoff: int, f: Fingerprint) {
    f in rows && rows[f].alert.IsFiring() && f !in present && rows[f].lastSeenAt < cutoff
  }

  // The alert as the reconciler reports it gone.
  function Gone(alert: Alert, now: int): Alert {
    alert.(status := AlertStatus.Resolved, endsAt := if alert.endsAt.Some? then alert.endsAt else Some(now))
  }

  function GoneRow(row: AlertRecord, now: int): AlertRecord {
    var gone := Gone(row.alert, now);
    row.(alert := gone, lastSeenAt := now, resolvedAt := gone.endsAt)
  }

  function ResolveMissing(rows: AlertTable, present: set<Fingerprint>, cutoff: int, now: int): AlertTable {
    map f | f in rows :: if Missing(rows, present, cutoff, f) then GoneRow(rows[f], now) else rows[f]
  }

  // One answered poll. `ingested` and `resolved` say whether the store took each of the two writes.
  function Polled(r: Recon, alerts: seq<Alert>, started: int, regroup: int, ingested: bool, resolved: bool): Recon {
    var rows := if ingested then Ingest(r.rows, IngestBatch(None, alerts, started), regroup).0 else r.rows;
    Recon(if resolved && r.previousPoll != 0
          then ResolveMissing(rows, Fingerprints(alerts), r.previousPoll * SECOND, started) else rows,
          started / SECOND, r.lastPoll)
  }

  // ---- The poll as it is written

  class Poller {
    var rows: AlertTable
    var lastPoll: int
    var previousPoll: int
    const regroup: int

    constructor (regroup: int)
      ensures Contents() == Recon(map[], 0, 0) && this.regroup == regroup
    {
      rows, lastPoll, previousPoll := map[], 0, 0;
      this.regroup := regroup;
    }

    function Contents(): Recon
      reads this
    {
      Recon(rows, lastPoll, previousPoll)
    }

    // `stored` is what the store returns for `firing_not_in`, in whatever order it finds the rows.
    method Reconcile(answer: Option<seq<Alert>>, started: int, stored: seq<Fingerprint>, ingested: bool, resolved: bool)
      returns (count: Option<nat>)
      requires RowsValid(rows)
      requires answer.Some? && resolved && previousPoll != 0 ==>
        var after := if ingested then Ingest(rows, IngestBatch(None, answer.value, started), regroup).0 else rows;
        Lists(stored, after, Fingerprints(answer.value), previousPoll * SECOND)
      modifies this
      ensures RowsValid(rows)
      ensures answer.None? ==> count == None && Contents() == old(Contents())
      ensures answer.Some? ==>
        && count == Some(|answer.value|)
        && Contents() == Polled(old(Contents()), answer.value, started, regroup, ingested, resolved)
    {
      if answer.None? {
        return None;
      }
      var alerts := answer.value;
      if ingested {
        IngestKeepsRowsValid(rows, IngestBatch(None, alerts, started), regroup);
        rows := Ingest(rows, IngestBatch(None, alerts, started), regroup).0;
      }
      if resolved && previousPoll != 0 {
        var before := rows;
        assert forall f :: f in stored ==> f in before by {
          assert forall f :: f in stored ==> Missing(before, Fingerprints(alerts), previousPoll * SECOND, f);
        }
        var gone := [];
        for i := 0 to |stored|
          invariant gone == GoneAlerts(before, stored[..i], started)
        {
          assert stored[..i + 1][..i] == stored[..i];
          gone := gone + [Gone(before[stored[i]].alert, started)];
        }
        assert stored[..|stored|] == stored;
        ResolvingIsPointwise(rows, stored, Fingerprints(alerts), previousPoll * SECOND, started, regroup);
        IngestKeepsRowsValid(rows, IngestBatch(None, gone, started), regroup);
        rows := Ingest(rows, IngestBatch(None, gone, started), regroup).0;
      }
      previousPoll, lastPoll := lastPoll, started / SECOND;
      count := Some(|alerts|);
    }
  }

  // The missing rows, each once, in any order.
  ghost predicate Lists(stored: seq<Fingerprint>, rows: AlertTable, present: set<Fingerprint>, cutoff: int) {
    && (forall i, j :: 0 <= i < j < |stored| ==> stored[i] != stored[j])
    && (forall f :: f in stored <==> Missing(rows, present, cutoff, f))
  }

  function GoneAlerts(rows: AlertTable, stored: seq<Fingerprint>, now: int): seq<Alert>
    requires forall f :: f in stored ==> f in rows
  {
    if stored == [] then []
    else GoneAlerts(rows, stored[..|stored| - 1], now) + [Gone(rows[stored[|stored| - 1]].alert, now)]
  }

  lemma GoneArrives(rows: AlertTable, f: Fingerprint, now: int, regroup: int)
    requires RowsValid(rows) && f in rows && rows[f].alert.IsFiring()
    ensures IngestOne(rows, None, Gone(rows[f].alert, now), now, regroup).0 == rows[f := GoneRow(rows[f], now)]
  {
  }

  function WithGone(rows: AlertTable, stored: seq<Fingerprint>, now: int): AlertTable {
    map f | f in rows :: if f in stored then GoneRow(rows[f], now) else rows[f]
  }

  lemma OneMoreGone(rows: AlertTable, rest: seq<Fingerprint>, last: Fingerprint, now: int)
    requires RowsValid(rows) && last in rows && last !in rest
    ensures RowsValid(WithGone(rows, rest, now))
    ensures WithGone(rows, rest, now)[last] == rows[last]
    ensures WithGone(rows, rest, now)[last := GoneRow(rows[last], now)] == WithGone(rows, rest + [last], now)
  {
  }

  lemma OneMoreGoneArrives(rows: AlertTable, rest: seq<Fingerprint>, last: Fingerprint, now: int, regroup: int)
    requires RowsValid(rows) && last in rows && last !in rest && rows[last].alert.IsFiring()
    ensures
      IngestOne(WithGone(rows, rest, now), None, Gone(rows[last].alert, now), now, regroup).0
      == WithGone(rows, rest + [last], now)
  {
    OneMoreGone(rows, rest, last, now);
    GoneArrives(WithGone(rows, rest, now), last, now, regroup);
  }

  lemma {:induction false} GoneArriveOneByOne(
    rows: AlertTable, stored: seq<Fingerprint>, now: int, regroup: int)
    requires RowsValid(rows)
    requires forall i, j :: 0 <= i < j < |stored| ==> stored[i] != stored[j]
    requires forall f :: f in stored ==> f in rows && rows[f].alert.IsFiring()
    ensures Ingest(rows, IngestBatch(None, GoneAlerts(rows, stored, now), now), regroup).0 == WithGone(rows, stored, now)
  {
    if stored == [] {
      assert WithGone(rows, stored, now) == rows;
    } else {
      var n := |stored| - 1;
      var rest, last := stored[..n], stored[n];
      GoneArriveOneByOne(rows, rest, now, regroup);
      OneMoreGoneArrives(rows, rest, last, now, regroup);
      assert stored == rest + [last];
      var batch := IngestBatch(None, GoneAlerts(rows, stored, now), now);
      assert Prefix(batch) == IngestBatch(None, GoneAlerts(rows, rest, now), now);
      IngestUnfolds(rows, batch, regroup);
    }
  }

  // Reporting the missing rows as one more batch resolves exactly those rows.
  lemma ResolvingIsPointwise(
    rows: AlertTable, stored: seq<Fingerprint>, present: set<Fingerprint>, cutoff: int, now: int, regroup: int)
    requires RowsValid(rows) && Lists(stored, rows, present, cutoff)
    ensures
      Ingest(rows, IngestBatch(None, GoneAlerts(rows, stored, now), now), regroup).0
      == ResolveMissing(rows, present, cutoff, now)
  {
    GoneArriveOneByOne(rows, stored, now, regroup);
  }

  // ---- Runs of polls and deliveries

  datatype ReconStep =
    | Delivery(batch: IngestBatch)
    | Answered(alerts: seq<Alert>, started: int, ingested: bool, resolved: bool)
    | Unanswered(at: int)
  {
    function Time(): int {
      match this
      case Delivery(batch) => batch.receivedAt
      case Answered(_, started, _, _) => started
      case Unanswered(at) => at
    }

    // The step put this alert's row down as seen.
    predicate Sees(f: Fingerprint) {
      match this
      case Delivery(batch) => exists a :: a in batch.alerts && a.fingerprint == f
      case Answered(alerts, _, ingested, _) => ingested && exists a :: a in alerts && a.fingerprint == f
      case Unanswered(_) => false
    }
  }

  const STARTED: Recon := Recon(map[], 0, 0)

  function Step(r: Recon, step: ReconStep, regroup: int): Recon {
    match step
    case Delivery(batch) => r.(rows := Ingest(r.rows, batch, regroup).0)
    case Answered(alerts, started, ingested, resolved) => Polled(r, alerts, started, regroup, ingested, resolved)
    case Unanswered(_) => r
  }

  function After(r: Recon, steps: seq<ReconStep>, regroup: int): Recon {
    if steps == [] then r else Step(After(r, steps[..|steps| - 1], regroup), steps[|steps| - 1], regroup)
  }

  // Time moves on, and never back past the first second.
  ghost predicate InOrder(steps: seq<ReconStep>) {
    && (forall i :: 0 <= i < |steps| ==> steps[i].Time() >= SECOND)
    && (forall i, j :: 0 <= i < j < |steps| ==> steps[i].Time() <= steps[j].Time())
  }

  // Where the last answered poll is, or with `back` at one the answered poll before it.
  function PollAt(steps: seq<ReconStep>, back: nat): (at: Option<nat>)
    requires back < 2
    ensures at.Some? ==> at.value < |steps| && steps[at.value].Answered?
    ensures back == 0 ==> forall k :: (if at.Some? then at.value + 1 else 0) <= k < |steps| ==> !steps[k].Answered?
  {
    if steps == [] then None
    else
      var n := |steps| - 1;
      if !steps[n].Answered? then PollAt(steps[..n], back)
      else if back == 0 then Some(n)
      else PollAt(steps[..n], back - 1)
  }

  function PollStart(steps: seq<ReconStep>, back: nat): Option<int>
    requires back < 2
  {
    var at := PollAt(steps, back);
    if at.Some? then Some(steps[at.value].started) else None
  }

  function Clock(start: Option<int>): int {
    if start.Some? then start.value / SECOND else 0
  }

  // The two clocks hold the second the last two answered polls started in.
  lemma {:induction false} ClocksHoldTheLastTwoPolls(steps: seq<ReconStep>, regroup: int)
    ensures After(STARTED, steps, regroup).lastPoll == Clock(PollStart(steps, 0))
    ensures After(STARTED, steps, regroup).previousPoll == Clock(PollStart(steps, 1))
  {
    if steps != [] {
      ClocksHoldTheLastTwoPolls(steps[..|steps| - 1], regroup);
    }
  }

  lemma {:induction false} IngestStamps(rows: AlertTable, batch: IngestBatch, regroup: int, f: Fingerprint)
    requires RowsValid(rows)
    ensures
      var after := Ingest(rows, batch, regroup).0;
      if (exists a :: a in batch.alerts && a.fingerprint == f) then f in after && after[f].lastSeenAt == batch.receivedAt
      else (f in after <==> f in rows) && (f in rows ==> after[f] == rows[f])
    decreases |batch.alerts|
  {
    if batch.alerts != [] {
      var last := batch.alerts[|batch.alerts| - 1];
      IngestStamps(rows, Prefix(batch), regroup, f);
      IngestKeepsRowsValid(rows, Prefix(batch), regroup);
      IngestUnfolds(rows, batch, regroup);
      OneArrival(Ingest(rows, Prefix(batch), regroup).0, batch.groupKey, last, batch.receivedAt, regroup);
      SeenInTheBatch(batch, f);
    }
  }

  lemma SeenInTheBatch(batch: IngestBatch, f: Fingerprint)
    requires batch.alerts != []
    ensures (exists a :: a in batch.alerts && a.fingerprint == f) <==>
      batch.alerts[|batch.alerts| - 1].fingerprint == f || exists a :: a in Prefix(batch).alerts && a.fingerprint == f
  {
    assert batch.alerts == Prefix(batch).alerts + [batch.alerts[|batch.alerts| - 1]];
  }

  // What one step does to one row: it is seen now, given up now, or left as it was.
  lemma OneStep(r: Recon, step: ReconStep, regroup: int, f: Fingerprint)
    requires RowsValid(r.rows)
    ensures
      var after := Step(r, step, regroup);
      && RowsValid(after.rows)
      && (step.Sees(f) ==> f in after.rows && after.rows[f].lastSeenAt == step.Time())
      && (!step.Sees(f) ==>
            && (f in after.rows <==> f in r.rows)
            && (f in r.rows ==> after.rows[f] == r.rows[f] || (after.rows[f].lastSeenAt == step.Time() && !after.rows[f].alert.IsFiring())))
  {
    match step
    case Delivery(batch) =>
      IngestStamps(r.rows, batch, regroup, f);
      IngestKeepsRowsValid(r.rows, batch, regroup);
    case Answered(alerts, started, ingested, resolved) =>
      IngestStamps(r.rows, IngestBatch(None, alerts, started), regroup, f);
      IngestKeepsRowsValid(r.rows, IngestBatch(None, alerts, started), regroup);
      GivingUpKeepsRowsValid(
        if ingested then Ingest(r.rows, IngestBatch(None, alerts, started), regroup).0 else r.rows,
        Fingerprints(alerts), r.previousPoll * SECOND, started);
    case Unanswered(_) =>
  }

  lemma GivingUpKeepsRowsValid(rows: AlertTable, present: set<Fingerprint>, cutoff: int, now: int)
    requires RowsValid(rows)
    ensures RowsValid(ResolveMissing(rows, present, cutoff, now))
  {
  }

  lemma {:induction false} RowsStayValid(steps: seq<ReconStep>, regroup: int)
    ensures RowsValid(After(STARTED, steps, regroup).rows)
  {
    if steps != [] {
      RowsStayValid(steps[..|steps| - 1], regroup);
      OneStep(After(STARTED, steps[..|steps| - 1], regroup), steps[|steps| - 1], regroup, "");
    }
  }

  // A row is never stamped with an earlier time than a sighting of it.
  lemma {:induction false} SightingsAreKept(steps: seq<ReconStep>, regroup: int, f: Fingerprint, i: nat)
    requires InOrder(steps) && i < |steps| && steps[i].Sees(f)
    ensures
      var rows := After(STARTED, steps, regroup).rows;
      f in rows && rows[f].lastSeenAt >= steps[i].Time()
  {
    var n := |steps| - 1;
    RowsStayValid(steps[..n], regroup);
    OneStep(After(STARTED, steps[..n], regroup), steps[n], regroup, f);
    if i < n {
      SightingsAreKept(steps[..n], regroup, f, i);
    }
  }

  lemma {:induction false} TwoPollsBack(steps: seq<ReconStep>)
    requires PollAt(steps, 1).Some?
    ensures PollAt(steps, 0).Some? && PollAt(steps, 1).value < PollAt(steps, 0).value
    ensures forall k :: PollAt(steps, 1).value < k < PollAt(steps, 0).value ==> !steps[k].Answered?
  {
    var n := |steps| - 1;
    if !steps[n].Answered? {
      TwoPollsBack(steps[..n]);
    }
  }

  // The rows a poll judges: after what it brought was taken in.
  function Judged(r: Recon, poll: ReconStep, regroup: int): AlertTable
    requires poll.Answered?
  {
    if poll.ingested then Ingest(r.rows, IngestBatch(None, poll.alerts, poll.started), regroup).0 else r.rows
  }

  predicate GivesUp(r: Recon, poll: ReconStep, regroup: int, f: Fingerprint)
    requires poll.Answered?
  {
    var rows := Judged(r, poll, regroup);
    f in rows && rows[f].alert.IsFiring() && f in Step(r, poll, regroup).rows && !Step(r, poll, regroup).rows[f].alert.IsFiring()
  }

  // A poll gives an alert up exactly when the store is up, two polls were answered before it, the
  // answer leaves the alert out, and the row was last seen before the earlier of the two began.
  lemma GivesUpWhen(steps: seq<ReconStep>, poll: ReconStep, regroup: int, f: Fingerprint)
    requires InOrder(steps) && poll.Answered?
    ensures
      var r := After(STARTED, steps, regroup);
      GivesUp(r, poll, regroup, f) <==>
        && poll.resolved && PollAt(steps, 1).Some?
        && Missing(Judged(r, poll, regroup), Fingerprints(poll.alerts), Clock(PollStart(steps, 1)) * SECOND, f)
  {
    ClocksHoldTheLastTwoPolls(steps, regroup);
  }

  // An alert given up is on record as resolved when it said it would end, or at this poll if it did not say, and
  // is otherwise as it was; every other alert is as the answer left it.
  lemma GivenUpAlertsEnd(steps: seq<ReconStep>, poll: ReconStep, regroup: int, f: Fingerprint)
    requires InOrder(steps) && poll.Answered?
    ensures
      var r := After(STARTED, steps, regroup);
      var judged, after := Judged(r, poll, regroup), Polled(r, poll.alerts, poll.started, regroup, poll.ingested, poll.resolved).rows;
      && after.Keys == judged.Keys
      && (f in judged && !GivesUp(r, poll, regroup, f) ==> after[f] == judged[f])
      && (GivesUp(r, poll, regroup, f) ==>
            var ends := judged[f].alert.endsAt.UnwrapOr(poll.started);
            && f in judged && after[f].resolvedAt == Some(ends)
            && after[f].alert == judged[f].alert.(status := AlertStatus.Resolved, endsAt := Some(ends))
            && after[f].flapCount == judged[f].flapCount && after[f].firstSeenAt == judged[f].firstSeenAt)
  {
  }

  // In every run, an alert given up was in none of the last two answers, nor in this one, nor in any
  // delivery since the earlier of the two: the first two polls of a process give up nothing.
  lemma GivenUpMeansForgotten(steps: seq<ReconStep>, poll: ReconStep, regroup: int, f: Fingerprint)
    returns (first: nat, second: nat)
    requires InOrder(steps) && poll.Answered? && GivesUp(After(STARTED, steps, regroup), poll, regroup, f)
    ensures first < second < |steps| && steps[first].Answered? && steps[second].Answered?
    ensures forall k :: first < k < |steps| && k != second ==> !steps[k].Answered?
    ensures forall a :: a in poll.alerts ==> a.fingerprint != f
    ensures forall k :: first <= k < |steps| ==> !steps[k].Sees(f)
  {
    GivesUpWhen(steps, poll, regroup, f);
    TwoPollsBack(steps);
    first, second := PollAt(steps, 1).value, PollAt(steps, 0).value;
    var r := After(STARTED, steps, regroup);
    RowsStayValid(steps, regroup);
    IngestStamps(r.rows, IngestBatch(None, poll.alerts, poll.started), regroup, f);
    assert forall a :: a in poll.alerts ==> a.fingerprint in Fingerprints(poll.alerts);
    forall k | first <= k < |steps| ensures !steps[k].Sees(f) {
      if steps[k].Sees(f) {
        SightingsAreKept(steps, regroup, f, k);
      }
    }
  }

  // ---- A forgotten alert does not stay forgotten

  function Answers(steps: seq<ReconStep>): nat {
    if steps == [] then 0
    else Answers(steps[..|steps| - 1]) + if steps[|steps| - 1].Answered? then 1 else 0
  }

  // The store takes every poll, polls start a second or more apart, and nothing mentions the alert.
  ghost predicate Forgotten(steps: seq<ReconStep>, f: Fingerprint, seen: int) {
    && (forall i :: 0 <= i < |steps| && steps[i].Answered? ==>
          steps[i].ingested && steps[i].resolved && steps[i].started >= seen && steps[i].started >= SECOND)
    && (forall i, j :: 0 <= i < j < |steps| && steps[i].Answered? && steps[j].Answered? ==>
          steps[j].started >= steps[i].started + SECOND)
    && (forall i :: 0 <= i < |steps| ==> !steps[i].Sees(f))
  }

  ghost predicate Counting(r: Recon, steps: seq<ReconStep>, seen: int) {
    var n := Answers(steps);
    && (n >= 1 ==>
          var last := PollStart(steps, 0);
          last.Some? && r.lastPoll == last.value / SECOND && last.value >= seen + (n - 1) * SECOND)
    && (n >= 2 ==>
          var last := PollStart(steps, 1);
          last.Some? && r.previousPoll == last.value / SECOND && last.value >= seen + (n - 2) * SECOND
          && last.value >= SECOND)
  }

  lemma {:induction false} PollsCount(r: Recon, steps: seq<ReconStep>, regroup: int, f: Fingerprint, seen: int)
    requires Forgotten(steps, f, seen)
    ensures Counting(After(r, steps, regroup), steps, seen)
    ensures Answers(steps) >= 1 <==> PollAt(steps, 0).Some?
  {
    if steps != [] {
      var n := |steps| - 1;
      PollsCount(r, steps[..n], regroup, f, seen);
      if steps[n].Answered? && PollAt(steps[..n], 0).Some? {
        var k := PollAt(steps[..n], 0).value;
        assert steps[..n][k] == steps[k];
      }
    }
  }

  lemma FloorIsClose(start: int)
    requires start >= SECOND
    ensures start / SECOND * SECOND > start - SECOND && start / SECOND != 0
  {
  }

  // The fourth answered poll after an alert was last seen gives it up, at the latest.
  lemma {:induction false} FourthPollGivesUp(r: Recon, steps: seq<ReconStep>, regroup: int, f: Fingerprint)
    requires RowsValid(r.rows) && f in r.rows
    requires Forgotten(steps, f, r.rows[f].lastSeenAt)
    ensures
      var after := After(r, steps, regroup);
      && RowsValid(after.rows) && f in after.rows
      && (after.rows[f].alert.IsFiring() ==> after.rows[f] == r.rows[f])
      && (Answers(steps) >= 4 ==> !after.rows[f].alert.IsFiring())
  {
    if steps != [] {
      var n := |steps| - 1;
      FourthPollGivesUp(r, steps[..n], regroup, f);
      var before := After(r, steps[..n], regroup);
      OneStep(before, steps[n], regroup, f);
      if steps[n].Answered? && Answers(steps) >= 4 {
        PollsCount(r, steps[..n], regroup, f, r.rows[f].lastSeenAt);
        FloorIsClose(PollStart(steps[..n], 1).value);
        ThisPollGivesUp(before, steps[n], regroup, f);
      }
    }
  }

  lemma ThisPollGivesUp(r: Recon, poll: ReconStep, regroup: int, f: Fingerprint)
    requires RowsValid(r.rows) && f in r.rows && poll.Answered? && poll.ingested && poll.resolved && !poll.Sees(f)
    requires r.previousPoll != 0 && (r.rows[f].alert.IsFiring() ==> r.rows[f].lastSeenAt < r.previousPoll * SECOND)
    ensures f in Step(r, poll, regroup).rows && !Step(r, poll, regroup).rows[f].alert.IsFiring()
  {
    IngestStamps(r.rows, IngestBatch(None, poll.alerts, poll.started), regroup, f);
  }
}
