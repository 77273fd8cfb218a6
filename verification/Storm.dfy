/** The sliding window over what each route accepted, and the verdict it gives. */
module Storm {
  import opened Wrappers
  import opened Routing

  const RETAINED_PER_ROUTE: nat := 4

  // Arrivals per route, oldest first.
  type Seen = map<int, seq<int>>

  function Arrivals(seen: Seen, route: int): seq<int> {
    if route in seen then seen[route] else []
  }

  function Max(a: int, b: int): int {
    if a < b then b else a
  }

  function Cap(threshold: nat, forumThreshold: nat): (cap: nat)
    ensures cap >= 1 && cap >= threshold && cap >= forumThreshold
  {
    Max(Max(threshold, forumThreshold) * RETAINED_PER_ROUTE, 1)
  }

  // The youngest `n` entries.
  function LastN(s: seq<int>, n: nat): seq<int> {
    if |s| <= n then s else s[|s| - n..]
  }

  // What is left once everything in front that is older than the cutoff has been popped.
  function DropOld(s: seq<int>, cutoff: int): (r: seq<int>)
    ensures |r| <= |s|
  {
    if s == [] || s[0] >= cutoff then s else DropOld(s[1..], cutoff)
  }

  // Every route's arrivals without the old ones, and no route with none left.
  function Trimmed(seen: Seen, cutoff: int): (r: Seen)
    ensures forall route :: route in r ==> r[route] != []
  {
    map route | route in seen && DropOld(seen[route], cutoff) != [] :: DropOld(seen[route], cutoff)
  }

  function Lengths(seen: Seen): map<int, nat> {
    map route | route in seen :: |seen[route]|
  }

  datatype StormState = StormState(counts: map<int, nat>, threshold: nat, forumThreshold: nat) {
    function Count(route: int): nat {
      if route in counts then counts[route] else 0
    }

    function ThresholdFor(route: Route): nat {
      if route.target.Forum? then forumThreshold else threshold
    }

    predicate IsStorming(route: Route) {
      Count(route.id) >= ThresholdFor(route)
    }
  }

  class StormCounter {
    var seen: Seen
    const threshold: nat
    const forumThreshold: nat
    const window: nat

    // Everything ever observed or counted, in the order it happened.
    ghost var events: seq<Event>

    ghost predicate Valid()
      reads this
    {
      forall route :: Arrivals(seen, route) == After(events, Cap(threshold, forumThreshold), window, route)
    }

    constructor (threshold: nat, forumThreshold: nat, window: nat)
      ensures Valid() && events == []
      ensures this.threshold == threshold && this.forumThreshold == forumThreshold && this.window == window
    {
      seen := map[];
      this.threshold, this.forumThreshold, this.window := threshold, forumThreshold, window;
      events := [];
    }

    method Observe(route: int, at: int)
      requires Valid()
      modifies this
      ensures Valid() && events == old(events) + [Observed(route, at)]
      ensures |Arrivals(seen, route)| <= Cap(threshold, forumThreshold)
    {
      var cap := Cap(threshold, forumThreshold);
      var arrivals := Arrivals(seen, route) + [at];
      ghost var all := arrivals;
      ghost var popped: nat := 0;
      while |arrivals| > cap
        invariant popped <= |all| && arrivals == all[popped..]
        invariant popped > 0 ==> |arrivals| >= cap
      {
        arrivals, popped := arrivals[1..], popped + 1;
      }
      assert arrivals == LastN(all, cap);
      seen := seen[route := arrivals];
      forall r ensures Arrivals(seen, r) == After(events + [Observed(route, at)], cap, window, r) {
        OneEventLater(events, Observed(route, at), cap, window, r);
      }
      events := events + [Observed(route, at)];
    }

    // Drops what has left the window, forgets the routes with nothing left, and publishes the rest.
    method Snapshot(now: int) returns (state: StormState)
      requires Valid()
      modifies this
      ensures Valid() && events == old(events) + [Counted(now)]
      ensures forall route :: route in seen ==> seen[route] != []
      ensures InOrder(events) ==>
        forall route: Route ::
          state.IsStorming(route) <==>
          Inside(Log(old(events), route.id), now - window)
          >= if route.target.Forum? then forumThreshold else threshold
    {
      CountingKeepsTheDeques(events, seen, now, Cap(threshold, forumThreshold), window);
      seen := Trimmed(seen, now - window);
      state := StormState(Lengths(seen), threshold, forumThreshold);
      LengthsAreCounts(seen, state);
      events := events + [Counted(now)];
      if InOrder(events) {
        SameVerdictsAsTheLog(old(events), now, state, window);
      }
    }
  }

  // ---- Runs: the bounded deque against the log of everything that ever arrived.

  datatype Event = Observed(route: int, at: int) | Counted(now: int) {
    function Time(): int {
      if Observed? then at else now
    }
  }

  function NextDeque(deque: seq<int>, event: Event, cap: nat, window: nat, route: int): seq<int> {
    match event
    case Observed(r, at) => if r == route then LastN(deque + [at], cap) else deque
    case Counted(now) => DropOld(deque, now - window)
  }

  function After(events: seq<Event>, cap: nat, window: nat, route: int): seq<int> {
    if events == [] then []
    else NextDeque(After(events[..|events| - 1], cap, window, route), events[|events| - 1], cap, window, route)
  }

  lemma OneEventLater(events: seq<Event>, event: Event, cap: nat, window: nat, route: int)
    ensures
      After(events + [event], cap, window, route)
      == NextDeque(After(events, cap, window, route), event, cap, window, route)
  {
    assert (events + [event])[..|events|] == events;
  }

  // Popping what is old is what counting does to every deque.
  lemma CountingKeepsTheDeques(events: seq<Event>, seen: Seen, now: int, cap: nat, window: nat)
    requires forall route :: Arrivals(seen, route) == After(events, cap, window, route)
    ensures forall route ::
      Arrivals(Trimmed(seen, now - window), route) == After(events + [Counted(now)], cap, window, route)
  {
    forall route
      ensures Arrivals(Trimmed(seen, now - window), route) == After(events + [Counted(now)], cap, window, route)
    {
      OneEventLater(events, Counted(now), cap, window, route);
    }
  }

  lemma LengthsAreCounts(seen: Seen, state: StormState)
    requires state.counts == Lengths(seen)
    ensures forall route :: state.Count(route) == |Arrivals(seen, route)|
  {
  }

  function NextLog(log: seq<int>, event: Event, route: int): seq<int> {
    if event.Observed? && event.route == route then log + [event.at] else log
  }

  // Every arrival on the route, with nothing ever dropped.
  function Log(events: seq<Event>, route: int): seq<int> {
    if events == [] then []
    else NextLog(Log(events[..|events| - 1], route), events[|events| - 1], route)
  }

  // How many of the arrivals are inside the window, wherever they stand in the log.
  function Inside(log: seq<int>, cutoff: int): nat {
    if log == [] then 0
    else Inside(log[..|log| - 1], cutoff) + if log[|log| - 1] >= cutoff then 1 else 0
  }

  ghost predicate NonDecreasing(s: seq<int>) {
    forall i, j :: 0 <= i < j < |s| ==> s[i] <= s[j]
  }

  ghost predicate InOrder(events: seq<Event>) {
    forall i, j :: 0 <= i < j < |events| ==> events[i].Time() <= events[j].Time()
  }

  // Where the window begins in an ordered log.
  ghost function Start(s: seq<int>, cutoff: int): (k: nat)
    requires NonDecreasing(s)
    ensures k <= |s|
    ensures forall i :: 0 <= i < k ==> s[i] < cutoff
    ensures forall i :: k <= i < |s| ==> s[i] >= cutoff
  {
    if s == [] || s[|s| - 1] < cutoff then |s| else Start(s[..|s| - 1], cutoff)
  }

  lemma {:induction false} DropOldIsASuffix(s: seq<int>, from: nat, cutoff: int)
    requires NonDecreasing(s) && from <= |s|
    ensures DropOld(s[from..], cutoff) == s[Max(from, Start(s, cutoff))..]
    decreases |s| - from
  {
    if from < |s| && s[from] < cutoff {
      assert s[from..][1..] == s[from + 1..];
      DropOldIsASuffix(s, from + 1, cutoff);
    }
  }

  lemma {:induction false} InsideIsTheSuffix(s: seq<int>, cutoff: int)
    requires NonDecreasing(s)
    ensures Inside(s, cutoff) == |s| - Start(s, cutoff)
  {
    if s != [] {
      InsideIsTheSuffix(s[..|s| - 1], cutoff);
    }
  }

  lemma {:induction false} LogInOrder(events: seq<Event>, route: int)
    requires InOrder(events)
    ensures NonDecreasing(Log(events, route))
    ensures forall at :: at in Log(events, route) ==> events != [] && at <= events[|events| - 1].Time()
  {
    if events != [] {
      var log := Log(events[..|events| - 1], route);
      LogInOrder(events[..|events| - 1], route);
      assert forall i :: 0 <= i < |log| ==> log[i] in log;
    }
  }

  lemma ObservedKeepsTheEnd(log: seq<int>, start: nat, at: int, cap: nat)
    requires start <= |log| && cap >= 1
    ensures LastN(LastN(log[start..], cap) + [at], cap) == LastN((log + [at])[start..], cap)
  {
    assert (log + [at])[start..] == log[start..] + [at];
  }

  lemma SuffixEnd(log: seq<int>, start: nat, cap: nat)
    requires start <= |log|
    ensures LastN(log[start..], cap) == log[if |log| - start <= cap then start else |log| - cap..]
  {
  }

  // Whatever was cut before is outside the window now, so cutting again cuts from the window.
  lemma CountedCutsTheEnd(log: seq<int>, start: nat, cutoff: int, cap: nat) returns (cut: nat)
    requires NonDecreasing(log) && start <= |log| && cap >= 1
    requires forall i :: 0 <= i < start ==> log[i] < cutoff
    ensures cut <= |log| && Inside(log, cutoff) == |log| - cut
    ensures forall i :: 0 <= i < cut ==> log[i] < cutoff
    ensures DropOld(LastN(log[start..], cap), cutoff) == LastN(log[cut..], cap)
  {
    var from: nat := if |log| - start <= cap then start else |log| - cap;
    assert start > 0 ==> log[start - 1] < cutoff;
    SuffixEnd(log, start, cap);
    DropOldIsASuffix(log, from, cutoff);
    cut := Start(log, cutoff);
    SuffixEnd(log, cut, cap);
    InsideIsTheSuffix(log, cutoff);
  }

  lemma ObservedIsKept(log: seq<int>, at: int, cap: nat, window: nat, was: nat)
    requires cap >= 1 && was <= |log| && forall i :: 0 <= i < was ==> log[i] < at - window
    ensures LastN(LastN(log[was..], cap) + [at], cap) == LastN((log + [at])[was..], cap)
    ensures was <= |log + [at]| && forall i :: 0 <= i < was ==> (log + [at])[i] < at - window
  {
    ObservedKeepsTheEnd(log, was, at, cap);
  }

  // One event later the deque is still an end of the log, cut at what has left the window.
  lemma OneMoreEvent(
    log: seq<int>, deque: seq<int>, event: Event, cap: nat, window: nat, route: int, was: nat) returns (cut: nat)
    requires NonDecreasing(log) && cap >= 1 && was <= |log| && deque == LastN(log[was..], cap)
    requires forall i :: 0 <= i < was ==> log[i] < event.Time() - window
    ensures cut <= |NextLog(log, event, route)|
    ensures forall i :: 0 <= i < cut ==> NextLog(log, event, route)[i] < event.Time() - window
    ensures NextDeque(deque, event, cap, window, route) == LastN(NextLog(log, event, route)[cut..], cap)
  {
    match event
    case Counted(now) =>
      cut := CountedCutsTheEnd(log, was, now - window, cap);
    case Observed(r, at) =>
      cut := was;
      if r == route {
        ObservedIsKept(log, at, cap, window, was);
      }
  }

  // The deque is always the youngest `cap` entries of what is left of the log after its last cut,
  // and everything cut off was already outside the window.
  lemma {:induction false} DequeIsTheEndOfTheLog(events: seq<Event>, cap: nat, window: nat, route: int)
    returns (cut: nat)
    requires InOrder(events) && cap >= 1
    ensures cut <= |Log(events, route)|
    ensures forall i :: 0 <= i < cut ==> events != [] && Log(events, route)[i] < events[|events| - 1].Time() - window
    ensures After(events, cap, window, route) == LastN(Log(events, route)[cut..], cap)
    decreases |events|
  {
    if events == [] {
      cut := 0;
    } else {
      var before, event := events[..|events| - 1], events[|events| - 1];
      LogInOrder(before, route);
      cut := DequeIsTheEndOfTheLog(before, cap, window, route);
      assert before != [] ==> before[|before| - 1].Time() <= event.Time();
      cut := OneMoreEvent(Log(before, route), After(before, cap, window, route), event, cap, window, route, cut);
    }
  }

  // For times that never run backwards, a count taken now is the number of arrivals inside the
  // window, held at the cap, whatever was observed and counted before.
  lemma CountIsBoundedWindow(events: seq<Event>, now: int, cap: nat, window: nat, route: int)
    requires InOrder(events + [Counted(now)]) && cap >= 1
    ensures
      var arrived := Inside(Log(events, route), now - window);
      |After(events + [Counted(now)], cap, window, route)| == if arrived < cap then arrived else cap
  {
    var log := Log(events, route);
    OneMoreCount(events, now, cap, window, route);
    LogInOrder(events, route);
    var cut := DequeIsTheEndOfTheLog(events, cap, window, route);
    cut := CountedCutsTheEnd(log, cut, now - window, cap);
  }

  lemma OneMoreCount(events: seq<Event>, now: int, cap: nat, window: nat, route: int)
    requires InOrder(events + [Counted(now)])
    ensures InOrder(events) && (events != [] ==> events[|events| - 1].Time() <= now)
    ensures After(events + [Counted(now)], cap, window, route) == DropOld(After(events, cap, window, route), now - window)
  {
    var all := events + [Counted(now)];
    assert all[..|events|] == events && all[|events|] == Counted(now);
    assert forall i :: 0 <= i < |events| ==> all[i] == events[i];
    assert events != [] ==> all[|events| - 1].Time() <= all[|events|].Time();
  }

  // The bounded counter and the unbounded log give the same verdict, at either threshold.
  lemma SameVerdictAsTheLog(events: seq<Event>, now: int, state: StormState, window: nat, route: Route)
    requires InOrder(events + [Counted(now)])
    requires
      var cap := Cap(state.threshold, state.forumThreshold);
      state.Count(route.id) == |After(events + [Counted(now)], cap, window, route.id)|
    ensures state.IsStorming(route)
       <==> Inside(Log(events, route.id), now - window) >= state.ThresholdFor(route)
  {
    CountIsBoundedWindow(events, now, Cap(state.threshold, state.forumThreshold), window, route.id);
  }

  lemma SameVerdictsAsTheLog(events: seq<Event>, now: int, state: StormState, window: nat)
    requires InOrder(events + [Counted(now)])
    requires
      var cap := Cap(state.threshold, state.forumThreshold);
      forall route :: state.Count(route) == |After(events + [Counted(now)], cap, window, route)|
    ensures forall route: Route ::
      state.IsStorming(route) <==> Inside(Log(events, route.id), now - window) >= state.ThresholdFor(route)
  {
    forall route: Route
      ensures state.IsStorming(route) <==> Inside(Log(events, route.id), now - window) >= state.ThresholdFor(route)
    {
      SameVerdictAsTheLog(events, now, state, window, route);
    }
  }

  lemma {:induction false} MemoryIsBounded(events: seq<Event>, cap: nat, window: nat, route: int)
    ensures |After(events, cap, window, route)| <= cap
  {
    if events != [] {
      MemoryIsBounded(events[..|events| - 1], cap, window, route);
    }
  }

  // Order matters: an arrival stamped before one already held is shielded by it and still counted
  // once it is outside the window.
  lemma LateStampIsOvercounted()
    ensures
      var events := [Observed(1, 10), Observed(1, 0)];
      && |After(events + [Counted(12)], 8, 5, 1)| == 2
      && Inside(Log(events, 1), 12 - 5) == 1
  {
    var events := [Observed(1, 10), Observed(1, 0)];
    var all := events + [Counted(12)];
    assert all[..2] == events && events[..1] == [Observed(1, 10)] && [Observed(1, 10)][..0] == [];
    assert After(events[..1], 8, 5, 1) == [10];
    assert After(events, 8, 5, 1) == [10, 0];
    assert Log(events[..1], 1) == [10];
    assert Log(events, 1) == [10, 0];
    assert [10, 0][..1] == [10] && [10][..0] == [];
    assert Inside([10], 7) == 1;
  }
}
