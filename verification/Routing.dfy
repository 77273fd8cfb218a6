/** Routes, ignore rules, and the routes an alert is delivered to. */
module Routing {
  import opened Wrappers
  import opened Labels
  import opened Alerts

  datatype ForumPolicy = ForumPolicy(
    autoArchiveMinutes: nat,
    archiveOnResolve: bool,
    lockOnResolve: bool,
    bumpOnStateChange: bool,
    pinMinSeverity: Option<Severity>)

  datatype RouteTarget =
    | Text(channel: nat, archiveAfterMinutes: nat)
    | Forum(forum: nat, policy: ForumPolicy)
    | Thread(thread: nat)
    | Dm(user: nat)

  datatype GroupStrategy = PerAlert | PerGroup | Digest

  datatype Mentions = Mentions(nobody: bool, minSeverity: Option<Severity>)

  // `matchers` is the compiled conjunction of the route's matchers.
  datatype Route = Route(
    id: int,
    guild: nat,
    enabled: bool,
    matchers: Labels -> bool,
    minSeverity: Option<Severity>,
    target: RouteTarget,
    strategy: GroupStrategy,
    mentions: Mentions,
    priority: int,
    continueToNext: bool)
  {
    predicate Accepts(labels: Labels, severity: Severity) {
      enabled && matchers(labels) && (minSeverity.Some? ==> severity.AtLeast(minSeverity.value))
    }

    predicate MentionsAt(severity: Severity) {
      !mentions.nobody && (mentions.minSeverity.Some? ==> severity.AtLeast(mentions.minSeverity.value))
    }

    // A direct message has no channel of its own, so the user's id stands in.
    function DeliveryChannel(): nat {
      match target
      case Text(channel, _) => channel
      case Forum(forum, _) => forum
      case Thread(thread) => thread
      case Dm(user) => user
    }

    predicate Precedes(other: Route) {
      priority < other.priority || (priority == other.priority && id <= other.id)
    }
  }

  datatype IgnoreScope = GuildWide | ChannelOnly

  datatype IgnoreRule = IgnoreRule(
    scope: IgnoreScope,
    guild: nat,
    channel: Option<nat>,
    matchers: Labels -> bool,
    expiresAt: Option<int>,
    revoked: bool)
  {
    predicate Mutes(labels: Labels, at: nat, now: int) {
      && !revoked
      && (expiresAt.Some? ==> expiresAt.value > now)
      && matchers(labels)
      && (scope.GuildWide? || channel == Some(at))
    }
  }

  datatype RoutingSnapshot = RoutingSnapshot(routes: seq<Route>, ignores: seq<IgnoreRule>) {
    // Whether some rule of the guild mutes the alert in the channel.
    predicate Ignores(guild: nat, channel: nat, labels: Labels, now: int) {
      exists i :: 0 <= i < |ignores| && ignores[i].guild == guild && ignores[i].Mutes(labels, channel, now)
    }

    // One pass over the sorted routes, remembering the guilds that are done.
    method ResolveRoutes(labels: Labels, severity: Severity) returns (matched: seq<Route>)
      ensures matched == Resolve(routes, labels, severity)
    {
      matched := [];
      var settled: seq<nat> := [];
      for i := 0 to |routes|
        invariant matched == Resolve(routes[..i], labels, severity)
        invariant forall guild :: guild in settled <==> GuildDone(routes[..i], guild, labels, severity)
      {
        var route := routes[i];
        OneMoreRoute(routes[..i], route, labels, severity, settled);
        assert routes[..i + 1] == routes[..i] + [route];
        if !(route.guild in settled || !route.Accepts(labels, severity)) {
          matched := matched + [route];
          if !route.continueToNext {
            settled := settled + [route.guild];
          }
        }
      }
      assert routes[..|routes|] == routes;
    }
  }

  // A rule that expires mutes the same alerts at every instant before it does, and none from then on.
  lemma MutingEndsWhen(rule: IgnoreRule, labels: Labels, at: nat, ends: int, now: int, later: int)
    requires rule.expiresAt == Some(ends)
    ensures rule.Mutes(labels, at, now) ==> now < ends
    ensures now < ends && later < ends ==> (rule.Mutes(labels, at, now) <==> rule.Mutes(labels, at, later))
    ensures !rule.(revoked := true).Mutes(labels, at, now)
  {
  }

  // A rule of the whole guild mutes alike in every channel, and a rule of one channel nowhere else; no rule
  // reaches another guild.
  lemma MutingStaysInPlace(
    rule: IgnoreRule, snapshot: RoutingSnapshot, guild: nat, labels: Labels, at: nat, other: nat, now: int)
    ensures rule.scope.GuildWide? ==> (rule.Mutes(labels, at, now) <==> rule.Mutes(labels, other, now))
    ensures rule.scope.ChannelOnly? && rule.Mutes(labels, at, now) ==> rule.channel == Some(at)
    ensures rule.scope.ChannelOnly? && rule.channel == Some(at) ==>
      (rule.Mutes(labels, at, now) <==> rule.(scope := IgnoreScope.GuildWide).Mutes(labels, at, now))
    ensures snapshot.Ignores(guild, at, labels, now) ==>
      exists r :: r in snapshot.ignores && r.guild == guild && r.matchers(labels) && !r.revoked
    ensures rule.guild != guild ==>
      (snapshot.(ignores := snapshot.ignores + [rule]).Ignores(guild, at, labels, now)
       <==> snapshot.Ignores(guild, at, labels, now))
  {
    var more := snapshot.(ignores := snapshot.ignores + [rule]);
    if snapshot.Ignores(guild, at, labels, now) {
      var i :| 0 <= i < |snapshot.ignores| && snapshot.ignores[i].guild == guild && snapshot.ignores[i].Mutes(labels, at, now);
      assert snapshot.ignores[i] in snapshot.ignores && more.ignores[i] == snapshot.ignores[i];
    }
    if more.Ignores(guild, at, labels, now) {
      var i :| 0 <= i < |more.ignores| && more.ignores[i].guild == guild && more.ignores[i].Mutes(labels, at, now);
      assert rule.guild != guild ==> snapshot.ignores[i] == more.ignores[i];
    }
  }

  // The severer the alert, the more routes take it and the more of them mention.
  lemma SeverityOpensRoutes(route: Route, labels: Labels, low: Severity, high: Severity)
    requires low.Rank() <= high.Rank()
    ensures route.Accepts(labels, low) ==> route.Accepts(labels, high)
    ensures route.MentionsAt(low) ==> route.MentionsAt(high) && !route.mentions.nobody
    ensures !route.mentions.nobody && route.mentions.minSeverity == Some(low) ==> route.MentionsAt(high)
    ensures route.enabled && route.matchers(labels) && route.minSeverity == Some(low) ==>
      route.Accepts(labels, high) && (route.Accepts(labels, Severity.Info) <==> low.Info?)
  {
  }

  // Some accepting route of the guild lets nothing past it.
  predicate GuildDone(routes: seq<Route>, guild: nat, labels: Labels, severity: Severity) {
    exists j :: 0 <= j < |routes| && routes[j].guild == guild
                && routes[j].Accepts(labels, severity) && !routes[j].continueToNext
  }

  // The rule: the accepting routes, in order, that no earlier accepting route of their guild stops.
  function Resolve(routes: seq<Route>, labels: Labels, severity: Severity): seq<Route> {
    if routes == [] then []
    else
      var last := |routes| - 1;
      var route := routes[last];
      Resolve(routes[..last], labels, severity) +
      if route.Accepts(labels, severity) && !GuildDone(routes[..last], route.guild, labels, severity)
      then [route] else []
  }

  lemma GuildDoneByOneMore(routes: seq<Route>, route: Route, labels: Labels, severity: Severity)
    ensures forall guild ::
      GuildDone(routes + [route], guild, labels, severity) <==>
      GuildDone(routes, guild, labels, severity)
      || (route.guild == guild && route.Accepts(labels, severity) && !route.continueToNext)
  {
    var more := routes + [route];
    forall guild
      ensures GuildDone(more, guild, labels, severity) <==>
        GuildDone(routes, guild, labels, severity)
        || (route.guild == guild && route.Accepts(labels, severity) && !route.continueToNext)
    {
      assert more[|routes|] == route;
      assert forall j :: 0 <= j < |routes| ==> more[j] == routes[j];
    }
  }

  // One more turn of the pass, with the guilds settled so far.
  lemma OneMoreRoute(routes: seq<Route>, route: Route, labels: Labels, severity: Severity, settled: seq<nat>)
    requires forall guild :: guild in settled <==> GuildDone(routes, guild, labels, severity)
    ensures
      var wins := !(route.guild in settled || !route.Accepts(labels, severity));
      && Resolve(routes + [route], labels, severity) == Resolve(routes, labels, severity) + (if wins then [route] else [])
      && var now := if wins && !route.continueToNext then settled + [route.guild] else settled;
      forall guild :: guild in now <==> GuildDone(routes + [route], guild, labels, severity)
  {
    assert (routes + [route])[..|routes|] == routes;
    GuildDoneByOneMore(routes, route, labels, severity);
  }

  // Position by position: a route is delivered to exactly when it accepts and nothing stops it.
  lemma {:induction false} ResolveKeepsExactlyTheWinners(routes: seq<Route>, labels: Labels, severity: Severity, i: nat)
    requires i < |routes|
    ensures
      var wins := routes[i].Accepts(labels, severity) && !GuildDone(routes[..i], routes[i].guild, labels, severity);
      && Resolve(routes[..i], labels, severity) <= Resolve(routes, labels, severity)
      && (wins ==> Resolve(routes[..i], labels, severity) + [routes[i]] <= Resolve(routes, labels, severity))
      && (!wins ==> Resolve(routes[..i + 1], labels, severity) == Resolve(routes[..i], labels, severity))
    decreases |routes|
  {
    var last := |routes| - 1;
    assert routes[..i + 1][..i] == routes[..i];
    if i < last {
      assert routes[..last][..i] == routes[..i];
      assert routes[..last][..i + 1] == routes[..i + 1];
      ResolveKeepsExactlyTheWinners(routes[..last], labels, severity, i);
    } else {
      assert routes[..i + 1] == routes;
    }
  }

  function OfGuild(routes: seq<Route>, guild: nat): seq<Route> {
    if routes == [] then []
    else
      var last := |routes| - 1;
      OfGuild(routes[..last], guild) + if routes[last].guild == guild then [routes[last]] else []
  }

  lemma {:induction false} OtherGuildsSettleNothing(routes: seq<Route>, guild: nat, labels: Labels, severity: Severity)
    ensures GuildDone(OfGuild(routes, guild), guild, labels, severity) == GuildDone(routes, guild, labels, severity)
  {
    if routes != [] {
      var last := |routes| - 1;
      OtherGuildsSettleNothing(routes[..last], guild, labels, severity);
      assert routes == routes[..last] + [routes[last]];
      GuildDoneByOneMore(routes[..last], routes[last], labels, severity);
      var own := OfGuild(routes[..last], guild);
      GuildDoneByOneMore(own, routes[last], labels, severity);
      assert OfGuild(routes, guild) == if routes[last].guild == guild then own + [routes[last]] else own;
    }
  }

  lemma OfGuildSplits(routes: seq<Route>, route: Route, guild: nat)
    ensures OfGuild(routes + [route], guild) == OfGuild(routes, guild) + if route.guild == guild then [route] else []
  {
    assert (routes + [route])[..|routes|] == routes;
  }

  // One guild's share of the answer is what its own routes would have answered alone.
  lemma {:induction false} GuildsResolveApart(routes: seq<Route>, guild: nat, labels: Labels, severity: Severity)
    ensures OfGuild(Resolve(routes, labels, severity), guild) == Resolve(OfGuild(routes, guild), labels, severity)
  {
    if routes != [] {
      var last := |routes| - 1;
      var route := routes[last];
      GuildsResolveApart(routes[..last], guild, labels, severity);
      var before := Resolve(routes[..last], labels, severity);
      var own := OfGuild(routes[..last], guild);
      if route.Accepts(labels, severity) && !GuildDone(routes[..last], route.guild, labels, severity) {
        assert Resolve(routes, labels, severity) == before + [route];
        OfGuildSplits(before, route, guild);
      } else {
        assert Resolve(routes, labels, severity) == before;
      }
      if route.guild == guild {
        OtherGuildsSettleNothing(routes[..last], guild, labels, severity);
        assert OfGuild(routes, guild) == own + [route];
        ResolveOneMore(own, route, labels, severity);
      } else {
        assert OfGuild(routes, guild) == own;
      }
    }
  }

  lemma ResolveOneMore(routes: seq<Route>, route: Route, labels: Labels, severity: Severity)
    ensures
      Resolve(routes + [route], labels, severity) ==
      Resolve(routes, labels, severity) +
      if route.Accepts(labels, severity) && !GuildDone(routes, route.guild, labels, severity) then [route] else []
  {
    assert (routes + [route])[..|routes|] == routes;
  }

  // Evaluation order: ascending priority, then id.
  ghost predicate Sorted(routes: seq<Route>) {
    forall i, j :: 0 <= i < j < |routes| ==> routes[i].Precedes(routes[j])
  }

  ghost predicate DistinctIds(routes: seq<Route>) {
    forall i, j :: 0 <= i < j < |routes| ==> routes[i].id != routes[j].id
  }

  function Insert(sorted: seq<Route>, route: Route): seq<Route> {
    if sorted == [] then [route]
    else if sorted[|sorted| - 1].Precedes(route) then sorted + [route]
    else Insert(sorted[..|sorted| - 1], route) + [sorted[|sorted| - 1]]
  }

  function SortRoutes(routes: seq<Route>): seq<Route> {
    if routes == [] then [] else Insert(SortRoutes(routes[..|routes| - 1]), routes[|routes| - 1])
  }

  // The snapshot a list of routes is published as.
  function NewSnapshot(routes: seq<Route>, ignores: seq<IgnoreRule>): RoutingSnapshot {
    RoutingSnapshot(SortRoutes(routes), ignores)
  }

  // The same routes, in another order.
  ghost predicate SameRoutes(a: seq<Route>, b: seq<Route>) {
    |a| == |b| && forall r :: r in a <==> r in b
  }

  lemma {:induction false} InsertSorts(sorted: seq<Route>, route: Route)
    requires Sorted(sorted)
    ensures Sorted(Insert(sorted, route))
    ensures |Insert(sorted, route)| == |sorted| + 1
    ensures forall r :: r in Insert(sorted, route) <==> r == route || r in sorted
  {
    if sorted != [] {
      var last := sorted[|sorted| - 1];
      assert sorted == sorted[..|sorted| - 1] + [last];
      if !last.Precedes(route) {
        var rest := Insert(sorted[..|sorted| - 1], route);
        InsertSorts(sorted[..|sorted| - 1], route);
        forall i | 0 <= i < |rest| ensures rest[i].Precedes(last) {
          assert rest[i] in rest;
        }
      }
    }
  }

  lemma {:induction false} SortRoutesSorts(routes: seq<Route>)
    ensures Sorted(SortRoutes(routes)) && SameRoutes(SortRoutes(routes), routes)
  {
    if routes != [] {
      var last := |routes| - 1;
      assert routes == routes[..last] + [routes[last]];
      SortRoutesSorts(routes[..last]);
      InsertSorts(SortRoutes(routes[..last]), routes[last]);
    }
  }

  lemma {:induction false} InsertKeepsIdsDistinct(sorted: seq<Route>, route: Route)
    requires DistinctIds(sorted) && forall r :: r in sorted ==> r.id != route.id
    requires Sorted(sorted)
    ensures DistinctIds(Insert(sorted, route))
    decreases |sorted|
  {
    if sorted != [] {
      var n := |sorted| - 1;
      InsertKeepsIdsDistinct(sorted[..n], route);
      InsertSorts(sorted[..n], route);
      var rest := Insert(sorted[..n], route);
      forall i | 0 <= i < |rest| ensures rest[i].id != sorted[n].id {
        assert rest[i] in rest;
      }
    }
  }

  lemma {:induction false} SortingKeepsIdsDistinct(routes: seq<Route>)
    requires DistinctIds(routes)
    ensures DistinctIds(SortRoutes(routes))
  {
    if routes != [] {
      var last := |routes| - 1;
      SortingKeepsIdsDistinct(routes[..last]);
      SortRoutesSorts(routes[..last]);
      InsertKeepsIdsDistinct(SortRoutes(routes[..last]), routes[last]);
    }
  }

  lemma LastsAgree(a: seq<Route>, b: seq<Route>)
    requires Sorted(a) && Sorted(b) && SameRoutes(a, b) && DistinctIds(a) && a != []
    ensures a[|a| - 1] == b[|b| - 1]
  {
    var n := |a| - 1;
    assert a[n] in b && b[n] in a;
    assert a[n] == b[n] || a[n].Precedes(b[n]);
    assert a[n] == b[n] || b[n].Precedes(a[n]);
  }

  lemma WithoutLasts(a: seq<Route>, b: seq<Route>)
    requires SameRoutes(a, b) && DistinctIds(a) && DistinctIds(b) && a != [] && a[|a| - 1] == b[|b| - 1]
    ensures SameRoutes(a[..|a| - 1], b[..|b| - 1])
  {
    var n := |a| - 1;
    assert forall r :: r in a[..n] <==> r in a && r != a[n];
    assert forall r :: r in b[..n] <==> r in b && r != b[n];
  }

  lemma {:induction false} SortedOrderIsUnique(a: seq<Route>, b: seq<Route>)
    requires Sorted(a) && Sorted(b) && SameRoutes(a, b) && DistinctIds(a) && DistinctIds(b)
    ensures a == b
    decreases |a|
  {
    if a != [] {
      var n := |a| - 1;
      LastsAgree(a, b);
      WithoutLasts(a, b);
      SortedOrderIsUnique(a[..n], b[..n]);
      assert a == a[..n] + [a[n]] && b == b[..n] + [b[n]];
    }
  }

  // Whatever order the database returned the routes in, they resolve alike.
  lemma ResolutionIgnoresInputOrder(
    routes: seq<Route>, shuffled: seq<Route>, ignores: seq<IgnoreRule>, labels: Labels, severity: Severity)
    requires SameRoutes(routes, shuffled) && DistinctIds(routes) && DistinctIds(shuffled)
    ensures
      Resolve(NewSnapshot(routes, ignores).routes, labels, severity)
      == Resolve(NewSnapshot(shuffled, ignores).routes, labels, severity)
  {
    SortRoutesSorts(routes);
    SortRoutesSorts(shuffled);
    SortingKeepsIdsDistinct(routes);
    SortingKeepsIdsDistinct(shuffled);
    SortedOrderIsUnique(SortRoutes(routes), SortRoutes(shuffled));
  }
}
