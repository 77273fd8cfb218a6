/** What a card is keyed by within a channel, and how a key is read back. */
module DedupeKeys {
  import opened Wrappers
  import opened Labels
  import opened Texts

  type DedupeKey = string
  type GroupKey = string

  datatype KeyScope =
    | Alert(identity: string)
    | Group(group: string)
    | Digest(routeId: int, window: int)
    | Unrecognised

  datatype Retirement = Superseded | Orphaned

  const SUPERSEDED_PREFIX: string := "superseded:"
  const ORPHANED_PREFIX: string := "orphaned:"

  function PerAlert(identity: Fingerprint): DedupeKey {
    "a:" + identity
  }

  function PerGroup(group: GroupKey): DedupeKey {
    "g:" + group
  }

  // `window` is the second the window opened.
  function DigestKey(routeId: int, window: int): DedupeKey {
    "d:" + (Decimal(routeId) + ":" + Decimal(window))
  }

  // What the store writes over the key of a card that gives it up.
  function SupersededKey(card: nat, key: DedupeKey): DedupeKey {
    SUPERSEDED_PREFIX + (Decimal(card) + ":" + key)
  }

  function OrphanedKey(card: nat, key: DedupeKey): DedupeKey {
    ORPHANED_PREFIX + (Decimal(card) + ":" + key)
  }

  function RetirementOf(key: DedupeKey): Option<Retirement> {
    if SUPERSEDED_PREFIX <= key then Some(Superseded)
    else if ORPHANED_PREFIX <= key then Some(Orphaned)
    else None
  }

  function LivePart(key: DedupeKey): DedupeKey {
    var stripped :=
      if StripPrefix(key, SUPERSEDED_PREFIX).Some? then StripPrefix(key, SUPERSEDED_PREFIX)
      else StripPrefix(key, ORPHANED_PREFIX);
    match stripped
    case None => key
    case Some(rest) =>
      match SplitOnce(rest, ':')
      case None => key
      case Some((_, live)) => live
  }

  // The seconds an instant can name: from the year -262143 to the year 262142.
  const MIN_TIMESTAMP: int := -8334601228800
  const MAX_TIMESTAMP: int := 8210266876799

  predicate IsTimestamp(seconds: int) {
    MIN_TIMESTAMP <= seconds <= MAX_TIMESTAMP
  }

  function ScopeOfLive(live: DedupeKey): KeyScope {
    if "a:" <= live then Alert(live[2..])
    else if "g:" <= live then Group(live[2..])
    else if "d:" <= live then
      match SplitOnce(live[2..], ':')
      case None => Unrecognised
      case Some((route, window)) =>
        var routeId, start := ParseI64(route), ParseI64(window);
        if routeId.Some? && start.Some? && IsTimestamp(start.value) then Digest(routeId.value, start.value) else Unrecognised
    else Unrecognised
  }

  function ScopeOf(key: DedupeKey): KeyScope {
    ScopeOfLive(LivePart(key))
  }

  // The keys the three constructors produce.
  function KeyOf(scope: KeyScope): DedupeKey
    requires !scope.Unrecognised?
  {
    match scope
    case Alert(identity) => PerAlert(identity)
    case Group(group) => PerGroup(group)
    case Digest(routeId, window) => DigestKey(routeId, window)
  }

  ghost predicate WellFormed(scope: KeyScope) {
    match scope
    case Digest(routeId, window) => IsI64(routeId) && IsTimestamp(window)
    case Unrecognised => false
    case _ => true
  }

  lemma ConstructedKeysAreLive(scope: KeyScope)
    requires WellFormed(scope)
    ensures RetirementOf(KeyOf(scope)) == None && LivePart(KeyOf(scope)) == KeyOf(scope)
  {
    var key := KeyOf(scope);
    assert key[0] != SUPERSEDED_PREFIX[0] && key[0] != ORPHANED_PREFIX[0];
  }

  lemma LiveDigestScope(routeId: int, window: int)
    requires IsI64(routeId) && IsTimestamp(window)
    ensures ScopeOfLive(DigestKey(routeId, window)) == KeyScope.Digest(routeId, window)
  {
    var key := DigestKey(routeId, window);
    var rest := Decimal(routeId) + ":" + Decimal(window);
    DecimalParses(routeId);
    DecimalParses(window);
    SplitOnceFindsTheFirst(Decimal(routeId), ':', Decimal(window));
    assert key[2..] == rest && key[0] == 'd';
    assert SplitOnce(rest, ':') == Some((Decimal(routeId), Decimal(window)));
  }

  lemma LiveScope(scope: KeyScope)
    requires WellFormed(scope)
    ensures ScopeOfLive(KeyOf(scope)) == scope
  {
    var key := KeyOf(scope);
    match scope {
      case Alert(identity) =>
        assert key[2..] == identity;
      case Group(group) =>
        assert key[2..] == group && key[0] == 'g';
      case Digest(routeId, window) =>
        LiveDigestScope(routeId, window);
    }
  }

  // `ScopeOf` undoes every constructor, and does so through one retirement.
  lemma ScopeUndoesTheConstructors(scope: KeyScope, card: nat)
    requires WellFormed(scope)
    ensures ScopeOf(KeyOf(scope)) == scope
    ensures ScopeOf(SupersededKey(card, KeyOf(scope))) == scope
    ensures ScopeOf(OrphanedKey(card, KeyOf(scope))) == scope
  {
    var key := KeyOf(scope);
    ConstructedKeysAreLive(scope);
    LiveScope(scope);
    RetiringKeepsTheLivePart(card, key);
  }

  lemma RetiringKeepsTheLivePart(card: nat, key: DedupeKey)
    ensures LivePart(SupersededKey(card, key)) == key && RetirementOf(SupersededKey(card, key)) == Some(Superseded)
    ensures LivePart(OrphanedKey(card, key)) == key && RetirementOf(OrphanedKey(card, key)) == Some(Orphaned)
  {
    NaturalsAreDistinct(card, card);
    SplitOnceFindsTheFirst(Decimal(card), ':', key);
    var rest := Decimal(card) + ":" + key;
    assert SupersededKey(card, key)[|SUPERSEDED_PREFIX|..] == rest;
    assert OrphanedKey(card, key)[|ORPHANED_PREFIX|..] == rest;
    assert OrphanedKey(card, key)[0] != SUPERSEDED_PREFIX[0];
  }

  // Keys of different kinds or contents never collide, live or retired.
  lemma KeysNeverCollide(a: KeyScope, b: KeyScope)
    requires WellFormed(a) && WellFormed(b)
    ensures KeyOf(a) == KeyOf(b) <==> a == b
  {
    ScopeUndoesTheConstructors(a, 0);
    ScopeUndoesTheConstructors(b, 0);
  }

  lemma RetiredKeysNeverCollide(a: nat, aKey: DedupeKey, b: nat, bKey: DedupeKey)
    requires a != b
    ensures SupersededKey(a, aKey) != SupersededKey(b, bKey)
    ensures OrphanedKey(a, aKey) != OrphanedKey(b, bKey)
    ensures SupersededKey(a, aKey) != OrphanedKey(b, bKey)
  {
    NaturalsAreDistinct(a, b);
    NaturalsAreDistinct(b, a);
    SplitOnceFindsTheFirst(Decimal(a), ':', aKey);
    SplitOnceFindsTheFirst(Decimal(b), ':', bKey);
    var aRest, bRest := Decimal(a) + ":" + aKey, Decimal(b) + ":" + bKey;
    assert SupersededKey(a, aKey)[|SUPERSEDED_PREFIX|..] == aRest;
    assert SupersededKey(b, bKey)[|SUPERSEDED_PREFIX|..] == bRest;
    assert OrphanedKey(a, aKey)[|ORPHANED_PREFIX|..] == aRest;
    assert OrphanedKey(b, bKey)[|ORPHANED_PREFIX|..] == bRest;
    assert SupersededKey(a, aKey)[0] != OrphanedKey(b, bKey)[0];
  }

  // The promise ends at one retirement. A card that is replaced and whose message is then deleted
  // carries two prefixes, and its scope is no longer recognised.
  lemma TwoRetirementsHideTheScope(card: nat, scope: KeyScope)
    requires WellFormed(scope)
    ensures ScopeOf(OrphanedKey(card, SupersededKey(card, KeyOf(scope)))) == Unrecognised
  {
    var once := SupersededKey(card, KeyOf(scope));
    RetiringKeepsTheLivePart(card, once);
    assert once[0] == 's';
  }

  // A key's worker lane.
  function Lane(key: DedupeKey, lanes: nat): (r: nat)
    ensures lanes > 0 ==> r < lanes
  {
    if lanes <= 1 then 0 else Fnv(FNV_OFFSET, Utf8(key)) % lanes
  }

  // The second a digest window opens, for windows of at least one second.
  function WindowStart(seconds: int, window: int): int {
    var width := if window < 1 then 1 else window;
    seconds - seconds % width
  }

  lemma SameWindow(a: int, b: int, width: int)
    requires width >= 1
    ensures a - a % width == b - b % width <==> a / width == b / width
  {
    assert a == width * (a / width) + a % width;
    assert b == width * (b / width) + b % width;
    var p, q := a / width, b / width;
    if width * p == width * q {
      assert width * (p - q) == 0;
    }
  }

  // Two instants share a route's digest key exactly when they fall in the same window.
  lemma DigestKeysFollowTheWindow(routeId: int, a: int, b: int, window: int)
    requires IsI64(routeId) && IsTimestamp(WindowStart(a, window)) && IsTimestamp(WindowStart(b, window))
    ensures
      var width := if window < 1 then 1 else window;
      DigestKey(routeId, WindowStart(a, window)) == DigestKey(routeId, WindowStart(b, window))
      <==> a / width == b / width
  {
    KeysNeverCollide(Digest(routeId, WindowStart(a, window)), Digest(routeId, WindowStart(b, window)));
    SameWindow(a, b, if window < 1 then 1 else window);
  }
}
