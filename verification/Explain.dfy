/** Why two cards are two cards: the decision read backwards. */
module Explain {
  import opened Wrappers
  import opened States
  import opened Labels
  import opened Identity
  import opened DedupeKeys
  import opened Alerts
  import opened Routing
  import opened Effects
  import opened Decide
  import opened CardStore
  import opened CardRuns
  import opened CardKeys

  // One side of the comparison: a card, and what could still be read about it.
  datatype Facts = Facts(card: Notification, alert: Option<Alert>, route: Option<Route>)

  datatype Strategy = OwnCard | GroupCard | DigestCard | StormDigest | NoStrategy

  datatype LabelDifference = LabelDifference(name: Text, first: Option<Text>, second: Option<Text>)

  datatype Separation =
    | SameCard
    | DifferentChannels(firstChannel: nat, secondChannel: nat)
    | Replaced(older: CardId, newer: CardId)
    | Retired(card: CardId, why: Retirement)
    | DifferentStrategies(firstStrategy: Strategy, secondStrategy: Strategy)
    | DifferentIdentities(differences: set<LabelDifference>)
    | KeyedBeforePolicy
    | DifferentGroups(context: set<LabelDifference>)
    | DifferentDigestRoutes
    | DifferentDigestWindows(firstWindow: int, secondWindow: int)
    | AlertUnknown
    | Unexplained

  // Only a storm puts a card under a digest key where the route asks for something else.
  function StrategyOf(scope: KeyScope, route: Option<Route>): Strategy {
    match scope
    case Alert(_) => OwnCard
    case Group(_) => GroupCard
    case Digest(_, _) => if route.Some? && !route.value.strategy.Digest? then StormDigest else DigestCard
    case Unrecognised => NoStrategy
  }

  function DifferencesOf(a: Labels, b: Labels): set<LabelDifference> {
    set pair | pair in a + b && Get(a, pair.name) != Get(b, pair.name) ::
      LabelDifference(pair.name, Get(a, pair.name), Get(b, pair.name))
  }

  function Counted(a: Labels, b: Labels, policy: IdentityPolicy): set<LabelDifference> {
    set d | d in DifferencesOf(a, b) && !policy.Ignores(d.name)
  }

  function Explain(first: Facts, second: Facts, settings: DecisionSettings): Separation {
    ExplainCards(first, second, RetirementOf(first.card.dedupeKey), RetirementOf(second.card.dedupeKey),
                 ScopeOf(first.card.dedupeKey), ScopeOf(second.card.dedupeKey), settings)
  }

  // The comparison once both keys have been read.
  function ExplainCards(
    first: Facts, second: Facts, retiredA: Option<Retirement>, retiredB: Option<Retirement>, left: KeyScope, right: KeyScope,
    settings: DecisionSettings)
    : Separation
  {
    var a, b := first.card, second.card;
    if a.id == b.id then SameCard
    else if a.channel != b.channel then DifferentChannels(a.channel, b.channel)
    else if b.supersedes == Some(a.id) then Replaced(a.id, b.id)
    else if a.supersedes == Some(b.id) then Replaced(b.id, a.id)
    else if retiredA.Some? then Retired(a.id, retiredA.value)
    else if retiredB.Some? then Retired(b.id, retiredB.value)
    else ExplainScopes(left, right, first, second, settings)
  }

  // What tells two live keys apart.
  function ExplainScopes(left: KeyScope, right: KeyScope, first: Facts, second: Facts, settings: DecisionSettings)
    : Separation
  {
    if left.Alert? && right.Alert? then
      if first.alert.None? || second.alert.None? then AlertUnknown
      else if settings.Identity(first.alert.value) == settings.Identity(second.alert.value) then KeyedBeforePolicy
      else DifferentIdentities(Counted(first.alert.value.labels, second.alert.value.labels, settings.identity))
    else if left.Group? && right.Group? && left != right then
      DifferentGroups(
        if first.alert.Some? && second.alert.Some?
        then DifferencesOf(first.alert.value.labels, second.alert.value.labels) else {})
    else if left.Digest? && right.Digest? then
      if left.routeId != right.routeId then DifferentDigestRoutes
      else if left.window != right.window then DifferentDigestWindows(left.window, right.window)
      else Unexplained
    else
      var l, r := StrategyOf(left, first.route), StrategyOf(right, second.route);
      if l == r then Unexplained else DifferentStrategies(l, r)
  }

  lemma DifferencesAreLookups(a: Labels, b: Labels, name: Text)
    ensures LabelDifference(name, Get(a, name), Get(b, name)) in DifferencesOf(a, b) <==> Get(a, name) != Get(b, name)
  {
    GetMeansMember(a, name);
    GetMeansMember(b, name);
    if Get(a, name) != Get(b, name) {
      var pair := if Get(a, name).Some? then Label(name, Get(a, name).value) else Label(name, Get(b, name).value);
      assert pair in a + b;
    }
  }

  // Two live keys one channel can hold at once say where they come from, and say it differently.
  lemma LiveKeysDifferInScope(a: DedupeKey, b: DedupeKey)
    requires LiveKey(a) && LiveKey(b) && a != b
    ensures ScopeOf(a) != ScopeOf(b) && !ScopeOf(a).Unrecognised? && !ScopeOf(b).Unrecognised?
  {
    var x :| WellFormed(x) && a == KeyOf(x);
    var y :| WellFormed(y) && b == KeyOf(y);
    ScopeUndoesTheConstructors(x, 0);
    ScopeUndoesTheConstructors(y, 0);
  }

  lemma RetiredKeysSaySo(card: Notification)
    requires RetiredKey(card)
    ensures RetirementOf(card.dedupeKey).Some?
  {
    var key :| card.dedupeKey == SupersededKey(card.id, key) || card.dedupeKey == OrphanedKey(card.id, key);
    RetiringKeepsTheLivePart(card.id, key);
  }

  ghost predicate FactsOf(t: Tables, f: Facts) {
    f.card.id in t.cards && t.cards[f.card.id] == f.card
  }

  // Any two cards of any store the decision can produce are told apart, through storms and changes
  // of every setting, whatever has become of their alerts and routes, and however the policy stands.
  lemma NothingIsUnexplained(steps: seq<CardStep>, t: Tables, first: Facts, second: Facts, settings: DecisionSettings)
    requires Reaches(NO_TABLES, steps, t) && forall s :: s in steps ==> Fitting(s)
    requires FactsOf(t, first) && FactsOf(t, second)
    ensures !Explain(first, second, settings).Unexplained?
  {
    RunsKeepKeys(NO_TABLES, steps, t);
    KeyedTablesExplain(t, first, second, settings);
  }

  lemma DifferentScopesExplain(left: KeyScope, right: KeyScope, first: Facts, second: Facts, settings: DecisionSettings)
    requires left != right && !left.Unrecognised? && !right.Unrecognised?
    ensures !ExplainScopes(left, right, first, second, settings).Unexplained?
  {
  }

  // Once a card gave its key up the comparison of keys is never reached.
  lemma RetirementExplains(
    first: Facts, second: Facts, retiredA: Option<Retirement>, retiredB: Option<Retirement>, left: KeyScope, right: KeyScope,
    settings: DecisionSettings)
    requires retiredA.Some? || retiredB.Some?
    ensures !ExplainCards(first, second, retiredA, retiredB, left, right, settings).Unexplained?
  {
  }

  lemma ScopesExplain(
    first: Facts, second: Facts, retiredA: Option<Retirement>, retiredB: Option<Retirement>, left: KeyScope, right: KeyScope,
    settings: DecisionSettings)
    requires left != right && !left.Unrecognised? && !right.Unrecognised?
    ensures !ExplainCards(first, second, retiredA, retiredB, left, right, settings).Unexplained?
  {
    DifferentScopesExplain(left, right, first, second, settings);
  }

  lemma LiveKeysExplain(first: Facts, second: Facts, settings: DecisionSettings)
    requires LiveKey(first.card.dedupeKey) && LiveKey(second.card.dedupeKey)
    requires first.card.dedupeKey != second.card.dedupeKey
    ensures !Explain(first, second, settings).Unexplained?
  {
    LiveKeysDifferInScope(first.card.dedupeKey, second.card.dedupeKey);
    ScopesExplain(first, second, RetirementOf(first.card.dedupeKey), RetirementOf(second.card.dedupeKey),
                  ScopeOf(first.card.dedupeKey), ScopeOf(second.card.dedupeKey), settings);
  }

  lemma RetiredCardsExplain(first: Facts, second: Facts, settings: DecisionSettings)
    requires RetiredKey(first.card) || RetiredKey(second.card)
    ensures !Explain(first, second, settings).Unexplained?
  {
    if RetiredKey(first.card) {
      RetiredKeysSaySo(first.card);
    } else {
      RetiredKeysSaySo(second.card);
    }
    RetirementExplains(first, second, RetirementOf(first.card.dedupeKey), RetirementOf(second.card.dedupeKey),
                       ScopeOf(first.card.dedupeKey), ScopeOf(second.card.dedupeKey), settings);
  }

  lemma KeyedRowsExplain(first: Facts, second: Facts, settings: DecisionSettings)
    requires LiveKey(first.card.dedupeKey) || RetiredKey(first.card)
    requires LiveKey(second.card.dedupeKey) || RetiredKey(second.card)
    requires first.card.dedupeKey != second.card.dedupeKey
    ensures !Explain(first, second, settings).Unexplained?
  {
    if RetiredKey(first.card) || RetiredKey(second.card) {
      RetiredCardsExplain(first, second, settings);
    } else {
      LiveKeysExplain(first, second, settings);
    }
  }

  lemma KeyedTablesExplain(t: Tables, first: Facts, second: Facts, settings: DecisionSettings)
    requires KeysSound(t) && FactsOf(t, first) && FactsOf(t, second)
    ensures !Explain(first, second, settings).Unexplained?
  {
    if first.card.id != second.card.id && first.card.channel == second.card.channel {
      KeyedRowsExplain(first, second, settings);
    }
  }

  // What each answer claims of two cards with live keys, in terms of how those keys are made.
  ghost predicate AnswerIsTrue(first: Facts, second: Facts, x: KeyScope, y: KeyScope, settings: DecisionSettings) {
    match Explain(first, second, settings)
    case SameCard => first.card.id == second.card.id
    case DifferentChannels(a, b) => a == first.card.channel && b == second.card.channel && a != b
    case Replaced(older, newer) =>
      || (older == first.card.id && newer == second.card.id && second.card.supersedes == Some(older))
      || (older == second.card.id && newer == first.card.id && first.card.supersedes == Some(older))
    case Retired(_, _) => false
    case DifferentStrategies(l, r) =>
      && l != r && (l.OwnCard? <==> x.Alert?) && (l.GroupCard? <==> x.Group?) && (l.DigestCard? || l.StormDigest? <==> x.Digest?)
      && (r.OwnCard? <==> y.Alert?) && (r.GroupCard? <==> y.Group?) && (r.DigestCard? || r.StormDigest? <==> y.Digest?)
      && (l.StormDigest? ==> first.route.Some? && !first.route.value.strategy.Digest?)
      && (r.StormDigest? ==> second.route.Some? && !second.route.value.strategy.Digest?)
    case DifferentIdentities(_) =>
      x.Alert? && y.Alert? && first.alert.Some? && second.alert.Some?
      && settings.Identity(first.alert.value) != settings.Identity(second.alert.value)
    case KeyedBeforePolicy =>
      x.Alert? && y.Alert? && x != y && first.alert.Some? && second.alert.Some?
      && settings.Identity(first.alert.value) == settings.Identity(second.alert.value)
    case DifferentGroups(context) =>
      && x.Group? && y.Group? && x != y
      && (forall d :: d in context ==>
            && first.alert.Some? && second.alert.Some? && d.first != d.second
            && d.first == Get(first.alert.value.labels, d.name) && d.second == Get(second.alert.value.labels, d.name))
    case DifferentDigestRoutes => x.Digest? && y.Digest? && x.routeId != y.routeId
    case DifferentDigestWindows(u, v) => x.Digest? && y.Digest? && x.routeId == y.routeId && u == x.window && v == y.window && u != v
    case AlertUnknown => x.Alert? && y.Alert? && (first.alert.None? || second.alert.None?)
    case Unexplained => false
  }

  lemma ScopeAnswersAreTrue(first: Facts, second: Facts, x: KeyScope, y: KeyScope, settings: DecisionSettings)
    requires x != y && !x.Unrecognised? && !y.Unrecognised?
    requires Explain(first, second, settings) == ExplainScopes(x, y, first, second, settings)
    ensures AnswerIsTrue(first, second, x, y, settings)
  {
    if x.Group? && y.Group? && first.alert.Some? && second.alert.Some? {
      DifferencesAreAllLookups(first.alert.value.labels, second.alert.value.labels);
    }
  }

  lemma CardAnswersAreTrue(
    first: Facts, second: Facts, x: KeyScope, y: KeyScope, settings: DecisionSettings, answer: Separation)
    requires Explain(first, second, settings) == answer
    requires answer == ExplainCards(first, second, None, None, x, y, settings)
    requires !x.Unrecognised? && !y.Unrecognised?
    requires first.card.id != second.card.id && first.card.channel == second.card.channel ==> x != y
    ensures AnswerIsTrue(first, second, x, y, settings)
  {
    var a, b := first.card, second.card;
    if a.id != b.id && a.channel == b.channel && b.supersedes != Some(a.id) && a.supersedes != Some(b.id) {
      ScopeAnswersAreTrue(first, second, x, y, settings);
    }
  }

  // Two cards with live keys that differ, or the same one: whatever is answered is so.
  lemma AnswersAreTrue(first: Facts, second: Facts, x: KeyScope, y: KeyScope, settings: DecisionSettings)
    requires WellFormed(x) && WellFormed(y) && first.card.dedupeKey == KeyOf(x) && second.card.dedupeKey == KeyOf(y)
    requires first.card.id != second.card.id && first.card.channel == second.card.channel ==>
      first.card.dedupeKey != second.card.dedupeKey
    ensures AnswerIsTrue(first, second, x, y, settings)
  {
    var answer := ReadBothKeys(first, second, x, y, settings);
    CardAnswersAreTrue(first, second, x, y, settings, answer);
  }

  lemma ReadBothKeys(first: Facts, second: Facts, x: KeyScope, y: KeyScope, settings: DecisionSettings)
    returns (answer: Separation)
    requires WellFormed(x) && WellFormed(y) && first.card.dedupeKey == KeyOf(x) && second.card.dedupeKey == KeyOf(y)
    ensures answer == Explain(first, second, settings) == ExplainCards(first, second, None, None, x, y, settings)
    ensures !x.Unrecognised? && !y.Unrecognised?
  {
    LiveScopeIsRead(x);
    LiveScopeIsRead(y);
    answer := Explain(first, second, settings);
  }

  lemma LiveScopeIsRead(x: KeyScope)
    requires WellFormed(x)
    ensures ScopeOf(KeyOf(x)) == x && RetirementOf(KeyOf(x)).None? && !x.Unrecognised?
  {
    ScopeUndoesTheConstructors(x, 0);
    ConstructedKeysAreLive(x);
  }

  lemma RetiredIsRead(
    first: Facts, second: Facts, retiredA: Option<Retirement>, retiredB: Option<Retirement>, left: KeyScope, right: KeyScope,
    settings: DecisionSettings, card: CardId, why: Retirement)
    requires ExplainCards(first, second, retiredA, retiredB, left, right, settings) == Separation.Retired(card, why)
    ensures
      || (card == first.card.id && retiredA == Some(why))
      || (card == second.card.id && retiredB == Some(why) && retiredA.None?)
  {
  }

  // A card said to be retired has given its key up, and in the way that is said.
  lemma RetirementsAreTrue(first: Facts, second: Facts, settings: DecisionSettings, card: CardId, why: Retirement)
    requires Explain(first, second, settings) == Separation.Retired(card, why)
    ensures
      || (card == first.card.id && RetirementOf(first.card.dedupeKey) == Some(why))
      || (card == second.card.id && RetirementOf(second.card.dedupeKey) == Some(why) && RetirementOf(first.card.dedupeKey).None?)
  {
    RetiredIsRead(
      first, second, RetirementOf(first.card.dedupeKey), RetirementOf(second.card.dedupeKey),
      ScopeOf(first.card.dedupeKey), ScopeOf(second.card.dedupeKey), settings, card, why);
  }

  lemma ReplacedMeansLinked(first: Facts, second: Facts, settings: DecisionSettings, older: CardId, newer: CardId)
    requires Explain(first, second, settings) == Replaced(older, newer)
    ensures
      || (older == first.card.id && newer == second.card.id && second.card.supersedes == Some(older))
      || (older == second.card.id && newer == first.card.id && first.card.supersedes == Some(older))
  {
  }

  // An answer of replacement is never a guess: the newer card came more than a regroup window
  // after the older one resolved, and nothing else has taken the older one's place.
  lemma ReplacementIsTheTruth(
    t: Tables, regroup: int, first: Facts, second: Facts, settings: DecisionSettings, older: CardId, newer: CardId)
    requires TablesSound(t, regroup) && FactsOf(t, first) && FactsOf(t, second)
    requires Explain(first, second, settings) == Replaced(older, newer)
    ensures newer in t.cards && WasReplaced(t.cards, older, t.cards[newer], regroup)
    ensures forall id :: id in t.cards && t.cards[id].supersedes == Some(older) ==> id == newer
  {
    ReplacedMeansLinked(first, second, settings, older, newer);
    assert t.cards[newer].supersedes == Some(older);
  }

  lemma DifferentIdentitiesMeanAlerts(
    first: Facts, second: Facts, retiredA: Option<Retirement>, retiredB: Option<Retirement>, left: KeyScope, right: KeyScope,
    settings: DecisionSettings, differences: set<LabelDifference>)
    requires ExplainCards(first, second, retiredA, retiredB, left, right, settings) == DifferentIdentities(differences)
    ensures first.alert.Some? && second.alert.Some?
    ensures settings.Identity(first.alert.value) != settings.Identity(second.alert.value)
    ensures differences == Counted(first.alert.value.labels, second.alert.value.labels, settings.identity)
  {
  }

  lemma IdentitiesMeanAlerts(
    first: Facts, second: Facts, settings: DecisionSettings, differences: set<LabelDifference>)
    requires Explain(first, second, settings) == DifferentIdentities(differences)
    ensures first.alert.Some? && second.alert.Some?
    ensures settings.Identity(first.alert.value) != settings.Identity(second.alert.value)
    ensures differences == Counted(first.alert.value.labels, second.alert.value.labels, settings.identity)
  {
    DifferentIdentitiesMeanAlerts(
      first, second, RetirementOf(first.card.dedupeKey), RetirementOf(second.card.dedupeKey),
      ScopeOf(first.card.dedupeKey), ScopeOf(second.card.dedupeKey), settings, differences);
  }

  lemma DifferencesAreAllLookups(a: Labels, b: Labels)
    ensures forall d: LabelDifference ::
      d in DifferencesOf(a, b) <==> d.first == Get(a, d.name) && d.second == Get(b, d.name) && d.first != d.second
  {
    forall d: LabelDifference
      ensures d in DifferencesOf(a, b) <==> d.first == Get(a, d.name) && d.second == Get(b, d.name) && d.first != d.second
    {
      DifferencesAreLookups(a, b, d.name);
    }
  }

  lemma DifferentHashesNeedALabel(a: Labels, b: Labels, policy: IdentityPolicy) returns (name: Text)
    requires policy.IdentityOf(FingerprintOf(a), a) != policy.IdentityOf(FingerprintOf(b), b)
    ensures !policy.Ignores(name) && Get(a, name) != Get(b, name)
  {
    policy.CountedLabelsDecideReduced(a, b);
    policy.IdentityHashesTheCountedLabels(a);
    policy.IdentityHashesTheCountedLabels(b);
    name :| !policy.Ignores(name) && Get(a, name) != Get(b, name);
  }

  // Whether the labels explain two identities: they do when fingerprints are hashes of the labels.
  // The list then names every counted label on which the alerts differ, and is not empty.
  lemma IdentitiesDifferByALabel(
    first: Facts, second: Facts, settings: DecisionSettings, differences: set<LabelDifference>)
    requires Explain(first, second, settings) == DifferentIdentities(differences)
    requires first.alert.Some? && first.alert.value.fingerprint == FingerprintOf(first.alert.value.labels)
    requires second.alert.Some? && second.alert.value.fingerprint == FingerprintOf(second.alert.value.labels)
    ensures differences != {}
    ensures forall d :: d in differences <==>
      && !settings.identity.Ignores(d.name)
      && d.first == Get(first.alert.value.labels, d.name) && d.second == Get(second.alert.value.labels, d.name)
      && d.first != d.second
  {
    var a, b := first.alert.value.labels, second.alert.value.labels;
    IdentitiesMeanAlerts(first, second, settings, differences);
    DifferencesAreAllLookups(a, b);
    var name := DifferentHashesNeedALabel(a, b, settings.identity);
    assert LabelDifference(name, Get(a, name), Get(b, name)) in differences;
  }
}
