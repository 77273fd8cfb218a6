/** Fitting a card into Discord's limits, counted in UTF-16 code units. */
module Rendering {
  import opened Wrappers

  const EMBED_BUDGET: nat := 6000
  const FIELD_COUNT_LIMIT: nat := 25
  const DESCRIPTION_LIMIT: nat := 4096
  const MARKER: char := '\U{2026}'
  const SHOW_ALL: string := "\n\U{2026} `/alerts show` for all"
  const TRUNCATED_NAME: string := "Truncated"
  const TRUNCATED_LEAD: string := "Some fields did not fit \U{2014} "
  const TRUNCATED_REST: string := "`/alerts show` has all of them"
  const TRUNCATED_TEXT: string := TRUNCATED_LEAD + TRUNCATED_REST

  function CharUnits(c: char): nat {
    if c as int >= 0x1_0000 then 2 else 1
  }

  function Units(s: string): nat {
    if s == [] then 0 else Units(s[..|s| - 1]) + CharUnits(s[|s| - 1])
  }

  lemma {:induction false} UnitsSplit(a: string, b: string)
    ensures Units(a + b) == Units(a) + Units(b)
  {
    if b == [] {
      assert a + b == a;
    } else {
      assert (a + b)[..|a + b| - 1] == a + b[..|b| - 1];
      UnitsSplit(a, b[..|b| - 1]);
    }
  }

  lemma UnitsGrow(s: string, m: nat, n: nat)
    requires m <= n <= |s|
    ensures Units(s[..m]) <= Units(s[..n])
    ensures m < n ==> Units(s[..m]) < Units(s[..n])
  {
    assert s[..n] == s[..m] + s[m..n];
    UnitsSplit(s[..m], s[m..n]);
    if m < n {
      var rest := s[m..n];
      assert Units(rest) >= CharUnits(rest[|rest| - 1]);
    }
  }

  // ---- Cutting a string

  function Saturating(a: nat, b: nat): nat {
    if a >= b then a - b else 0
  }

  // `n` characters fit, and one more would not.
  predicate IsLongest(s: string, budget: nat, n: nat) {
    n <= |s| && Units(s[..n]) <= budget && (n < |s| ==> Units(s[..n + 1]) > budget)
  }

  lemma LongestIsLongest(s: string, budget: nat, n: nat, other: nat)
    requires IsLongest(s, budget, n) && other <= |s|
    ensures Units(s[..other]) <= budget <==> other <= n
  {
    if other <= n {
      UnitsGrow(s, other, n);
    } else {
      UnitsGrow(s, n + 1, other);
    }
  }

  ghost predicate IsTruncated(value: string, limit: nat, cut: string) {
    if Units(value) <= limit then cut == value
    else exists n: nat :: IsLongest(value, Saturating(limit, 1), n) && cut == value[..n] + [MARKER]
  }

  method Truncate(value: string, limit: nat) returns (cut: string)
    ensures IsTruncated(value, limit, cut)
  {
    if Units(value) <= limit {
      return value;
    }
    var budget := Saturating(limit, CharUnits(MARKER));
    var used, end := 0, 0;
    for index := 0 to |value|
      invariant end == index && used == Units(value[..index]) <= budget
    {
      assert value[..index + 1][..index] == value[..index];
      used := used + CharUnits(value[index]);
      if used > budget {
        break;
      }
      end := index + 1;
    }
    assert value[..|value|] == value;
    assert end < |value| ==> IsLongest(value, budget, end);
    cut := value[..end] + [MARKER];
  }

  // The answer is the string itself, or a prefix and the marker. It fits its limit whenever the
  // limit has room for a marker at all.
  lemma TruncationFits(value: string, limit: nat, cut: string)
    requires IsTruncated(value, limit, cut)
    ensures Units(cut) <= limit <==> limit >= 1 || value == ""
  {
    if Units(value) > limit {
      var n: nat :| IsLongest(value, Saturating(limit, 1), n) && cut == value[..n] + [MARKER];
      OneMarker(value[..n]);
    } else if limit == 0 && value != "" {
      assert Units(value) >= CharUnits(value[|value| - 1]);
    }
  }

  // No longer prefix of a string that had to be cut would have fitted beside the marker.
  lemma TruncationKeepsMost(value: string, limit: nat, cut: string, m: nat)
    requires IsTruncated(value, limit, cut) && Units(value) > limit && m <= |value|
    requires Units(value[..m] + [MARKER]) <= limit
    ensures m < |cut| && value[..m] <= cut
  {
    var n: nat :| IsLongest(value, Saturating(limit, 1), n) && cut == value[..n] + [MARKER];
    OneMarker(value[..m]);
    LongestIsLongest(value, Saturating(limit, 1), n, m);
  }

  lemma OneMarker(s: string)
    ensures Units(s + [MARKER]) == Units(s) + 1
  {
    assert (s + [MARKER])[..|s|] == s;
  }

  // ---- The description

  // Twenty-four units are set aside for a suffix of twenty-five.
  const RESERVED: nat := 24

  method Description(text: string, configured: nat) returns (r: string)
    ensures
      var budget := if configured < DESCRIPTION_LIMIT then configured else DESCRIPTION_LIMIT;
      if Units(text) <= budget then r == text
      else exists cut :: IsTruncated(text, Saturating(budget, RESERVED), cut) && r == cut + SHOW_ALL
  {
    var budget := if configured < DESCRIPTION_LIMIT then configured else DESCRIPTION_LIMIT;
    if Units(text) <= budget {
      return text;
    }
    var cut := Truncate(text, Saturating(budget, RESERVED));
    r := cut + SHOW_ALL;
  }

  lemma SuffixUnits()
    ensures Units(SHOW_ALL) == 25
  {
    AllSingle(SHOW_ALL);
  }

  lemma {:induction false} AllSingle(s: string)
    requires forall i :: 0 <= i < |s| ==> CharUnits(s[i]) == 1
    ensures Units(s) == |s|
  {
    if s != [] {
      AllSingle(s[..|s| - 1]);
    }
  }

  // What is kept of a text that had to be cut, in units.
  lemma CutUnits(text: string, limit: nat, cut: string, n: nat)
    requires Units(text) > limit && IsTruncated(text, limit, cut) && IsLongest(text, Saturating(limit, 1), n)
    ensures Units(cut) == Units(text[..n]) + 1
  {
    var m: nat :| IsLongest(text, Saturating(limit, 1), m) && cut == text[..m] + [MARKER];
    LongestIsLongest(text, Saturating(limit, 1), n, m);
    LongestIsLongest(text, Saturating(limit, 1), m, n);
    OneMarker(text[..m]);
  }

  // A shortened description runs one unit over its budget, unless a character of two units at the
  // cut left one free; under twenty-five units there is no room for the suffix at all.
  lemma ShortenedDescriptionFitsWhen(text: string, budget: nat, cut: string, n: nat)
    requires Units(text) > budget && IsTruncated(text, Saturating(budget, RESERVED), cut)
    requires IsLongest(text, Saturating(budget, RESERVED + 1), n)
    ensures Units(cut + SHOW_ALL) <= budget <==> budget > 25 && Units(text[..n]) < budget - 25
    ensures budget >= 25 ==> Units(cut + SHOW_ALL) <= budget + 1
  {
    assert Saturating(Saturating(budget, RESERVED), 1) == Saturating(budget, RESERVED + 1);
    CutUnits(text, Saturating(budget, RESERVED), cut, n);
    SuffixUnits();
    UnitsSplit(cut, SHOW_ALL);
  }

  // ---- The embed

  datatype Field = Field(name: string, value: string, wide: bool) {
    function Size(): nat {
      Units(name) + Units(value)
    }
  }

  const TRUNCATED: Field := Field(TRUNCATED_NAME, TRUNCATED_TEXT, false)

  function Sizes(fields: seq<Field>): nat {
    if fields == [] then 0 else Sizes(fields[..|fields| - 1]) + fields[|fields| - 1].Size()
  }

  // The first `n` fields can stay: few enough, and small enough beside the rest of the embed.
  predicate Fits(fixed: nat, fields: seq<Field>, n: nat)
    requires n <= |fields|
  {
    n <= FIELD_COUNT_LIMIT && (n == 0 || fixed + Sizes(fields[..n]) <= EMBED_BUDGET)
  }

  predicate IsMost(fixed: nat, fields: seq<Field>, n: nat) {
    n <= |fields| && Fits(fixed, fields, n) && forall m :: n < m <= |fields| ==> !Fits(fixed, fields, m)
  }

  function Marked(fields: seq<Field>, n: nat): seq<Field>
    requires n <= |fields|
  {
    fields[..n] + if n < |fields| && n < FIELD_COUNT_LIMIT then [TRUNCATED] else []
  }

  class Embed {
    var title: string
    var description: string
    var footer: string
    var fields: seq<Field>

    constructor (title: string, description: string, footer: string, fields: seq<Field>)
      ensures this.title == title && this.description == description && this.footer == footer && this.fields == fields
    {
      this.title, this.description, this.footer, this.fields := title, description, footer, fields;
    }

    function Fixed(): nat
      reads this
    {
      Units(title) + Units(description) + Units(footer)
    }

    // Shortens the list of fields from its end, then appends the marker unless the list is full.
    method Budget() returns (ghost kept: nat)
      modifies this`fields
      ensures IsMost(Fixed(), old(fields), kept)
      ensures fields == Marked(old(fields), kept)
    {
      var total := Fixed() + Sizes(fields);
      var dropped := false;
      kept := |fields|;
      assert fields[..|fields|] == fields;
      while |fields| > FIELD_COUNT_LIMIT || (total > EMBED_BUDGET && fields != [])
        invariant kept == |fields| <= |old(fields)| && fields == old(fields)[..kept]
        invariant total == Fixed() + Sizes(fields)
        invariant dropped <==> kept < |old(fields)|
        invariant forall m :: kept < m <= |old(fields)| ==> !Fits(Fixed(), old(fields), m)
        decreases |fields|
      {
        var last := fields[|fields| - 1];
        assert last.Size() <= total;
        fields := fields[..|fields| - 1];
        total := total - last.Size();
        dropped := true;
        kept := kept - 1;
      }
      if dropped && |fields| < FIELD_COUNT_LIMIT {
        fields := fields + [TRUNCATED];
      }
    }
  }

  // What is kept is a prefix of at most twenty-five entries, marker included, and before the marker
  // the embed is within budget or has no fields left.
  lemma BudgetHolds(fixed: nat, fields: seq<Field>, n: nat)
    requires IsMost(fixed, fields, n)
    ensures fields[..n] <= Marked(fields, n) && |Marked(fields, n)| <= 25
    ensures n > 0 ==> fixed + Sizes(fields[..n]) <= 6000
    ensures n == |fields| <==> Fits(fixed, fields, |fields|)
  {
  }

  lemma MarkerSize()
    ensures TRUNCATED.Size() == 65
  {
    AllSingle(TRUNCATED_NAME);
    AllSingle(TRUNCATED_LEAD);
    AllSingle(TRUNCATED_REST);
    UnitsSplit(TRUNCATED_LEAD, TRUNCATED_REST);
  }

  lemma OneMoreField(fields: seq<Field>, field: Field)
    ensures Sizes(fields + [field]) == Sizes(fields) + field.Size()
  {
    assert (fields + [field])[..|fields|] == fields;
  }

  lemma {:induction false} MoreFieldsAreLarger(fields: seq<Field>, a: nat, b: nat)
    requires a <= b <= |fields|
    ensures Sizes(fields[..a]) <= Sizes(fields[..b])
    decreases b
  {
    if a < b {
      MoreFieldsAreLarger(fields, a, b - 1);
      assert fields[..b][..b - 1] == fields[..b - 1];
    }
  }

  // Entry `n` is the first that crosses the budget, and what stands before it comes within
  // sixty-four units of it.
  predicate TightAt(fixed: nat, fields: seq<Field>, n: nat) {
    && n < |fields| && n < FIELD_COUNT_LIMIT
    && fixed + Sizes(fields[..n]) > EMBED_BUDGET - 65
    && (n == 0 || fixed + Sizes(fields[..n]) <= EMBED_BUDGET)
    && fixed + Sizes(fields[..n + 1]) > EMBED_BUDGET
  }

  lemma TightWhereItStops(fixed: nat, fields: seq<Field>, n: nat, kept: nat)
    requires TightAt(fixed, fields, n) && IsMost(fixed, fields, kept)
    ensures kept == n
  {
    assert Fits(fixed, fields, n);
    if kept > n {
      MoreFieldsAreLarger(fields, n + 1, kept);
    }
  }

  // The marker is added without another look at the budget, so an embed ends up over it exactly when
  // some entry among the first twenty-five crosses the budget with no room left for the marker
  // before it, or when there were no entries to drop from an embed already over it.
  lemma OverflowsWhen(fixed: nat, fields: seq<Field>, kept: nat)
    requires IsMost(fixed, fields, kept)
    ensures
      fixed + Sizes(Marked(fields, kept)) > EMBED_BUDGET <==>
      (exists n: nat :: TightAt(fixed, fields, n)) || (fields == [] && fixed > EMBED_BUDGET)
    ensures kept < |fields| && kept == FIELD_COUNT_LIMIT ==> Marked(fields, kept) == fields[..FIELD_COUNT_LIMIT]
  {
    MarkerSize();
    OneMoreField(fields[..kept], TRUNCATED);
    assert fields[..kept] + [] == fields[..kept];
    if n: nat :| TightAt(fixed, fields, n) {
      TightWhereItStops(fixed, fields, n, kept);
    }
    if kept < |fields| && kept < FIELD_COUNT_LIMIT && fixed + Sizes(fields[..kept]) > EMBED_BUDGET - 65 {
      assert !Fits(fixed, fields, kept + 1);
      assert TightAt(fixed, fields, kept);
    }
  }

  function Blank(n: nat): string {
    seq(n, _ => ' ')
  }

  lemma BlankUnits(n: nat)
    ensures Units(Blank(n)) == n
  {
    AllSingle(Blank(n));
  }

  lemma SecondFieldDoesNotFit(fields: seq<Field>)
    requires |fields| == 2 && fields[0].Size() <= EMBED_BUDGET < fields[0].Size() + fields[1].Size()
    ensures IsMost(0, fields, 1)
    ensures fields[0].Size() > EMBED_BUDGET - 65 ==> TightAt(0, fields, 1)
  {
    OneMoreField([], fields[0]);
    OneMoreField([fields[0]], fields[1]);
    assert [] + [fields[0]] == fields[..1] && fields[..1] + [fields[1]] == fields[..2] == fields;
  }

  lemma BlankField(n: nat) returns (field: Field)
    ensures field.Size() == n
  {
    field := Field(Blank(n), "", false);
    BlankUnits(n);
  }

  // Telling the reader that a field is missing can itself break the budget.
  lemma MarkerCanOverflow() returns (fields: seq<Field>)
    ensures IsMost(0, fields, 1) && |fields| == 2
    ensures Sizes(Marked(fields, 1)) > EMBED_BUDGET
  {
    var a := BlankField(5990);
    var b := BlankField(20);
    fields := [a, b];
    SecondFieldDoesNotFit(fields);
    OverflowsWhen(0, fields, 1);
  }
}
