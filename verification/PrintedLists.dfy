/** Exactly when a printed list of matchers reads back. */
module PrintedLists {
  import opened Wrappers
  import opened Labels
  import opened Matchers

  // Every value stands on its own, and every one but the last ends outside quotes.
  predicate ListPrintsPlainly(ms: seq<Matcher>) {
    forall i :: 0 <= i < |ms| ==>
      PrintsPlainly(ms[i]) && (i < |ms| - 1 ==> ScanAll(ms[i].value, OUTSIDE) == OUTSIDE)
  }

  // ---- Reading neither adds nor drops a comma

  function Commas(s: string): nat {
    if s == [] then 0 else (if s[0] == ',' then 1 else 0) + Commas(s[1..])
  }

  lemma {:induction false} CommasAdd(a: string, b: string)
    ensures Commas(a + b) == Commas(a) + Commas(b)
  {
    if a == [] {
      assert a + b == b;
    } else {
      assert (a + b)[1..] == a[1..] + b;
      CommasAdd(a[1..], b);
    }
  }

  lemma {:induction false} NoCommas(s: string)
    requires forall c :: c in s ==> c != ','
    ensures Commas(s) == 0
  {
    if s != [] {
      assert s[0] in s && forall c :: c in s[1..] ==> c in s;
      NoCommas(s[1..]);
    }
  }

  lemma {:induction false} TrimStartKeepsCommas(s: string)
    ensures Commas(TrimStart(s)) == Commas(s)
  {
    if s != [] && IsSpace(s[0]) {
      TrimStartKeepsCommas(s[1..]);
    }
  }

  lemma {:induction false} TrimEndKeepsCommas(s: string)
    ensures Commas(TrimEnd(s)) == Commas(s)
  {
    if s != [] && IsSpace(s[|s| - 1]) {
      var n := |s| - 1;
      TrimEndKeepsCommas(s[..n]);
      CommasAdd(s[..n], [s[n]]);
      assert s == s[..n] + [s[n]] && [s[n]][1..] == [];
    }
  }

  lemma TrimKeepsCommas(s: string)
    ensures Commas(Trim(s)) == Commas(s)
  {
    TrimStartKeepsCommas(s);
    TrimEndKeepsCommas(TrimStart(s));
  }

  lemma {:induction false} UnescapeKeepsCommas(s: string, escaped: bool)
    ensures Commas(Unescape(s, escaped)) == Commas(s)
  {
    if s != [] {
      var rest := Unescape(s[1..], !escaped && s[0] == '\\');
      UnescapeKeepsCommas(s[1..], !escaped && s[0] == '\\');
      assert ([s[0]] + rest)[1..] == rest;
    }
  }

  lemma UnquoteKeepsCommas(value: string)
    ensures Commas(Unquote(value)) == Commas(value)
  {
    if IsQuoted(value) {
      var inner := value[1..|value| - 1];
      UnescapeKeepsCommas(inner, false);
      CommasAdd(inner, "\"");
      assert value == ['"'] + (inner + "\"") && "\""[1..] == [];
      assert (['"'] + (inner + "\""))[1..] == inner + "\"";
    }
  }

  lemma NamesHoldNoComma(name: string)
    requires IsLabelName(name)
    ensures Commas(name) == 0
  {
    forall c | c in name ensures c != ',' {
      assert IsNameChar(c);
    }
    NoCommas(name);
  }

  lemma TokensHoldNoComma(op: MatchOp)
    ensures forall c :: c in op.Token() ==> c != ','
  {
  }

  lemma ValuesKeepCommas(part: string, name: string, token: string, rest: string)
    requires part == name + (token + rest) && IsLabelName(Trim(name)) && forall c :: c in token ==> c != ','
    ensures Commas(Unquote(Trim(rest))) == Commas(part)
  {
    NamesHoldNoComma(Trim(name));
    TrimKeepsCommas(name);
    NoCommas(token);
    TrimKeepsCommas(rest);
    UnquoteKeepsCommas(Trim(rest));
    CommasAdd(token, rest);
    CommasAdd(name, token + rest);
  }

  lemma NamesAreChecked(compiles: Compiler, part: string, i: nat, op: MatchOp)
    requires i + |op.Token()| <= |part| && ParseAt(compiles, part, Some((i, op))).Ok?
    ensures IsLabelName(Trim(part[..i]))
  {
  }

  lemma PartIsItsPieces(part: string, i: nat, token: string)
    requires i + |token| <= |part| && part[i..i + |token|] == token
    ensures part == part[..i] + (token + part[i + |token|..])
  {
  }

  lemma OperatorIsThere(part: string)
    ensures
      Operator(part).Some? ==>
        var (i, op) := Operator(part).value;
        i + |op.Token()| <= |part| && part[i..i + |op.Token()|] == op.Token()
  {
    TokenIsThere(part, RegexMatch);
    TokenIsThere(part, RegexNotMatch);
    TokenIsThere(part, NotEqual);
    TokenIsThere(part, Equal);
  }

  lemma TokenIsThere(part: string, op: MatchOp)
    ensures
      FoundAt(part, op).Some? ==>
        var (i, found) := FoundAt(part, op).value;
        found == op && i + |op.Token()| <= |part| && part[i..i + |op.Token()|] == op.Token()
  {
    var at := Find(part, op.Token(), 0);
    if at.Some? {
      assert op.Token() <= part[at.value..];
      assert part[at.value..][..|op.Token()|] == part[at.value..at.value + |op.Token()|];
    }
  }

  // What a matcher was read from: a name, an operator and a value.
  predicate ReadFrom(part: string, i: nat, token: string, value: string) {
    && i + |token| <= |part| && part[i..i + |token|] == token
    && IsLabelName(Trim(part[..i])) && value == Unquote(Trim(part[i + |token|..]))
  }

  lemma PiecesOfAMatcher(compiles: Compiler, part: string, found: Found, m: Matcher) returns (i: nat, op: MatchOp)
    requires found.Some? ==> found.value.0 + |found.value.1.Token()| <= |part|
    requires found.Some? ==> part[found.value.0..found.value.0 + |found.value.1.Token()|] == found.value.1.Token()
    requires ParseAt(compiles, part, found) == Ok(m)
    ensures ReadFrom(part, i, op.Token(), m.value)
  {
    ParsedFromItsParts(compiles, part, found);
    i, op := found.value.0, found.value.1;
    NamesAreChecked(compiles, part, i, op);
  }

  lemma PiecesKeepCommas(part: string, i: nat, token: string, value: string)
    requires ReadFrom(part, i, token, value) && forall c :: c in token ==> c != ','
    ensures Commas(value) == Commas(part)
  {
    PartIsItsPieces(part, i, token);
    ValuesKeepCommas(part, part[..i], token, part[i + |token|..]);
  }

  lemma ReadingKeepsCommas(compiles: Compiler, part: string, m: Matcher)
    requires ParseMatcher(compiles, part) == Ok(m)
    ensures Commas(m.value) == Commas(part)
  {
    OperatorIsThere(part);
    var i, op := PiecesOfAMatcher(compiles, part, Operator(part), m);
    TokensHoldNoComma(op);
    PiecesKeepCommas(part, i, op.Token(), m.value);
  }

  // ---- Parts, from the front

  lemma {:induction false} FrontOfParts(read: Reader, parts: seq<string>)
    requires parts != [] && Trim(parts[0]) != "" && ParseParts(read, parts).Ok?
    ensures
      var ms := ParseParts(read, parts).value;
      && ms != [] && read(Trim(parts[0])) == Ok(ms[0]) && ParseParts(read, parts[1..]) == Ok(ms[1..])
  {
    var n := |parts| - 1;
    if n == 0 {
      assert parts[..0] == [] && parts[1..] == [];
    } else {
      assert parts[..n][0] == parts[0] && parts[..n][1..] == parts[1..][..n - 1] && parts[1..][n - 1] == parts[n];
      FrontOfParts(read, parts[..n]);
      var before := ParseParts(read, parts[..n]).value;
      if Trim(parts[n]) != "" {
        var last := read(Trim(parts[n])).value;
        assert (before + [last])[1..] == before[1..] + [last];
      }
    }
  }

  // Space around a part makes no difference.
  lemma {:induction false} SpacedParts(read: Reader, a: seq<string>, b: seq<string>)
    requires |a| == |b| && forall i :: 0 <= i < |a| ==> Trim(a[i]) == Trim(b[i])
    ensures ParseParts(read, a) == ParseParts(read, b)
  {
    if a != [] {
      SpacedParts(read, a[..|a| - 1], b[..|b| - 1]);
    }
  }

  // A cut within a text is a cut whatever follows.
  lemma {:induction false} FirstCutStays(a: string, b: string, scan: Scan)
    requires !NeverCuts(a, scan)
    ensures Split(a + b, scan)[0] == Split(a, scan)[0] && |Split(a, scan)[0]| < |a|
  {
    assert (a + b)[1..] == a[1..] + b;
    if !scan.Cuts(a[0]) {
      FirstCutStays(a[1..], b, scan.After(a[0]));
    }
  }

  // A scan that starts outside quotes is escaped only inside them.
  lemma {:induction false} EscapesAreQuoted(s: string, scan: Scan)
    requires scan.escaped ==> scan.quoted
    ensures ScanAll(s, scan).escaped ==> ScanAll(s, scan).quoted
  {
    if s != [] {
      EscapesAreQuoted(s[1..], scan.After(s[0]));
    }
  }

  // ---- The first matcher of the list

  lemma ShownStarts(m: Matcher)
    requires IsLabelName(m.name)
    ensures
      var text := ShowMatcher(m);
      text != [] && !IsSpace(text[0]) && text[0] != ',' && text[0] != '{' && text[0] != '"'
  {
    assert m.name[0] in m.name && ShowMatcher(m)[0] == m.name[0];
    assert IsNameChar(m.name[0]);
  }

  lemma StartsAreNotBlank(part: string)
    requires part != [] && !IsSpace(part[0])
    ensures Trim(part) != "" && |Trim(part)| <= |part|
  {
    FirstStaysFirst(part);
    TrimmedStays(part);
  }

  // A matcher does not read from less than what is printed for it.
  lemma ShorterDoesNotRead(compiles: Compiler, m: Matcher, part: string)
    requires |part| < |ShowMatcher(m)|
    ensures ParseMatcher(compiles, Trim(part)) != Ok(m)
  {
    TrimmedStays(part);
    if ParseMatcher(compiles, Trim(part)).Ok? {
      ReadingShrinks(compiles, Trim(part));
    }
  }

  // Nor from what is printed for it and a comma, and more.
  lemma MoreCommasDoNotRead(compiles: Compiler, m: Matcher, part: string, more: string)
    requires IsLabelName(m.name) && part == ShowMatcher(m) + "," + more
    ensures ParseMatcher(compiles, Trim(part)) != Ok(m)
  {
    TrimKeepsCommas(part);
    CommasAdd(ShowMatcher(m) + ",", more);
    CommasAdd(ShowMatcher(m), ",");
    CommasAdd(m.name, m.op.Token() + m.value);
    CommasAdd(m.op.Token(), m.value);
    NamesHoldNoComma(m.name);
    NoCommas(m.op.Token());
    assert ","[1..] == [];
    if ParseMatcher(compiles, Trim(part)) == Ok(m) {
      ReadingKeepsCommas(compiles, Trim(part), m);
    }
  }

  // In one piece it reads exactly when it prints plainly.
  lemma WholeReadsWhen(compiles: Compiler, m: Matcher)
    requires IsValid(compiles, m) && NeverCuts(m.value, OUTSIDE)
    ensures ParseMatcher(compiles, Trim(ShowMatcher(m))) == Ok(m) <==> PrintsPlainly(m)
  {
    var text := ShowMatcher(m);
    TrimmedStays(text);
    if IsTrimmed(text) {
      ValueReadsWhen(compiles, m);
    } else {
      ValueEndsTheText(m);
      if ParseMatcher(compiles, Trim(text)) == Ok(m) {
        ReadingShrinks(compiles, Trim(text));
        TrimmingKeepsLength(text);
      }
    }
  }

  // What follows the first matcher in the list.
  function Rest(ms: seq<Matcher>): string
    requires ms != []
  {
    if |ms| == 1 then "" else "," + (" " + Joined(Shown(ms[1..])))
  }

  lemma JoinedUnfolds(ms: seq<Matcher>)
    requires ms != []
    ensures Joined(Shown(ms)) == ShowMatcher(ms[0]) + Rest(ms)
  {
    assert Shown(ms)[1..] == Shown(ms[1..]);
    assert |ms| == 1 ==> ShowMatcher(ms[0]) + "" == ShowMatcher(ms[0]);
  }

  // The first part of the list is not what is printed for the first matcher, unless that stays in one
  // piece and a comma after it cuts.
  lemma FirstPartWhen(compiles: Compiler, ms: seq<Matcher>)
    requires ms != [] && IsValid(compiles, ms[0])
    requires ParseMatcher(compiles, Trim(Split(Joined(Shown(ms)), OUTSIDE)[0])) == Ok(ms[0])
    ensures NeverCuts(ms[0].value, OUTSIDE) && (|ms| > 1 ==> ScanAll(ms[0].value, OUTSIDE) == OUTSIDE)
  {
    var m, text := ms[0], ShowMatcher(ms[0]);
    JoinedUnfolds(ms);
    LeadScans(m, m.value);
    if !NeverCuts(text, OUTSIDE) {
      FirstCutStays(text, Rest(ms), OUTSIDE);
      ShorterDoesNotRead(compiles, m, Split(text, OUTSIDE)[0]);
    } else if |ms| > 1 && ScanAll(text, OUTSIDE) != OUTSIDE {
      UncutComma(text, " " + Joined(Shown(ms[1..])));
      var more := Split(" " + Joined(Shown(ms[1..])), ScanAll(text + ",", OUTSIDE))[0];
      MoreCommasDoNotRead(compiles, m, text + "," + more, more);
    }
  }

  // A comma inside quotes is one more character of the part.
  lemma UncutComma(text: string, rest: string)
    requires NeverCuts(text, OUTSIDE) && ScanAll(text, OUTSIDE) != OUTSIDE
    ensures Split(text + ("," + rest), OUTSIDE)[0] == text + "," + Split(rest, ScanAll(text + ",", OUTSIDE))[0]
  {
    EscapesAreQuoted(text, OUTSIDE);
    ScansCompose(text, ",", OUTSIDE);
    assert ","[1..] == [];
    UncutStretch(text + ",", rest, OUTSIDE);
    assert text + ("," + rest) == (text + ",") + rest;
  }

  // The parts of the list: what is printed for the first matcher, and the parts of the others.
  lemma PartsOfTheList(read: Reader, ms: seq<Matcher>)
    requires ms != [] && IsLabelName(ms[0].name) && NeverCuts(ms[0].value, OUTSIDE)
    requires |ms| > 1 ==> ScanAll(ms[0].value, OUTSIDE) == OUTSIDE
    ensures
      var parts := Split(Joined(Shown(ms)), OUTSIDE);
      && parts[0] == ShowMatcher(ms[0])
      && ParseParts(read, parts[1..]) == if |ms| == 1 then Ok([]) else ParseParts(read, Split(Joined(Shown(ms[1..])), OUTSIDE))
  {
    var m, text := ms[0], ShowMatcher(ms[0]);
    JoinedUnfolds(ms);
    LeadScans(m, m.value);
    UncutStretch(text, Rest(ms), OUTSIDE);
    assert text + "" == text;
    if |ms| > 1 {
      var others := Split(Joined(Shown(ms[1..])), OUTSIDE);
      CommaSplits(Joined(Shown(ms[1..])));
      assert Split(Joined(Shown(ms)), OUTSIDE)[1..] == Prepend(" ", others);
      LeadingSpaceGoes(others[0]);
      SpacedParts(read, Prepend(" ", others), others);
    }
  }

  // ---- The whole list

  lemma FirstReadsWhen(compiles: Compiler, ms: seq<Matcher>)
    requires ms != [] && IsValid(compiles, ms[0])
    requires ParseParts(MatcherReader(compiles), Split(Joined(Shown(ms)), OUTSIDE)) == Ok(ms)
    ensures PrintsPlainly(ms[0]) && (|ms| > 1 ==> ScanAll(ms[0].value, OUTSIDE) == OUTSIDE)
    ensures
      |ms| > 1 ==> ParseParts(MatcherReader(compiles), Split(Joined(Shown(ms[1..])), OUTSIDE)) == Ok(ms[1..])
  {
    var read, parts := MatcherReader(compiles), Split(Joined(Shown(ms)), OUTSIDE);
    FirstPartStarts(ms);
    FrontOfParts(read, parts);
    FirstPartWhen(compiles, ms);
    PartsOfTheList(read, ms);
    WholeReadsWhen(compiles, ms[0]);
  }

  lemma OneMorePrintsPlainly(ms: seq<Matcher>)
    requires ms != [] && PrintsPlainly(ms[0]) && (|ms| > 1 ==> ScanAll(ms[0].value, OUTSIDE) == OUTSIDE)
    requires ListPrintsPlainly(ms[1..])
    ensures ListPrintsPlainly(ms)
  {
    assert forall i :: 1 <= i < |ms| ==> ms[i] == ms[1..][i - 1];
  }

  lemma {:induction false} PartsReadWhen(compiles: Compiler, ms: seq<Matcher>)
    requires forall m :: m in ms ==> IsValid(compiles, m)
    requires ms != [] && ParseParts(MatcherReader(compiles), Split(Joined(Shown(ms)), OUTSIDE)) == Ok(ms)
    ensures ListPrintsPlainly(ms)
    decreases |ms|
  {
    assert ms[0] in ms;
    FirstReadsWhen(compiles, ms);
    if |ms| > 1 {
      PartsReadWhen(compiles, ms[1..]);
    }
    OneMorePrintsPlainly(ms);
  }

  lemma FirstPartStarts(ms: seq<Matcher>)
    requires ms != [] && IsLabelName(ms[0].name)
    ensures Trim(Split(Joined(Shown(ms)), OUTSIDE)[0]) != ""
  {
    JoinedUnfolds(ms);
    ShownStarts(ms[0]);
    assert Joined(Shown(ms))[0] == ShowMatcher(ms[0])[0];
    SplitKeepsTheFirst(Joined(Shown(ms)));
    StartsAreNotBlank(Split(Joined(Shown(ms)), OUTSIDE)[0]);
  }

  // Spaces after the list go to its last part, where they make no difference.
  // The parts with one more character at the end of the last.
  function Lengthened(parts: seq<string>, c: char): seq<string>
    requires parts != []
  {
    parts[..|parts| - 1] + [parts[|parts| - 1] + [c]]
  }

  lemma PrependedAndLengthened(head: string, parts: seq<string>, c: char)
    requires parts != []
    ensures Prepend(head, Lengthened(parts, c)) == Lengthened(Prepend(head, parts), c)
  {
    if |parts| == 1 {
      assert head + (parts[0] + [c]) == (head + parts[0]) + [c];
    }
  }

  lemma {:induction false} TrailingSpaceJoins(s: string, c: char, scan: Scan)
    requires IsSpace(c)
    ensures Split(s + [c], scan) == Lengthened(Split(s, scan), c)
  {
    if s == [] {
      assert [c][1..] == [] && s + [c] == [c] && [c] + "" == "" + [c];
    } else {
      var rest := Split(s[1..], scan.After(s[0]));
      assert (s + [c])[1..] == s[1..] + [c];
      TrailingSpaceJoins(s[1..], c, scan.After(s[0]));
      PrependedAndLengthened([s[0]], rest, c);
      assert [""] + Lengthened(rest, c) == Lengthened([""] + rest, c);
    }
  }

  lemma {:induction false} TrailingSpaceGoes(s: string, c: char)
    requires IsSpace(c)
    ensures Trim(s + [c]) == Trim(s)
  {
    if s == [] {
      assert s + [c] == [c] && [c][1..] == [];
    } else if IsSpace(s[0]) {
      assert (s + [c])[1..] == s[1..] + [c];
      TrailingSpaceGoes(s[1..], c);
    } else {
      assert (s + [c])[..|s|] == s;
    }
  }

  lemma OneSpaceReadsAlike(read: Reader, s: string, c: char)
    requires IsSpace(c)
    ensures ParseParts(read, Split(s + [c], OUTSIDE)) == ParseParts(read, Split(s, OUTSIDE))
  {
    var parts := Split(s, OUTSIDE);
    TrailingSpaceJoins(s, c, OUTSIDE);
    TrailingSpaceGoes(parts[|parts| - 1], c);
    SpacedParts(read, Lengthened(parts, c), parts);
  }

  lemma {:induction false} TrimmedListReadsAlike(read: Reader, s: string)
    ensures ParseParts(read, Split(TrimEnd(s), OUTSIDE)) == ParseParts(read, Split(s, OUTSIDE))
  {
    if s != [] && IsSpace(s[|s| - 1]) {
      var n := |s| - 1;
      TrimmedListReadsAlike(read, s[..n]);
      OneSpaceReadsAlike(read, s[..n], s[n]);
      assert s == s[..n] + [s[n]];
    }
  }

  lemma PrintedListIsRead(compiles: Compiler, ms: seq<Matcher>)
    requires ms != [] && IsLabelName(ms[0].name)
    ensures
      Parsed(compiles, Joined(Shown(ms)))
      == ParseParts(MatcherReader(compiles), Split(Joined(Shown(ms)), OUTSIDE))
  {
    var text := Joined(Shown(ms));
    JoinedUnfolds(ms);
    ShownStarts(ms[0]);
    assert text[0] == ShowMatcher(ms[0])[0];
    KeepsTheFirst(text);
    TrimmedListReadsAlike(MatcherReader(compiles), text);
  }

  lemma PlainListReadsBack(compiles: Compiler, ms: seq<Matcher>)
    requires (forall m :: m in ms ==> IsValid(compiles, m)) && ListPrintsPlainly(ms)
    ensures Parsed(compiles, Joined(Shown(ms))) == Ok(ms)
  {
    forall i | 0 <= i < |ms|
      ensures Stands(compiles, Shown(ms)[i], ms[i]) && ScanAll(Shown(ms)[i], OUTSIDE) == ScanAll(ms[i].value, OUTSIDE)
    {
      assert ms[i] in ms;
      PlainStands(compiles, ms[i]);
    }
    JoinedParses(compiles, Shown(ms), ms);
  }

  // A list of valid matchers reads back from what the program prints for it exactly when each value
  // keeps its commas inside quotes, has no space at its ends, is not wrapped in quotes and does not
  // follow a bare `=` with a tilde, and each but the last closes the quotes it opens.
  lemma PrintedListReadsBackWhen(compiles: Compiler, ms: seq<Matcher>)
    requires forall m :: m in ms ==> IsValid(compiles, m)
    ensures Parsed(compiles, Joined(Shown(ms))) == Ok(ms) <==> ListPrintsPlainly(ms)
  {
    if ListPrintsPlainly(ms) {
      PlainListReadsBack(compiles, ms);
    }
    if ms != [] && Parsed(compiles, Joined(Shown(ms))) == Ok(ms) {
      assert ms[0] in ms;
      PrintedListIsRead(compiles, ms);
      PartsReadWhen(compiles, ms);
    }
  }
}
