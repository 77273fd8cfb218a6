/** Matcher expressions: splitting, parsing, unquoting and printing. */
module Matchers {
  import opened Wrappers
  import opened Labels
  import opened Texts

  const MAX_LABEL_LEN: nat := 4096
  const MAX_REGEX_LEN: nat := 512

  datatype MatchOp = Equal | NotEqual | RegexMatch | RegexNotMatch {
    function Token(): string {
      match this
      case Equal => "="
      case NotEqual => "!="
      case RegexMatch => "=~"
      case RegexNotMatch => "!~"
    }

    predicate IsRegex() {
      RegexMatch? || RegexNotMatch?
    }
  }

  datatype Matcher = Matcher(name: string, op: MatchOp, value: string)

  datatype CoreError = BadMatcherExpression | InvalidLabelName | RegexTooLong(len: nat) | BadRegex

  // ---- Characters

  // Unicode's White_Space property.
  predicate IsSpace(c: char) {
    var n := c as int;
    || 0x9 <= n <= 0xd || n == 0x20 || n == 0x85 || n == 0xa0 || n == 0x1680 || 0x2000 <= n <= 0x200a
    || n == 0x2028 || n == 0x2029 || n == 0x202f || n == 0x205f || n == 0x3000
  }

  function TrimStart(s: string): string {
    if s != [] && IsSpace(s[0]) then TrimStart(s[1..]) else s
  }

  function TrimEnd(s: string): string {
    if s != [] && IsSpace(s[|s| - 1]) then TrimEnd(s[..|s| - 1]) else s
  }

  function Trim(s: string): string {
    TrimEnd(TrimStart(s))
  }

  // No space at either end.
  predicate IsTrimmed(s: string) {
    s == [] || (!IsSpace(s[0]) && !IsSpace(s[|s| - 1]))
  }

  predicate IsNameChar(c: char) {
    'a' <= c <= 'z' || 'A' <= c <= 'Z' || '0' <= c <= '9' || c == '_'
  }

  predicate IsLabelName(name: string) {
    name != [] && Utf8Len(name) <= MAX_LABEL_LEN && !IsDigit(name[0]) && forall c :: c in name ==> IsNameChar(c)
  }

  lemma {:induction false} EndsAreTrimmed(s: string)
    ensures TrimEnd(s) <= s
    ensures TrimEnd(s) == [] || !IsSpace(TrimEnd(s)[|TrimEnd(s)| - 1])
    ensures s != [] && !IsSpace(s[|s| - 1]) ==> TrimEnd(s) == s
  {
    if s != [] && IsSpace(s[|s| - 1]) {
      EndsAreTrimmed(s[..|s| - 1]);
    }
  }

  lemma {:induction false} StartsAreTrimmed(s: string)
    ensures TrimStart(s) == [] || !IsSpace(TrimStart(s)[0])
    ensures |TrimStart(s)| <= |s| && TrimStart(s) == s[|s| - |TrimStart(s)|..]
  {
    if s != [] && IsSpace(s[0]) {
      StartsAreTrimmed(s[1..]);
    }
  }

  // Trimming takes nothing from a string with no space at either end, and always leaves one.
  lemma TrimmedStays(s: string)
    ensures IsTrimmed(Trim(s))
    ensures Trim(s) == s <==> IsTrimmed(s)
    ensures |Trim(s)| <= |s|
  {
    StartsAreTrimmed(s);
    EndsAreTrimmed(TrimStart(s));
    EndsAreTrimmed(s);
  }

  lemma LeadingSpaceGoes(s: string)
    ensures Trim(" " + s) == Trim(s)
  {
    assert (" " + s)[1..] == s;
  }

  // ---- Splitting on the commas outside quotes

  datatype Scan = Scan(quoted: bool, escaped: bool) {
    function After(c: char): Scan {
      if escaped then Scan(quoted, false)
      else if c == '\\' && quoted then Scan(quoted, true)
      else if c == '"' then Scan(!quoted, false)
      else this
    }

    predicate Cuts(c: char) {
      !escaped && c == ',' && !quoted
    }
  }

  const OUTSIDE: Scan := Scan(false, false)

  function Prepend(head: string, parts: seq<string>): (r: seq<string>)
    requires parts != []
    ensures |r| == |parts|
  {
    [head + parts[0]] + parts[1..]
  }

  lemma PrependNothing(parts: seq<string>)
    requires parts != []
    ensures Prepend("", parts) == parts
  {
    assert "" + parts[0] == parts[0];
  }

  lemma PrependTwice(a: string, b: string, parts: seq<string>)
    requires parts != []
    ensures Prepend(a, Prepend(b, parts)) == Prepend(a + b, parts)
  {
    assert a + (b + parts[0]) == (a + b) + parts[0];
  }

  function Split(s: string, scan: Scan): (parts: seq<string>)
    ensures parts != []
  {
    if s == [] then [""]
    else
      var rest := Split(s[1..], scan.After(s[0]));
      if scan.Cuts(s[0]) then [""] + rest else Prepend([s[0]], rest)
  }

  lemma OneCharacter(held: string, s: string, scan: Scan)
    requires s != []
    ensures
      var next := Split(s[1..], scan.After(s[0]));
      Prepend(held, Split(s, scan)) ==
      if scan.Cuts(s[0]) then [held] + Prepend("", next) else Prepend(held + [s[0]], next)
  {
    var next := Split(s[1..], scan.After(s[0]));
    PrependTwice(held, [s[0]], next);
    PrependNothing(next);
    assert held + "" == held;
    assert ([""] + next)[1..] == next;
  }

  lemma SplitOneMore(whole: seq<string>, parts: seq<string>, held: string, s: string, scan: Scan)
    requires s != [] && whole == parts + Prepend(held, Split(s, scan))
    ensures
      var next := Split(s[1..], scan.After(s[0]));
      && (scan.Cuts(s[0]) ==> whole == (parts + [held]) + Prepend("", next))
      && (!scan.Cuts(s[0]) ==> whole == parts + Prepend(held + [s[0]], next))
  {
    OneCharacter(held, s, scan);
    if scan.Cuts(s[0]) {
      var next := Prepend("", Split(s[1..], scan.After(s[0])));
      Reassociate(parts, held, next);
    }
  }

  lemma Reassociate(parts: seq<string>, held: string, next: seq<string>)
    ensures parts + ([held] + next) == (parts + [held]) + next
  {
  }

  // One turn of the scan, by position: the part grows by a character, or ends before it.
  lemma SplitTurn(expression: string, parts: seq<string>, start: nat, index: nat, scan: Scan)
    requires start <= index < |expression|
    requires
      Split(expression, OUTSIDE) == parts + Prepend(expression[start..index], Split(expression[index..], scan))
    ensures
      var (c, next) := (expression[index], index + 1);
      var rest := Split(expression[next..], scan.After(c));
      Split(expression, OUTSIDE) ==
      if scan.Cuts(c) then parts + [expression[start..index]] + Prepend(expression[next..next], rest)
      else parts + Prepend(expression[start..next], rest)
  {
    assert expression[index..][1..] == expression[index + 1..];
    assert expression[start..index] + [expression[index]] == expression[start..index + 1];
    assert expression[index + 1..index + 1] == "";
    SplitOneMore(Split(expression, OUTSIDE), parts, expression[start..index], expression[index..], scan);
  }

  method SplitTopLevel(expression: string) returns (parts: seq<string>)
    ensures parts == Split(expression, OUTSIDE)
  {
    parts := [];
    var start, quoted, escaped := 0, false, false;
    PrependNothing(Split(expression, OUTSIDE));
    assert expression[0..] == expression;
    for index := 0 to |expression|
      invariant 0 <= start <= index
      invariant
        Split(expression, OUTSIDE)
        == parts + Prepend(expression[start..index], Split(expression[index..], Scan(quoted, escaped)))
    {
      var c := expression[index];
      SplitTurn(expression, parts, start, index, Scan(quoted, escaped));
      if escaped {
        escaped := false;
      } else if c == '\\' && quoted {
        escaped := true;
      } else if c == '"' {
        quoted := !quoted;
      } else if c == ',' && !quoted {
        parts := parts + [expression[start..index]];
        start := index + 1;
      }
    }
    ghost var held := expression[start..];
    assert expression[|expression|..] == "" && expression[start..|expression|] == held;
    assert Prepend(held, [""]) == [held] by {
      assert held + "" == held;
    }
    parts := parts + [expression[start..]];
  }

  function Join(parts: seq<string>): string {
    if parts == [] then ""
    else if |parts| == 1 then parts[0]
    else parts[0] + "," + Join(parts[1..])
  }

  // Nothing is lost: the parts rejoin with commas to the expression.
  lemma {:induction false} PartsRejoin(s: string, scan: Scan)
    ensures Join(Split(s, scan)) == s
  {
    if s != [] {
      var rest := Split(s[1..], scan.After(s[0]));
      PartsRejoin(s[1..], scan.After(s[0]));
      assert s == [s[0]] + s[1..];
      if scan.Cuts(s[0]) {
        assert ([""] + rest)[1..] == rest;
        assert "" + "," + Join(rest) == s;
      } else {
        assert Prepend([s[0]], rest)[1..] == rest[1..];
        assert |rest| > 1 ==> [s[0]] + rest[0] + "," + Join(rest[1..]) == [s[0]] + (rest[0] + "," + Join(rest[1..]));
      }
    }
  }

  function ScanAll(s: string, scan: Scan): Scan {
    if s == [] then scan else ScanAll(s[1..], scan.After(s[0]))
  }

  predicate NeverCuts(s: string, scan: Scan) {
    s == [] || (!scan.Cuts(s[0]) && NeverCuts(s[1..], scan.After(s[0])))
  }

  // A stretch with no comma at the top level stays in one part.
  lemma {:induction false} UncutStretch(a: string, b: string, scan: Scan)
    requires NeverCuts(a, scan)
    ensures Split(a + b, scan) == Prepend(a, Split(b, ScanAll(a, scan)))
  {
    if a == [] {
      assert a + b == b;
      PrependNothing(Split(b, scan));
    } else {
      assert (a + b)[1..] == a[1..] + b;
      UncutStretch(a[1..], b, scan.After(a[0]));
      PrependTwice([a[0]], a[1..], Split(b, ScanAll(a, scan)));
      assert [a[0]] + a[1..] == a;
    }
  }

  lemma {:induction false} ScansCompose(a: string, b: string, scan: Scan)
    ensures ScanAll(a + b, scan) == ScanAll(b, ScanAll(a, scan))
    ensures NeverCuts(a + b, scan) <==> NeverCuts(a, scan) && NeverCuts(b, ScanAll(a, scan))
  {
    if a == [] {
      assert a + b == b;
    } else {
      assert (a + b)[1..] == a[1..] + b;
      ScansCompose(a[1..], b, scan.After(a[0]));
    }
  }

  // ---- One matcher

  predicate StartsAt(part: string, i: nat, token: string)
    requires i <= |part|
  {
    token <= part[i..]
  }

  function Find(part: string, token: string, from: nat): (r: Option<nat>)
    requires from <= |part| && token != []
    ensures r.Some? ==> from <= r.value < |part| && StartsAt(part, r.value, token)
    ensures r.Some? ==> forall j :: from <= j < r.value ==> !StartsAt(part, j, token)
    ensures r.None? ==> forall j :: from <= j <= |part| ==> !StartsAt(part, j, token)
    decreases |part| - from
  {
    if StartsAt(part, from, token) then Some(from)
    else if from == |part| then None
    else Find(part, token, from + 1)
  }

  type Found = Option<(nat, MatchOp)>

  function FoundAt(part: string, op: MatchOp): (r: Found)
    ensures r.Some? ==> r.value.0 + |r.value.1.Token()| <= |part|
  {
    match Find(part, op.Token(), 0)
    case None => None
    case Some(i) => Some((i, op))
  }

  // The earlier of the two, and the longer when they start together.
  function Better(a: Found, b: Found): Found {
    if a.None? then b
    else if b.None? then a
    else if b.value.0 < a.value.0
      || (b.value.0 == a.value.0 && |b.value.1.Token()| > |a.value.1.Token()|) then b
    else a
  }

  function Operator(part: string): (r: Found)
    ensures r.Some? ==> r.value.0 + |r.value.1.Token()| <= |part|
  {
    Better(Better(Better(FoundAt(part, RegexMatch), FoundAt(part, RegexNotMatch)), FoundAt(part, NotEqual)), FoundAt(part, Equal))
  }

  lemma FoundFrom(part: string, op: MatchOp, i: nat)
    requires i <= |part| && forall j :: 0 <= j < i ==> !StartsAt(part, j, op.Token())
    ensures FoundAt(part, op).Some? ==> FoundAt(part, op).value.0 >= i && FoundAt(part, op).value.1 == op
    ensures StartsAt(part, i, op.Token()) <==> FoundAt(part, op) == Some((i, op))
  {
    var found := Find(part, op.Token(), 0);
    assert found.Some? ==> StartsAt(part, found.value, op.Token());
  }

  predicate NoneBefore(part: string, i: nat)
    requires i <= |part|
  {
    forall j :: 0 <= j < i ==>
      && !StartsAt(part, j, "=") && !StartsAt(part, j, "!=") && !StartsAt(part, j, "=~") && !StartsAt(part, j, "!~")
  }

  // The operator is the longest one at the first place where any of them starts.
  lemma OperatorIsTheFirst(part: string, i: nat, op: MatchOp)
    requires i <= |part| && NoneBefore(part, i) && StartsAt(part, i, op.Token())
    requires op.Equal? ==> !StartsAt(part, i, "=~")
    ensures Operator(part) == Some((i, op))
  {
    FoundFrom(part, Equal, i);
    FoundFrom(part, NotEqual, i);
    FoundFrom(part, RegexMatch, i);
    FoundFrom(part, RegexNotMatch, i);
    assert part[i..][0] == op.Token()[0];
    assert !op.Equal? ==> part[i..][1] == op.Token()[1];
  }

  function Unescape(s: string, escaped: bool): string {
    if s == [] then ""
    else if !escaped && s[0] == '\\' then Unescape(s[1..], true)
    else [s[0]] + Unescape(s[1..], false)
  }

  predicate IsQuoted(value: string) {
    |value| >= 2 && value[0] == '"' && value[|value| - 1] == '"'
  }

  function Unquote(value: string): string {
    if IsQuoted(value) then Unescape(value[1..|value| - 1], false) else value
  }

  method UnquoteValue(value: string) returns (out: string)
    ensures out == Unquote(value)
  {
    if !IsQuoted(value) {
      return value;
    }
    var inner := value[1..|value| - 1];
    out := "";
    var escaped := false;
    assert inner[0..] == inner;
    for i := 0 to |inner|
      invariant Unescape(inner, false) == out + Unescape(inner[i..], escaped)
    {
      var c := inner[i];
      assert inner[i..][1..] == inner[i + 1..];
      if !escaped && c == '\\' {
        escaped := true;
      } else {
        assert out + ([c] + Unescape(inner[i + 1..], false)) == (out + [c]) + Unescape(inner[i + 1..], false);
        out := out + [c];
        escaped := false;
      }
    }
    assert inner[|inner|..] == "";
  }

  // Whether a pattern compiles is the regex engine's to say.
  type Compiler = string -> bool

  function NewMatcher(compiles: Compiler, name: string, op: MatchOp, value: string): Result<Matcher, CoreError> {
    if op.IsRegex() && Utf8Len(value) > MAX_REGEX_LEN then Err(RegexTooLong(Utf8Len(value)))
    else if op.IsRegex() && !compiles(value) then Err(BadRegex)
    else Ok(Matcher(name, op, value))
  }

  function ParseAt(compiles: Compiler, part: string, found: Found): Result<Matcher, CoreError>
    requires found.Some? ==> found.value.0 + |found.value.1.Token()| <= |part|
  {
    match found
    case None => Err(BadMatcherExpression)
    case Some((i, op)) =>
      var name := Trim(part[..i]);
      var value := Unquote(Trim(part[i + |op.Token()|..]));
      if !IsLabelName(name) then Err(InvalidLabelName) else NewMatcher(compiles, name, op, value)
  }

  function ParseMatcher(compiles: Compiler, part: string): Result<Matcher, CoreError> {
    ParseAt(compiles, part, Operator(part))
  }

  // ---- The whole expression

  function Braceless(s: string): string {
    if |s| >= 2 && s[0] == '{' && s[|s| - 1] == '}' then s[1..|s| - 1] else s
  }

  type Reader = string -> Result<Matcher, CoreError>

  function MatcherReader(compiles: Compiler): Reader {
    part => ParseMatcher(compiles, part)
  }

  function ParseParts(read: Reader, parts: seq<string>): Result<seq<Matcher>, CoreError> {
    if parts == [] then Ok([])
    else
      var n := |parts| - 1;
      var part := Trim(parts[n]);
      match ParseParts(read, parts[..n])
      case Err(error) => Err(error)
      case Ok(before) =>
        if part == "" then Ok(before)
        else
          match read(part)
          case Err(error) => Err(error)
          case Ok(matcher) => Ok(before + [matcher])
  }

  function Parsed(compiles: Compiler, expression: string): Result<seq<Matcher>, CoreError> {
    ParseParts(MatcherReader(compiles), Split(Braceless(Trim(expression)), OUTSIDE))
  }

  method ReadParts(read: Reader, parts: seq<string>) returns (r: Result<seq<Matcher>, CoreError>)
    ensures r == ParseParts(read, parts)
  {
    var matchers: seq<Matcher> := [];
    for i := 0 to |parts|
      invariant ParseParts(read, parts[..i]) == Ok(matchers)
    {
      assert parts[..i + 1][..i] == parts[..i];
      var part := Trim(parts[i]);
      if part != "" {
        var parsed := read(part);
        if parsed.Err? {
          assert ParseParts(read, parts[..i + 1]) == Err(parsed.error);
          FirstErrorWins(read, parts, i + 1);
          return Err(parsed.error);
        }
        matchers := matchers + [parsed.value];
      }
    }
    assert parts[..|parts|] == parts;
    r := Ok(matchers);
  }

  method Parse(compiles: Compiler, expression: string) returns (r: Result<seq<Matcher>, CoreError>)
    ensures r == Parsed(compiles, expression)
  {
    var parts := SplitTopLevel(Braceless(Trim(expression)));
    r := ReadParts(MatcherReader(compiles), parts);
  }

  lemma {:induction false} FirstErrorWins(read: Reader, parts: seq<string>, n: nat)
    requires n <= |parts| && ParseParts(read, parts[..n]).Err?
    ensures ParseParts(read, parts) == ParseParts(read, parts[..n])
  {
    if n < |parts| {
      assert parts[..|parts| - 1][..n] == parts[..n];
      FirstErrorWins(read, parts[..|parts| - 1], n);
    } else {
      assert parts[..n] == parts;
    }
  }

  // ---- Printing

  function ShowMatcher(m: Matcher): string {
    m.name + (m.op.Token() + m.value)
  }

  function Escape(value: string): string {
    if value == [] then ""
    else (if value[0] == '"' || value[0] == '\\' then ['\\', value[0]] else [value[0]]) + Escape(value[1..])
  }

  // The form that survives any value: quoted, with quotes and backslashes escaped.
  function QuoteMatcher(m: Matcher): string {
    m.name + (m.op.Token() + ("\"" + (Escape(m.value) + "\"")))
  }

  function Joined(texts: seq<string>): string {
    if texts == [] then ""
    else if |texts| == 1 then texts[0]
    else texts[0] + ("," + (" " + Joined(texts[1..])))
  }

  lemma {:induction false} JoinedGrows(texts: seq<string>, text: string)
    requires texts != []
    ensures Joined(texts + [text]) == Joined(texts) + ", " + text
  {
    var all := texts + [text];
    assert all[1..] == texts[1..] + [text];
    if |texts| == 1 {
      assert Joined(all[1..]) == text;
    } else {
      JoinedGrows(texts[1..], text);
    }
  }

  function Shown(ms: seq<Matcher>): seq<string> {
    seq(|ms|, i requires 0 <= i < |ms| => ShowMatcher(ms[i]))
  }

  function Quoted(ms: seq<Matcher>): seq<string> {
    seq(|ms|, i requires 0 <= i < |ms| => QuoteMatcher(ms[i]))
  }

  method Display(ms: seq<Matcher>) returns (s: string)
    ensures s == Joined(Shown(ms))
  {
    s := "";
    var first := true;
    for i := 0 to |ms|
      invariant first <==> i == 0
      invariant s == Joined(Shown(ms)[..i])
    {
      assert Shown(ms)[..i + 1] == Shown(ms)[..i] + [ShowMatcher(ms[i])];
      if !first {
        JoinedGrows(Shown(ms)[..i], ShowMatcher(ms[i]));
        s := s + ", ";
      }
      s := s + ShowMatcher(ms[i]);
      first := false;
    }
    assert Shown(ms)[..|ms|] == Shown(ms);
  }

  // ---- Reading back what was printed

  // A matcher the constructor accepts.
  predicate IsValid(compiles: Compiler, m: Matcher) {
    IsLabelName(m.name) && NewMatcher(compiles, m.name, m.op, m.value) == Ok(m)
  }

  predicate SpellsRegex(m: Matcher, text: string) {
    m.op.Equal? && text != [] && text[0] == '~'
  }

  lemma NamesAreTrimmed(name: string)
    requires IsLabelName(name)
    ensures IsTrimmed(name)
  {
    assert name[0] in name && name[|name| - 1] in name;
  }

  lemma NamesHoldNoOperator(name: string, rest: string)
    requires IsLabelName(name)
    ensures NoneBefore(name + rest, |name|)
  {
    var part := name + rest;
    forall j | 0 <= j < |name|
      ensures !StartsAt(part, j, "=") && !StartsAt(part, j, "!=") && !StartsAt(part, j, "=~") && !StartsAt(part, j, "!~")
    {
      assert part[j..][0] == name[j] && name[j] in name;
    }
  }

  // After a label name the operator is found where it was written, unless `=` is followed by a tilde.
  lemma OperatorIsFound(name: string, op: MatchOp, rest: string)
    requires IsLabelName(name) && (op.Equal? ==> rest == [] || rest[0] != '~')
    ensures Operator(name + (op.Token() + rest)) == Some((|name|, op))
  {
    var part := name + (op.Token() + rest);
    assert part[|name|..] == op.Token() + rest;
    NamesHoldNoOperator(name, op.Token() + rest);
    assert op.Equal? && rest != [] ==> part[|name|..][1] == rest[0];
    OperatorIsTheFirst(part, |name|, op);
  }

  lemma RegexIsFound(name: string, rest: string)
    requires IsLabelName(name) && rest != [] && rest[0] == '~'
    ensures Operator(name + ("=" + rest)) == Some((|name|, RegexMatch))
  {
    assert "=" + rest == "=~" + rest[1..];
    OperatorIsFound(name, RegexMatch, rest[1..]);
  }

  lemma PartsOfAMatcher(name: string, op: MatchOp, rest: string)
    ensures (name + (op.Token() + rest))[..|name|] == name
    ensures (name + (op.Token() + rest))[|name| + |op.Token()|..] == rest
  {
    var part := name + (op.Token() + rest);
    assert part[|name|..] == op.Token() + rest;
    assert part[|name| + |op.Token()|..] == part[|name|..][|op.Token()|..];
  }

  lemma ReadsAt(compiles: Compiler, name: string, op: MatchOp, rest: string, found: MatchOp, value: string)
    requires IsLabelName(name) && Operator(name + (op.Token() + rest)) == Some((|name|, found))
    requires found.Token() + value == op.Token() + rest
    ensures
      ParseMatcher(compiles, name + (op.Token() + rest)) == NewMatcher(compiles, name, found, Unquote(Trim(value)))
  {
    PartsOfAMatcher(name, found, value);
    NamesAreTrimmed(name);
    TrimmedStays(name);
    ReadsInParts(compiles, name + (op.Token() + rest), name, found, value);
  }

  lemma ReadsInParts(compiles: Compiler, part: string, name: string, op: MatchOp, value: string)
    requires |name| + |op.Token()| <= |part| && part[..|name|] == name && part[|name| + |op.Token()|..] == value
    requires IsLabelName(name) && Trim(name) == name
    ensures ParseAt(compiles, part, Some((|name|, op))) == NewMatcher(compiles, name, op, Unquote(Trim(value)))
  {
  }

  lemma MatcherReads(compiles: Compiler, m: Matcher, rest: string)
    requires IsValid(compiles, m) && !SpellsRegex(m, rest)
    ensures
      ParseMatcher(compiles, m.name + (m.op.Token() + rest))
      == NewMatcher(compiles, m.name, m.op, Unquote(Trim(rest)))
  {
    OperatorIsFound(m.name, m.op, rest);
    ReadsAt(compiles, m.name, m.op, rest, m.op, rest);
  }

  lemma {:induction false} UnescapingShrinks(s: string, escaped: bool)
    ensures |Unescape(s, escaped)| <= |s|
  {
    if s != [] {
      UnescapingShrinks(s[1..], !escaped && s[0] == '\\');
    }
  }

  lemma UnquotingKeeps(value: string)
    ensures |Unquote(value)| <= |value|
    ensures Unquote(value) == value <==> !IsQuoted(value)
  {
    if IsQuoted(value) {
      UnescapingShrinks(value[1..|value| - 1], false);
    }
  }

  // ---- Scanning what was printed

  lemma {:induction false} PlainTextScans(s: string)
    requires forall c :: c in s ==> c != '"' && c != ','
    ensures NeverCuts(s, OUTSIDE) && ScanAll(s, OUTSIDE) == OUTSIDE
  {
    if s != [] {
      assert s[0] in s;
      assert forall c :: c in s[1..] ==> c in s;
      PlainTextScans(s[1..]);
    }
  }

  lemma LeadScans(m: Matcher, rest: string)
    requires IsLabelName(m.name)
    ensures NeverCuts(m.name + (m.op.Token() + rest), OUTSIDE) <==> NeverCuts(rest, OUTSIDE)
    ensures ScanAll(m.name + (m.op.Token() + rest), OUTSIDE) == ScanAll(rest, OUTSIDE)
  {
    PlainTextScans(m.name);
    PlainTextScans(m.op.Token());
    ScansCompose(m.name, m.op.Token() + rest, OUTSIDE);
    ScansCompose(m.op.Token(), rest, OUTSIDE);
  }

  const INSIDE: Scan := Scan(true, false)

  lemma {:induction false} EscapedScans(value: string)
    ensures NeverCuts(Escape(value), INSIDE) && ScanAll(Escape(value), INSIDE) == INSIDE
  {
    if value != [] {
      EscapedScans(value[1..]);
      var head := if value[0] == '"' || value[0] == '\\' then ['\\', value[0]] else [value[0]];
      OneEscapeScans(value[0]);
      ScansCompose(head, Escape(value[1..]), INSIDE);
    }
  }

  lemma OneEscapeScans(c: char)
    ensures
      var head := if c == '"' || c == '\\' then ['\\', c] else [c];
      NeverCuts(head, INSIDE) && ScanAll(head, INSIDE) == INSIDE
  {
    assert ['\\', c][1..] == [c] && [c][1..] == [];
    assert ScanAll([c], Scan(true, true)) == INSIDE && NeverCuts([c], Scan(true, true));
    assert c != '"' && c != '\\' ==> ScanAll([c], INSIDE) == INSIDE;
  }

  lemma {:induction false} EscapedReads(value: string)
    ensures Unescape(Escape(value), false) == value
  {
    if value != [] {
      EscapedReads(value[1..]);
      var tail := Escape(value[1..]);
      assert (['\\', value[0]] + tail)[1..] == [value[0]] + tail;
      assert ([value[0]] + tail)[1..] == tail;
      assert [value[0]] + value[1..] == value;
    }
  }

  lemma QuotesScan(value: string)
    ensures
      var text := "\"" + (Escape(value) + "\"");
      NeverCuts(text, OUTSIDE) && ScanAll(text, OUTSIDE) == OUTSIDE
  {
    EscapedScans(value);
    assert "\""[1..] == [];
    ScansCompose(Escape(value), "\"", INSIDE);
    ScansCompose("\"", Escape(value) + "\"", OUTSIDE);
  }

  // ---- Lists of matchers

  // A text stands for a matcher on its own, in one piece.
  ghost predicate Stands(compiles: Compiler, text: string, m: Matcher) {
    && text != [] && IsTrimmed(text) && text[0] != '{' && NeverCuts(text, OUTSIDE)
    && ParseMatcher(compiles, text) == Ok(m)
  }

  // Every text but the last ends outside quotes, so the comma after it cuts.
  predicate CommasCut(texts: seq<string>) {
    forall i :: 0 <= i < |texts| - 1 ==> ScanAll(texts[i], OUTSIDE) == OUTSIDE
  }

  lemma CommaSplits(s: string)
    ensures Split("," + (" " + s), OUTSIDE) == [""] + Prepend(" ", Split(s, OUTSIDE))
  {
    assert ("," + (" " + s))[1..] == " " + s;
    assert (" " + s)[1..] == s;
    assert OUTSIDE.After(',') == OUTSIDE && OUTSIDE.After(' ') == OUTSIDE;
  }

  lemma {:induction false} JoinedSplits(texts: seq<string>)
    requires texts != []
    requires CommasCut(texts) && forall i :: 0 <= i < |texts| ==> NeverCuts(texts[i], OUTSIDE)
    ensures
      var parts := Split(Joined(texts), OUTSIDE);
      |parts| == |texts| && forall i :: 0 <= i < |texts| ==> Trim(parts[i]) == Trim(texts[i])
    decreases |texts|
  {
    var first := texts[0];
    if |texts| == 1 {
      UncutStretch(first, "", OUTSIDE);
      assert first + "" == first;
    } else {
      var rest := texts[1..];
      JoinedSplits(rest);
      var tail := Split(Joined(rest), OUTSIDE);
      CommaSplits(Joined(rest));
      UncutStretch(first, "," + (" " + Joined(rest)), OUTSIDE);
      assert first + "" == first;
      var parts := Split(Joined(texts), OUTSIDE);
      assert parts == [first] + Prepend(" ", tail);
      forall i | 0 <= i < |texts| ensures Trim(parts[i]) == Trim(texts[i]) {
        if i > 0 {
          assert parts[i] == Prepend(" ", tail)[i - 1] && texts[i] == rest[i - 1];
          LeadingSpaceGoes(tail[0]);
        }
      }
    }
  }

  predicate Reads(read: Reader, part: string, m: Matcher) {
    Trim(part) != "" && read(Trim(part)) == Ok(m)
  }

  lemma {:induction false} PartsRead(read: Reader, parts: seq<string>, ms: seq<Matcher>)
    requires |parts| == |ms| && forall i :: 0 <= i < |ms| ==> Reads(read, parts[i], ms[i])
    ensures ParseParts(read, parts) == Ok(ms)
  {
    if ms != [] {
      var n := |ms| - 1;
      PartsRead(read, parts[..n], ms[..n]);
      assert Reads(read, parts[n], ms[n]);
      assert ms == ms[..n] + [ms[n]];
    }
  }

  lemma {:induction false} JoinedIsTrimmed(texts: seq<string>)
    requires texts != [] && forall i :: 0 <= i < |texts| ==> texts[i] != [] && IsTrimmed(texts[i]) && texts[i][0] != '{'
    ensures Joined(texts) != [] && IsTrimmed(Joined(texts)) && Joined(texts)[0] == texts[0][0]
    decreases |texts|
  {
    if |texts| > 1 {
      JoinedIsTrimmed(texts[1..]);
    }
  }

  lemma JoinedKeepsItsBraces(compiles: Compiler, texts: seq<string>, ms: seq<Matcher>)
    requires |texts| == |ms| && ms != [] && forall i :: 0 <= i < |ms| ==> Stands(compiles, texts[i], ms[i])
    ensures Braceless(Trim(Joined(texts))) == Joined(texts)
  {
    assert forall i :: 0 <= i < |texts| ==> Stands(compiles, texts[i], ms[i]);
    JoinedIsTrimmed(texts);
    TrimmedStays(Joined(texts));
  }

  lemma JoinedParses(compiles: Compiler, texts: seq<string>, ms: seq<Matcher>)
    requires |texts| == |ms| && CommasCut(texts) && forall i :: 0 <= i < |ms| ==> Stands(compiles, texts[i], ms[i])
    ensures Parsed(compiles, Joined(texts)) == Ok(ms)
  {
    if ms == [] {
      assert Split("", OUTSIDE) == [""] && [""][..0] == [];
      assert Trim("") == "";
    } else {
      JoinedKeepsItsBraces(compiles, texts, ms);
      JoinedSplits(texts);
      var parts := Split(Joined(texts), OUTSIDE);
      var read := MatcherReader(compiles);
      forall i | 0 <= i < |ms| ensures Reads(read, parts[i], ms[i]) {
        TrimmedStays(texts[i]);
      }
      PartsRead(read, parts, ms);
    }
  }

  lemma QuotesUnquote(value: string)
    ensures Unquote(Trim("\"" + (Escape(value) + "\""))) == value
  {
    var text := "\"" + (Escape(value) + "\"");
    TrimmedStays(text);
    assert text[1..|text| - 1] == Escape(value);
    EscapedReads(value);
  }

  lemma QuotedStands(compiles: Compiler, m: Matcher)
    requires IsValid(compiles, m)
    ensures Stands(compiles, QuoteMatcher(m), m) && ScanAll(QuoteMatcher(m), OUTSIDE) == OUTSIDE
  {
    var text := "\"" + (Escape(m.value) + "\"");
    QuotesScan(m.value);
    LeadScans(m, text);
    MatcherReads(compiles, m, text);
    QuotesUnquote(m.value);
    LeadsATrimmed(m.name, m.op, text);
  }

  lemma LeadsATrimmed(name: string, op: MatchOp, text: string)
    requires IsLabelName(name) && (text == [] || !IsSpace(text[|text| - 1]))
    ensures
      var all := name + (op.Token() + text);
      all != [] && IsTrimmed(all) && all[0] != '{'
  {
    var all := name + (op.Token() + text);
    assert name[0] in name && all[0] == name[0];
    assert all[|all| - 1] == (op.Token() + text)[|op.Token() + text| - 1];
  }

  // Any list of valid matchers, whatever their values hold, reads back from its quoted form.
  lemma QuotedFormReadsBack(compiles: Compiler, ms: seq<Matcher>)
    requires forall m :: m in ms ==> IsValid(compiles, m)
    ensures Parsed(compiles, Joined(Quoted(ms))) == Ok(ms)
  {
    forall i | 0 <= i < |ms|
      ensures Stands(compiles, Quoted(ms)[i], ms[i]) && ScanAll(Quoted(ms)[i], OUTSIDE) == OUTSIDE
    {
      assert ms[i] in ms;
      QuotedStands(compiles, ms[i]);
    }
    JoinedParses(compiles, Quoted(ms), ms);
  }

  // What a value must be like for its unquoted form to stand on its own.
  predicate PrintsPlainly(m: Matcher) {
    NeverCuts(m.value, OUTSIDE) && IsTrimmed(m.value) && !IsQuoted(m.value) && !SpellsRegex(m, m.value)
  }

  lemma PlainReads(compiles: Compiler, m: Matcher)
    requires IsValid(compiles, m) && PrintsPlainly(m)
    ensures ParseMatcher(compiles, ShowMatcher(m)) == Ok(m)
  {
    TrimmedStays(m.value);
    UnquotingKeeps(m.value);
    MatcherReads(compiles, m, m.value);
  }

  lemma PlainStands(compiles: Compiler, m: Matcher)
    requires IsValid(compiles, m) && PrintsPlainly(m)
    ensures Stands(compiles, ShowMatcher(m), m) && ScanAll(ShowMatcher(m), OUTSIDE) == ScanAll(m.value, OUTSIDE)
  {
    PlainReads(compiles, m);
    LeadScans(m, m.value);
    LeadsATrimmed(m.name, m.op, m.value);
  }

  // The program's own printed form reads back when each value keeps its commas inside balanced
  // quotes, has no space at its ends, is not wrapped in quotes, and does not turn `=` into `=~`.
  lemma PrintedFormReadsBack(compiles: Compiler, ms: seq<Matcher>)
    requires forall m :: m in ms ==>
      IsValid(compiles, m) && PrintsPlainly(m) && ScanAll(m.value, OUTSIDE) == OUTSIDE
    ensures Parsed(compiles, Joined(Shown(ms))) == Ok(ms)
  {
    forall i | 0 <= i < |ms|
      ensures Stands(compiles, Shown(ms)[i], ms[i]) && ScanAll(Shown(ms)[i], OUTSIDE) == OUTSIDE
    {
      assert ms[i] in ms;
      PlainStands(compiles, ms[i]);
    }
    JoinedParses(compiles, Shown(ms), ms);
  }

  // In particular when no value holds a comma or a quote.
  lemma PlainValuesReadBack(compiles: Compiler, ms: seq<Matcher>)
    requires forall m :: m in ms ==>
      && IsValid(compiles, m) && IsTrimmed(m.value) && !SpellsRegex(m, m.value)
      && forall c :: c in m.value ==> c != ',' && c != '"'
    ensures Parsed(compiles, Joined(Shown(ms))) == Ok(ms)
  {
    forall m | m in ms ensures PrintsPlainly(m) && ScanAll(m.value, OUTSIDE) == OUTSIDE {
      PlainTextScans(m.value);
      assert m.value != [] ==> m.value[0] in m.value;
    }
    PrintedFormReadsBack(compiles, ms);
  }

  // ---- Exactly when one printed matcher reads back

  lemma {:induction false} FirstPartLength(s: string, scan: Scan)
    ensures |Split(s, scan)[0]| <= |s|
    ensures NeverCuts(s, scan) <==> Split(s, scan) == [s]
    ensures !NeverCuts(s, scan) ==> |Split(s, scan)[0]| < |s|
    ensures Split(s, scan)[0] <= s
  {
    if s != [] {
      FirstPartLength(s[1..], scan.After(s[0]));
      assert s == [s[0]] + s[1..];
    }
  }

  lemma {:induction false} FirstMatcherIsTheFirstPart(read: Reader, parts: seq<string>)
    requires parts != [] && Trim(parts[0]) != "" && ParseParts(read, parts).Ok?
    ensures ParseParts(read, parts).value != [] && read(Trim(parts[0])) == Ok(ParseParts(read, parts).value[0])
  {
    var n := |parts| - 1;
    if n == 0 {
      assert parts[..0] == [];
    } else {
      assert parts[..n][0] == parts[0];
      FirstMatcherIsTheFirstPart(read, parts[..n]);
    }
  }

  lemma PartsShrink(part: string, i: nat, n: nat)
    requires i + n <= |part|
    ensures |Trim(part[..i])| <= i && |Unquote(Trim(part[i + n..]))| <= |part| - i - n
  {
    TrimmedStays(part[..i]);
    TrimmedStays(part[i + n..]);
    UnquotingKeeps(Trim(part[i + n..]));
  }

  lemma ParsedFromItsParts(compiles: Compiler, part: string, found: Found)
    requires found.Some? ==> found.value.0 + |found.value.1.Token()| <= |part|
    requires ParseAt(compiles, part, found).Ok?
    ensures found.Some?
    ensures
      var (i, op) := found.value;
      var m := ParseAt(compiles, part, found).value;
      m.name == Trim(part[..i]) && m.op == op && m.value == Unquote(Trim(part[i + |op.Token()|..]))
  {
  }

  lemma ParsingShrinks(compiles: Compiler, part: string, found: Found)
    requires found.Some? ==> found.value.0 + |found.value.1.Token()| <= |part|
    requires ParseAt(compiles, part, found).Ok?
    ensures
      var m := ParseAt(compiles, part, found).value;
      |m.name| + |m.op.Token()| + |m.value| <= |part|
  {
    ParsedFromItsParts(compiles, part, found);
    PartsShrink(part, found.value.0, |found.value.1.Token()|);
  }

  // A matcher never reads as more text than it came from.
  lemma ReadingShrinks(compiles: Compiler, part: string)
    requires ParseMatcher(compiles, part).Ok?
    ensures
      var m := ParseMatcher(compiles, part).value;
      |m.name| + |m.op.Token()| + |m.value| <= |part|
  {
    ParsingShrinks(compiles, part, Operator(part));
  }

  lemma LongerTextsDoNotRead(compiles: Compiler, m: Matcher, expression: string)
    requires expression != [] && !IsSpace(expression[0]) && expression[0] != '{' && expression[0] != ','
    requires expression[0] != '"'
    requires |Split(Trim(expression), OUTSIDE)[0]| < |ShowMatcher(m)|
    ensures Parsed(compiles, expression) != Ok([m])
  {
    var parts := Split(Trim(expression), OUTSIDE);
    KeepsTheFirst(expression);
    FirstPartLength(Trim(expression), OUTSIDE);
    SplitKeepsTheFirst(Trim(expression));
    StartsAreTrimmed(parts[0]);
    TrimmedStays(parts[0]);
    FirstStaysFirst(parts[0]);
    if Parsed(compiles, expression) == Ok([m]) {
      FirstMatcherIsTheFirstPart(MatcherReader(compiles), parts);
      ReadingShrinks(compiles, Trim(parts[0]));
    }
  }

  lemma KeepsTheFirst(s: string)
    requires s != [] && !IsSpace(s[0])
    ensures Trim(s) != [] && Trim(s)[0] == s[0] && Trim(s) <= s
    ensures s[0] != '{' ==> Braceless(Trim(s)) == Trim(s)
  {
    FirstStaysFirst(s);
  }

  lemma {:induction false} FirstStaysFirst(s: string)
    ensures s != [] && !IsSpace(s[0]) ==> TrimEnd(s) != [] && TrimEnd(s)[0] == s[0] && TrimEnd(s) <= s
  {
    if s != [] && IsSpace(s[|s| - 1]) {
      FirstStaysFirst(s[..|s| - 1]);
    }
  }

  lemma SplitKeepsTheFirst(s: string)
    requires s != [] && s[0] != ','
    ensures Split(s, OUTSIDE)[0] != [] && Split(s, OUTSIDE)[0][0] == s[0]
  {
  }

  // One valid matcher reads back from what the program prints for it exactly when its value keeps
  // its commas inside quotes, has no space at its ends, is not wrapped in quotes, and does not
  // follow a bare `=` with a tilde.
  lemma PrintedMatcherReadsBackWhen(compiles: Compiler, m: Matcher)
    requires IsValid(compiles, m)
    ensures Parsed(compiles, ShowMatcher(m)) == Ok([m]) <==> PrintsPlainly(m)
  {
    var text := ShowMatcher(m);
    assert m.name[0] in m.name && text[0] == m.name[0];
    KeepsTheFirst(text);
    FirstPartLength(Trim(text), OUTSIDE);
    LeadScans(m, m.value);
    if !IsTrimmed(text) {
      TrimmedStays(text);
      LongerTextsDoNotRead(compiles, m, text);
      ValueEndsTheText(m);
    } else if !NeverCuts(text, OUTSIDE) {
      TrimmedStays(text);
      LongerTextsDoNotRead(compiles, m, text);
    } else {
      TrimmedStays(text);
      OnePartReads(compiles, text);
      ValueReadsWhen(compiles, m);
    }
  }

  lemma ValueEndsTheText(m: Matcher)
    requires IsLabelName(m.name) && !IsTrimmed(ShowMatcher(m))
    ensures !IsTrimmed(m.value)
  {
    if IsTrimmed(m.value) {
      LeadsATrimmed(m.name, m.op, m.value);
    }
  }

  lemma OnePart(read: Reader, text: string)
    requires text != "" && Trim(text) == text
    ensures ParseParts(read, [text]) == match read(text) case Err(error) => Err(error) case Ok(m) => Ok([m])
  {
    assert [text][..0] == [];
    assert ParseParts(read, [text][..0]) == Ok([]);
    if read(text).Ok? {
      assert [] + [read(text).value] == [read(text).value];
    }
  }

  lemma OnePartReads(compiles: Compiler, text: string)
    requires text != [] && IsTrimmed(text) && text[0] != '{' && NeverCuts(text, OUTSIDE)
    ensures forall m :: Parsed(compiles, text) == Ok([m]) <==> ParseMatcher(compiles, text) == Ok(m)
  {
    TrimmedStays(text);
    FirstPartLength(text, OUTSIDE);
    OnePart(MatcherReader(compiles), text);
    assert Parsed(compiles, text) == ParseParts(MatcherReader(compiles), [text]);
  }

  lemma TildesChangeTheOperator(compiles: Compiler, m: Matcher)
    requires IsValid(compiles, m) && SpellsRegex(m, m.value)
    ensures ParseMatcher(compiles, ShowMatcher(m)) != Ok(m)
  {
    var tail := m.value[1..];
    RegexIsFound(m.name, m.value);
    TildeMoves(m.value);
    ReadsAt(compiles, m.name, m.op, m.value, RegexMatch, tail);
    assert forall value :: NewMatcher(compiles, m.name, RegexMatch, value) != Ok(m);
  }

  lemma TildeMoves(value: string)
    requires value != [] && value[0] == '~'
    ensures "=~" + value[1..] == "=" + value
  {
  }

  lemma SurvivesWhen(value: string)
    ensures Unquote(Trim(value)) == value <==> IsTrimmed(value) && !IsQuoted(value)
  {
    TrimmedStays(value);
    UnquotingKeeps(Trim(value));
    if |Trim(value)| == |value| {
      TrimmingKeepsLength(value);
    }
  }

  // In one piece, what decides is whether the value survives trimming and unquoting.
  lemma ValueReadsWhen(compiles: Compiler, m: Matcher)
    requires IsValid(compiles, m)
    ensures
      ParseMatcher(compiles, ShowMatcher(m)) == Ok(m)
      <==> IsTrimmed(m.value) && !IsQuoted(m.value) && !SpellsRegex(m, m.value)
  {
    if SpellsRegex(m, m.value) {
      TildesChangeTheOperator(compiles, m);
    } else {
      SurvivesWhen(m.value);
      MatcherReads(compiles, m, m.value);
    }
  }

  lemma TrimmingKeepsLength(s: string)
    requires |Trim(s)| == |s|
    ensures Trim(s) == s
  {
    StartsAreTrimmed(s);
    EndsAreTrimmed(TrimStart(s));
    assert s[0..] == s;
  }
}
