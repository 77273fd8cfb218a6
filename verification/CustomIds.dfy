/** The string a button carries: a version, an action, a card and perhaps an argument. */
module CustomIds {
  import opened Wrappers
  import opened Labels
  import opened Texts

  const MAX_CUSTOM_ID: nat := 100
  const VERSION: string := "v1"
  const U64: nat := 0x1_0000_0000_0000_0000
  const ALPHABET: string := "0123456789ABCDEFGHJKMNPQRSTVWXYZ"

  // ---- Base 32

  function Position(c: char, alphabet: string): (r: Option<nat>)
    ensures r.Some? ==> r.value < |alphabet| && alphabet[r.value] == c
    ensures r.None? <==> c !in alphabet
  {
    if alphabet == [] then None
    else if alphabet[0] == c then Some(0)
    else
      match Position(c, alphabet[1..])
      case None => None
      case Some(n) => Some(n + 1)
  }

  predicate IsKey(s: string) {
    forall c :: c in s ==> c in ALPHABET
  }

  // What a string of alphabet characters stands for, most significant first.
  function Value(s: string): nat
    requires IsKey(s)
  {
    if s == [] then 0
    else
      assert s[|s| - 1] in s;
      32 * Value(s[..|s| - 1]) + Position(s[|s| - 1], ALPHABET).value
  }

  // The shortest form.
  function Shortest(value: nat): (s: string)
    ensures s != [] && IsKey(s)
  {
    if value < 32 then [ALPHABET[value]] else Shortest(value / 32) + [ALPHABET[value % 32]]
  }

  method EncodeBase32(value: nat) returns (s: string)
    ensures s == Shortest(value)
  {
    if value == 0 {
      assert Shortest(0) == [ALPHABET[0]] == "0";
      return "0";
    }
    var digits: string := "";
    var rest := value;
    while rest > 0
      invariant rest >= 0
      invariant rest > 0 ==> Shortest(value) == Shortest(rest) + Reversed(digits)
      invariant rest == 0 ==> Shortest(value) == Reversed(digits)
    {
      ghost var before := digits;
      digits := digits + [ALPHABET[rest % 32]];
      ReversedGrows(before, ALPHABET[rest % 32]);
      assert rest >= 32 ==>
        Shortest(rest / 32) + [ALPHABET[rest % 32]] + Reversed(before)
        == Shortest(rest / 32) + ([ALPHABET[rest % 32]] + Reversed(before));
      rest := rest / 32;
    }
    s := Reversed(digits);
  }

  function Reversed(s: string): (r: string)
    ensures |r| == |s|
  {
    if s == [] then [] else [s[|s| - 1]] + Reversed(s[..|s| - 1])
  }

  lemma ReversedGrows(s: string, c: char)
    ensures Reversed(s + [c]) == [c] + Reversed(s)
  {
    assert (s + [c])[..|s|] == s;
  }

  // Accepts one to thirteen alphabet characters whose value fits 64 bits, and nothing else.
  function Decoded(raw: string): Option<nat> {
    if 1 <= Utf8Len(raw) <= 13 && IsKey(raw) && Value(raw) < U64 then Some(Value(raw)) else None
  }

  function CheckedMul(a: nat, b: nat): Option<nat> {
    if a * b < U64 then Some(a * b) else None
  }

  function CheckedAdd(a: nat, b: nat): Option<nat> {
    if a + b < U64 then Some(a + b) else None
  }

  method DecodeBase32(raw: string) returns (decoded: Option<nat>)
    ensures decoded == Decoded(raw)
  {
    if Utf8Len(raw) == 0 || Utf8Len(raw) > 13 {
      return None;
    }
    var value: nat := 0;
    for i := 0 to |raw|
      invariant IsKey(raw[..i]) && value == Value(raw[..i]) < U64
    {
      assert raw[..i + 1][..i] == raw[..i] && raw[i] in raw;
      var digit := Position(raw[i], ALPHABET);
      if digit.None? {
        return None;
      }
      assert IsKey(raw[..i + 1]);
      var shifted := CheckedMul(value, 32);
      var sum := if shifted.Some? then CheckedAdd(shifted.value, digit.value) else None;
      if sum.None? {
        assert Value(raw[..i + 1]) >= U64;
        if IsKey(raw) {
          PrefixesAreSmaller(raw, i + 1);
        }
        return None;
      }
      value := sum.value;
    }
    assert raw[..|raw|] == raw;
    decoded := Some(value);
  }

  lemma {:induction false} PrefixesAreSmaller(s: string, n: nat)
    requires IsKey(s) && n <= |s|
    ensures IsKey(s[..n]) && Value(s[..n]) <= Value(s)
  {
    if n < |s| {
      var init := s[..|s| - 1];
      assert init[..n] == s[..n];
      PrefixesAreSmaller(init, n);
    } else {
      assert s[..n] == s;
    }
  }

  lemma {:induction false} ShortestMeansValue(value: nat)
    ensures Value(Shortest(value)) == value
  {
    if value < 32 {
      OneDigit(Shortest(value), value);
    } else {
      ShortestMeansValue(value / 32);
      ValueGrows(Shortest(value / 32), value % 32);
    }
  }

  lemma ValueGrows(s: string, digit: nat)
    requires IsKey(s) && digit < 32
    ensures IsKey(s + [ALPHABET[digit]]) && Value(s + [ALPHABET[digit]]) == 32 * Value(s) + digit
  {
    var longer := s + [ALPHABET[digit]];
    AlphabetIsDistinct(digit);
    assert longer[..|longer| - 1] == s;
  }

  lemma LastDigit(s: string) returns (digit: nat)
    requires IsKey(s) && s != []
    ensures digit < 32 && s == s[..|s| - 1] + [ALPHABET[digit]] && IsKey(s[..|s| - 1])
    ensures Value(s) == 32 * Value(s[..|s| - 1]) + digit
  {
    var init := s[..|s| - 1];
    assert s == init + [s[|s| - 1]] && s[|s| - 1] in s;
    assert forall c :: c in init ==> c in s;
    digit := Position(s[|s| - 1], ALPHABET).value;
    ValueGrows(init, digit);
  }

  lemma {:induction false} LeadingDigitCounts(s: string)
    requires IsKey(s) && s != [] && s[0] != '0'
    ensures Value(s) > 0
  {
    var digit := LastDigit(s);
    if |s| == 1 {
      OneDigit(s, digit);
    } else {
      assert s[..|s| - 1][0] == s[0];
      LeadingDigitCounts(s[..|s| - 1]);
    }
  }

  // A key written without needless zeros is the shortest form of its value, so it has one spelling.
  lemma {:induction false} ShortestIsCanonical(s: string, value: nat)
    requires IsKey(s) && s != [] && (|s| == 1 || s[0] != '0') && value == Value(s)
    ensures Shortest(value) == s
  {
    var digit := LastDigit(s);
    if |s| == 1 {
      OneDigit(s, digit);
    } else {
      LeadingDigitCounts(s[..|s| - 1]);
      ShortestIsCanonical(s[..|s| - 1], Value(s[..|s| - 1]));
      OneMoreDigit(s[..|s| - 1], Value(s[..|s| - 1]), digit, value);
    }
  }

  lemma OneDigit(s: string, digit: nat)
    requires |s| == 1 && IsKey(s) && digit < 32 && ALPHABET[digit] == s[0]
    ensures Value(s) == digit && Shortest(digit) == s && (s[0] != '0' ==> digit > 0)
  {
    AlphabetIsDistinct(digit);
    assert s[..0] == [];
    assert ALPHABET[0] == '0';
  }

  lemma OneMoreDigit(init: string, before: nat, digit: nat, value: nat)
    requires before > 0 && digit < 32 && Shortest(before) == init && value == 32 * before + digit
    ensures Shortest(value) == init + [ALPHABET[digit]]
  {
    assert value / 32 == before && value % 32 == digit;
  }

  lemma AlphabetIsDistinct(n: nat)
    requires n < 32
    ensures Position(ALPHABET[n], ALPHABET) == Some(n)
  {
    PositionOfDistinct(ALPHABET, n);
  }

  lemma {:induction false} PositionOfDistinct(alphabet: string, n: nat)
    requires n < |alphabet| && forall i, j :: 0 <= i < j < |alphabet| ==> alphabet[i] != alphabet[j]
    ensures Position(alphabet[n], alphabet) == Some(n)
  {
    if n > 0 {
      assert alphabet[1..][n - 1] == alphabet[n];
      PositionOfDistinct(alphabet[1..], n - 1);
    }
  }

  lemma {:induction false} ShortestFits(value: nat, digits: nat)
    requires digits >= 1 && value < Power32(digits)
    ensures |Shortest(value)| <= digits
  {
    if value >= 32 {
      assert digits >= 2;
      ShortestFits(value / 32, digits - 1);
    }
  }

  function Power32(n: nat): nat {
    if n == 0 then 1 else 32 * Power32(n - 1)
  }

  lemma {:induction false} AsciiLength(s: string)
    requires IsKey(s)
    ensures Utf8Len(s) == |s|
  {
    if s != [] {
      assert s[0] in s;
      KeysAreAscii(s[0]);
      AsciiLength(s[1..]);
    }
  }

  lemma KeysAreAscii(c: char)
    requires c in ALPHABET
    ensures c as int < 0x80 && c != ':'
  {
    var i :| 0 <= i < |ALPHABET| && ALPHABET[i] == c;
  }

  // Every 64-bit key is written in at most thirteen characters and read back.
  lemma KeysRoundTrip(value: nat)
    requires value < U64
    ensures |Shortest(value)| <= 13 && Decoded(Shortest(value)) == Some(value)
  {
    assert Power32(13) >= U64 by {
      assert Power32(4) == 0x10_0000;
      assert Power32(8) == 0x100_0000_0000;
      assert Power32(12) == 0x1000_0000_0000_0000;
    }
    ShortestFits(value, 13);
    ShortestMeansValue(value);
    AsciiLength(Shortest(value));
  }

  // ---- Identifiers

  datatype Action = Ack | Unack | SilenceMenu | SilenceFor | IgnoreMenu | IgnoreFor | Details | Page

  function Word(action: Action): string {
    match action
    case Ack => "ak"
    case Unack => "uk"
    case SilenceMenu => "sm"
    case SilenceFor => "sf"
    case IgnoreMenu => "im"
    case IgnoreFor => "if"
    case Details => "dt"
    case Page => "pg"
  }

  function ParseAction(word: string): Option<Action> {
    if word == "ak" then Some(Ack)
    else if word == "uk" then Some(Unack)
    else if word == "sm" then Some(SilenceMenu)
    else if word == "sf" then Some(SilenceFor)
    else if word == "im" then Some(IgnoreMenu)
    else if word == "if" then Some(IgnoreFor)
    else if word == "dt" then Some(Details)
    else if word == "pg" then Some(Page)
    else None
  }

  newtype I64 = x: int | -0x8000_0000_0000_0000 <= x < 0x8000_0000_0000_0000

  // The card's key is signed in the database and unsigned on the wire, in two's complement.
  function Unsigned(x: I64): (r: nat)
    ensures r < U64
  {
    if x >= 0 then x as int else (x as int) + U64
  }

  function Signed(n: nat): I64
    requires n < U64
  {
    if n < U64 / 2 then n as I64 else (n - U64) as I64
  }

  datatype CustomId = CustomId(action: Action, entity: I64, argument: Option<string>)

  datatype CustomIdError = Version(found: string) | Malformed | TooLong(len: nat)

  function Render(id: CustomId): string {
    VERSION + (":" + (Word(id.action) + (":" + (Shortest(Unsigned(id.entity)) + ArgumentText(id.argument)))))
  }

  function ArgumentText(argument: Option<string>): string {
    if argument.Some? then ":" + argument.value else ""
  }

  function Encode(id: CustomId): Result<string, CustomIdError> {
    if id.argument.Some? && ':' in id.argument.value then Err(Malformed)
    else
      var rendered := Render(id);
      if Utf8Len(rendered) > MAX_CUSTOM_ID then Err(TooLong(Utf8Len(rendered))) else Ok(rendered)
  }

  // The part before the first separator, and what follows it if there is one.
  function NextPart(raw: string): (string, Option<string>) {
    match SplitOnce(raw, ':')
    case None => (raw, None)
    case Some((part, rest)) => (part, Some(rest))
  }

  // Four parts at most: the last one keeps whatever separators it holds.
  function Decode(raw: string): Result<CustomId, CustomIdError> {
    var (version, afterVersion) := NextPart(raw);
    if version != VERSION then Err(CustomIdError.Version(version))
    else if afterVersion.None? then Err(Malformed)
    else
      var (word, afterWord) := NextPart(afterVersion.value);
      var action := ParseAction(word);
      if action.None? || afterWord.None? then Err(Malformed)
      else
        var (key, argument) := NextPart(afterWord.value);
        match Decoded(key)
        case None => Err(Malformed)
        case Some(entity) => Ok(CustomId(action.value, Signed(entity), argument))
  }

  lemma PartThenRest(part: string, rest: string)
    requires ':' !in part
    ensures NextPart(part + (":" + rest)) == (part, Some(rest))
  {
    assert part + (":" + rest) == part + [':'] + rest;
    SplitOnceFindsTheFirst(part, ':', rest);
  }

  lemma LastPart(part: string)
    requires ':' !in part
    ensures NextPart(part) == (part, None)
  {
  }

  lemma WordsRoundTrip(action: Action)
    ensures ParseAction(Word(action)) == Some(action) && ':' !in Word(action) && Utf8Len(Word(action)) == 2
  {
    var word := Word(action);
    assert word == [word[0], word[1]];
    TwoCharacters(word[0], word[1]);
  }

  lemma KeysHaveNoSeparator(value: nat)
    ensures ':' !in Shortest(value)
  {
    forall c | c in Shortest(value) ensures c != ':' {
      KeysAreAscii(c);
    }
  }

  lemma DecodingInParts(raw: string, afterVersion: string, word: string, afterWord: string, key: string,
                        argument: Option<string>, action: Action, value: nat)
    requires NextPart(raw) == (VERSION, Some(afterVersion)) && NextPart(afterVersion) == (word, Some(afterWord))
    requires NextPart(afterWord) == (key, argument)
    requires ParseAction(word) == Some(action) && value < U64 && Decoded(key) == Some(value)
    ensures Decode(raw) == Ok(CustomId(action, Signed(value), argument))
  {
  }

  lemma JoinedParts(word: string, key: string, argument: Option<string>)
    requires ':' !in word && ':' !in key
    ensures
      var tail := key + ArgumentText(argument);
      var rest := word + (":" + tail);
      && NextPart(VERSION + (":" + rest)) == (VERSION, Some(rest))
      && NextPart(rest) == (word, Some(tail))
      && NextPart(tail) == (key, argument)
  {
    var tail := key + ArgumentText(argument);
    PartThenRest(VERSION, word + (":" + tail));
    PartThenRest(word, tail);
    if argument.Some? {
      PartThenRest(key, argument.value);
    } else {
      assert tail == key;
      LastPart(key);
    }
  }

  lemma SignedUndoesUnsigned(x: I64)
    ensures Signed(Unsigned(x)) == x
  {
  }

  // Whatever the argument, an identifier reads back as it was written.
  lemma RenderedDecodes(id: CustomId)
    ensures Decode(Render(id)) == Ok(id)
  {
    KeysHaveNoSeparator(Unsigned(id.entity));
    WordsRoundTrip(id.action);
    KeysRoundTrip(Unsigned(id.entity));
    SignedUndoesUnsigned(id.entity);
    PartsDecode(Word(id.action), Shortest(Unsigned(id.entity)), id, Unsigned(id.entity));
  }

  lemma PartsDecode(word: string, key: string, id: CustomId, value: nat)
    requires ':' !in word && ':' !in key && ParseAction(word) == Some(id.action)
    requires value < U64 && Decoded(key) == Some(value) && Signed(value) == id.entity
    ensures Decode(VERSION + (":" + (word + (":" + (key + ArgumentText(id.argument)))))) == Ok(id)
  {
    var tail := key + ArgumentText(id.argument);
    var rest := word + (":" + tail);
    JoinedParts(word, key, id.argument);
    DecodingInParts(VERSION + (":" + rest), rest, word, tail, key, id.argument, id.action, value);
  }

  lemma SeparatorsCountOne(rest: string)
    ensures Utf8Len(":" + rest) == 1 + Utf8Len(rest)
  {
    assert (":" + rest)[1..] == rest;
  }

  lemma RenderedLength(id: CustomId)
    ensures Utf8Len(Render(id)) == 6 + |Shortest(Unsigned(id.entity))| + Utf8Len(ArgumentText(id.argument))
  {
    var word, key, text := Word(id.action), Shortest(Unsigned(id.entity)), ArgumentText(id.argument);
    WordsRoundTrip(id.action);
    AsciiLength(key);
    Utf8LenSplits(key, text);
    SeparatorsCountOne(key + text);
    Utf8LenSplits(word, ":" + (key + text));
    SeparatorsCountOne(word + (":" + (key + text)));
    Utf8LenSplits(VERSION, ":" + (word + (":" + (key + text))));
    TwoCharacters('v', '1');
  }

  lemma TwoCharacters(a: char, b: char)
    requires (a as int) < 0x80 && (b as int) < 0x80
    ensures Utf8Len([a, b]) == 2
  {
    assert [a, b][1..] == [b] && [b][1..] == [];
    assert Utf8([b]) == Utf8Char(b) + Utf8([]);
  }

  lemma ArgumentLength(argument: Option<string>)
    ensures Utf8Len(ArgumentText(argument)) == if argument.Some? then 1 + Utf8Len(argument.value) else 0
  {
    if argument.Some? {
      SeparatorsCountOne(argument.value);
    }
  }

  // Every identifier that encodes decodes to itself and fits, and one with no argument always does.
  lemma EncodedDecodes(id: CustomId)
    ensures Encode(id).Ok? ==> Decode(Encode(id).value) == Ok(id) && Utf8Len(Encode(id).value) <= 100
    ensures Encode(id).Ok? <==>
      || id.argument.None?
      || (':' !in id.argument.value
          && 7 + |Shortest(Unsigned(id.entity))| + Utf8Len(id.argument.value) <= 100)
  {
    RenderedDecodes(id);
    EncodesWhen(id);
  }

  lemma EncodesWhen(id: CustomId)
    ensures Encode(id).Ok? ==> Encode(id).value == Render(id) && Utf8Len(Render(id)) <= 100
    ensures Encode(id).Ok? <==>
      || id.argument.None?
      || (':' !in id.argument.value
          && 7 + |Shortest(Unsigned(id.entity))| + Utf8Len(id.argument.value) <= 100)
  {
    RenderedLength(id);
    ArgumentLength(id.argument);
    KeysRoundTrip(Unsigned(id.entity));
  }
}
