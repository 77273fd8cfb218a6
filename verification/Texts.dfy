/** Strings the way the program counts and spells them: decimal integers, UTF-8 and UTF-16 lengths. */
module Texts {
  import opened Wrappers
  import opened Labels

  const DIGITS: string := "0123456789"

  predicate IsDigit(c: char) {
    '0' <= c <= '9'
  }

  function Natural(n: nat): (r: string)
    ensures r != [] && forall c :: c in r ==> IsDigit(c)
  {
    if n < 10 then [DIGITS[n]] else Natural(n / 10) + [DIGITS[n % 10]]
  }

  function Decimal(n: int): string {
    if n < 0 then "-" + Natural(-n) else Natural(n)
  }

  function ParseDigits(s: string): (r: nat)
    requires forall c :: c in s ==> IsDigit(c)
  {
    if s == [] then 0
    else
      assert IsDigit(s[|s| - 1]);
      10 * ParseDigits(s[..|s| - 1]) + (s[|s| - 1] as int - '0' as int)
  }

  const I64_MIN: int := -0x8000_0000_0000_0000
  const I64_MAX: int := 0x7fff_ffff_ffff_ffff

  predicate IsI64(n: int) {
    I64_MIN <= n <= I64_MAX
  }

  // An optional sign, at least one digit, and a value that fits 64 bits.
  function ParseI64(s: string): Option<int> {
    var digits := if s != [] && (s[0] == '-' || s[0] == '+') then s[1..] else s;
    if digits == [] || exists c :: c in digits && !IsDigit(c) then None
    else
      var value: int := if s[0] == '-' then 0 - ParseDigits(digits) else ParseDigits(digits);
      if IsI64(value) then Some(value) else None
  }

  lemma {:induction false} NaturalParses(n: nat)
    ensures ParseDigits(Natural(n)) == n
  {
    if n >= 10 {
      NaturalParses(n / 10);
      assert Natural(n)[..|Natural(n)| - 1] == Natural(n / 10);
    }
  }

  lemma DecimalParses(n: int)
    requires IsI64(n)
    ensures ParseI64(Decimal(n)) == Some(n)
    ensures ':' !in Decimal(n)
  {
    var digits := Natural(if n < 0 then -n else n);
    NaturalParses(if n < 0 then -n else n);
    assert IsDigit(digits[0]);
    if n < 0 {
      assert Decimal(n)[1..] == digits;
    }
  }

  lemma NaturalsAreDistinct(a: nat, b: nat)
    ensures Decimal(a) == Decimal(b) <==> a == b
    ensures ':' !in Decimal(a)
  {
    NaturalParses(a);
    NaturalParses(b);
  }

  // The text before and after the first occurrence of `c`.
  function SplitOnce(s: string, c: char): (r: Option<(string, string)>)
    ensures r.Some? ==> r.value.0 + [c] + r.value.1 == s && c !in r.value.0
    ensures r.None? <==> c !in s
  {
    if s == [] then None
    else if s[0] == c then Some(("", s[1..]))
    else
      match SplitOnce(s[1..], c)
      case None => None
      case Some((before, after)) => Some(([s[0]] + before, after))
  }

  lemma {:induction false} SplitOnceFindsTheFirst(before: string, c: char, after: string)
    requires c !in before
    ensures SplitOnce(before + [c] + after, c) == Some((before, after))
  {
    var s := before + [c] + after;
    if before == [] {
      assert s[1..] == after;
    } else {
      assert s[1..] == before[1..] + [c] + after;
      SplitOnceFindsTheFirst(before[1..], c, after);
      assert [s[0]] + before[1..] == before;
    }
  }

  function StripPrefix(s: string, prefix: string): (r: Option<string>)
    ensures r.Some? ==> s == prefix + r.value
    ensures r.Some? <==> prefix <= s
  {
    if prefix <= s then Some(s[|prefix|..]) else None
  }

  function Utf8Char(c: char): seq<Octet> {
    var n := c as int;
    if n < 0x80 then [n as Octet]
    else if n < 0x800 then [(0xc0 + n / 0x40) as Octet, (0x80 + n % 0x40) as Octet]
    else if n < 0x1_0000 then
      [(0xe0 + n / 0x1000) as Octet, (0x80 + n / 0x40 % 0x40) as Octet, (0x80 + n % 0x40) as Octet]
    else
      [(0xf0 + n / 0x4_0000) as Octet, (0x80 + n / 0x1000 % 0x40) as Octet,
       (0x80 + n / 0x40 % 0x40) as Octet, (0x80 + n % 0x40) as Octet]
  }

  function Utf8(s: string): seq<Octet> {
    if s == [] then [] else Utf8Char(s[0]) + Utf8(s[1..])
  }

  function Utf8Len(s: string): nat {
    |Utf8(s)|
  }

  lemma {:induction false} Utf8LenSplits(a: string, b: string)
    ensures Utf8Len(a + b) == Utf8Len(a) + Utf8Len(b)
  {
    if a == [] {
      assert a + b == b;
    } else {
      assert (a + b)[1..] == a[1..] + b;
      Utf8LenSplits(a[1..], b);
    }
  }
}
