/** What the 64-bit FNV-1a hash computes: its published answers, and what one byte does to it. */
module Hashing {
  import opened Wrappers
  import opened Labels
  import opened Texts
  import opened DedupeKeys

  // ---- One byte

  function Low(hash: Hash): bv8 {
    (hash % 0x100) as bv8
  }

  lemma XorSplits(hash: Hash, a: Octet) returns (low: bv8)
    ensures low == Low(hash) ^ (a as bv8)
    ensures XorLow(hash, a) / 0x100 == hash / 0x100 && XorLow(hash, a) % 0x100 == low as int
  {
    low := Low(hash) ^ (a as bv8);
    assert XorLow(hash, a) == hash / 0x100 * 0x100 + low as int;
  }

  lemma BackAgain(low: bv8, n: nat)
    requires n == low as int
    ensures n < 0x100 && n as bv8 == low
  {
  }

  lemma LowBytesXor(low: bv8, a: bv8, b: bv8)
    ensures (low ^ a) ^ a == low && low ^ 0 == low
    ensures low ^ a == low ^ b <==> a == b
  {
  }

  lemma LowOf(hash: Hash, low: bv8)
    requires hash % 0x100 == low as int
    ensures Low(hash) == low
  {
    BackAgain(low, hash % 0x100);
  }

  lemma BitsOf(n: nat)
    requires n < 0x100
    ensures (n as bv8) as int == n
  {
    assert n % 0x100 == n;
  }

  lemma LowIsTheRemainder(hash: Hash)
    ensures Low(hash) as int == hash % 0x100
  {
    BitsOf(hash % 0x100);
  }

  lemma ByteIsItsBits(a: Octet)
    ensures (a as bv8) as int == a as int
  {
    BitsOf(a as int);
  }

  // A word is its high part and its low byte.
  lemma Words(x: nat, y: nat)
    requires x / 0x100 == y / 0x100 && x % 0x100 == y % 0x100
    ensures x == y
  {
  }

  // Folding a byte in changes the low byte only, undoes itself, and tells bytes apart.
  lemma XorUndoesItself(hash: Hash, a: Octet)
    ensures XorLow(hash, a) / 0x100 == hash / 0x100 && XorLow(XorLow(hash, a), a) == hash
  {
    var folded := XorLow(hash, a);
    var low := XorSplits(hash, a);
    LowOf(folded, low);
    Unfolded(hash, folded, a, low);
  }

  lemma Unfolded(hash: Hash, folded: Hash, a: Octet, low: bv8)
    requires folded / 0x100 == hash / 0x100 && Low(folded) == low == Low(hash) ^ (a as bv8)
    ensures XorLow(folded, a) == hash
  {
    var back := XorSplits(folded, a);
    LowBytesXor(Low(hash), a as bv8, a as bv8);
    LowIsTheRemainder(hash);
    Words(XorLow(folded, a), hash);
  }

  lemma SameBits(x: bv8, y: bv8, n: nat)
    requires x as int == n == y as int
    ensures x == y
  {
    BackAgain(x, n);
    BackAgain(y, n);
  }

  lemma XorTellsBytesApart(hash: Hash, a: Octet, b: Octet)
    requires XorLow(hash, a) == XorLow(hash, b)
    ensures a == b
  {
    var x := XorSplits(hash, a);
    var y := XorSplits(hash, b);
    SameBits(x, y, XorLow(hash, a) % 0x100);
    LowBytesXor(Low(hash), a as bv8, b as bv8);
    ByteIsItsBits(a);
    ByteIsItsBits(b);
  }

  // ---- The last byte

  lemma LastByteIsAStep(start: Hash, bytes: seq<Octet>, last: Octet)
    ensures Fnv(start, bytes + [last]) == Step(Fnv(start, bytes), last)
  {
    FnvSplits(start, bytes, [last]);
    assert [last][1..] == [];
  }

  lemma Remainders(x: int, y: int)
    ensures (x % TWO_64 - y % TWO_64 - (x - y)) % TWO_64 == 0
  {
    var p, q := x / TWO_64, y / TWO_64;
    assert x % TWO_64 - y % TWO_64 - (x - y) == (q - p) * TWO_64;
    Multiples(q - p);
  }

  lemma Multiples(k: int)
    ensures k * TWO_64 % TWO_64 == 0
  {
  }

  // Two streams that part at the last byte have hashes as far apart, modulo the word, as the prime times
  // what the byte made of the low byte.
  lemma LastBytesPartByThePrime(start: Hash, bytes: seq<Octet>, a: Octet, b: Octet)
    ensures
      var before := Fnv(start, bytes);
      && XorLow(before, a) / 0x100 == before / 0x100 == XorLow(before, b) / 0x100
      && (Fnv(start, bytes + [a]) - Fnv(start, bytes + [b]) - (XorLow(before, a) * FNV_PRIME - XorLow(before, b) * FNV_PRIME))
         % TWO_64 == 0
  {
    var before := Fnv(start, bytes);
    var x := XorSplits(before, a);
    var y := XorSplits(before, b);
    LastByteIsAStep(start, bytes, a);
    LastByteIsAStep(start, bytes, b);
    Remainders(XorLow(before, a) * FNV_PRIME, XorLow(before, b) * FNV_PRIME);
  }

  // So no two streams that part at the last byte collide.
  lemma LastBytesNeverCollide(start: Hash, bytes: seq<Octet>, a: Octet, b: Octet)
    ensures Fnv(start, bytes + [a]) == Fnv(start, bytes + [b]) <==> a == b
  {
    if Fnv(start, bytes + [a]) == Fnv(start, bytes + [b]) {
      var before := Fnv(start, bytes);
      LastBytesPartByThePrime(start, bytes, a, b);
      NothingSmallVanishes(XorLow(before, b) - XorLow(before, a));
      XorTellsBytesApart(before, a, b);
    }
  }

  lemma NothingSmallVanishes(d: int)
    requires -0x100 < d < 0x100 && d * FNV_PRIME % TWO_64 == 0
    ensures d == 0
  {
  }

  // ---- Published answers

  function Word(high: nat, low: bv8): nat {
    high * 0x100 + low as int
  }

  lemma WordSplits(high: nat, low: bv8)
    ensures Word(high, low) / 0x100 == high && Word(high, low) % 0x100 == low as int
  {
  }

  lemma BitsAre(byte: Octet, bits: bv8)
    requires byte as int == bits as int
    ensures byte as bv8 == bits
  {
    BackAgain(bits, byte as int);
  }

  lemma FoldedWord(hash: Hash, byte: Octet, high: nat, low: bv8, bits: bv8)
    requires hash / 0x100 == high && Low(hash) == low && byte as bv8 == bits
    ensures XorLow(hash, byte) == Word(high, low ^ bits)
  {
    var same := XorSplits(hash, byte);
    WordSplits(high, same);
    Words(XorLow(hash, byte), Word(high, same));
  }

  lemma StepIs(hash: Hash, high: nat, low: bv8, byte: Octet, bits: bv8, next: Hash)
    requires hash == Word(high, low) && byte as int == bits as int
    requires next == Word(high, low ^ bits) * FNV_PRIME % TWO_64
    ensures Step(hash, byte) == next
  {
    WordSplits(high, low);
    LowOf(hash, low);
    BitsAre(byte, bits);
    FoldedWord(hash, byte, high, low, bits);
  }

  // A stream hashed byte by byte.
  lemma {:induction false} FoldedThrough(hashes: seq<Hash>, bytes: seq<Octet>)
    requires |hashes| == |bytes| + 1 && forall i :: 0 <= i < |bytes| ==> Step(hashes[i], bytes[i]) == hashes[i + 1]
    ensures Fnv(hashes[0], bytes) == hashes[|bytes|]
    decreases |bytes|
  {
    if bytes != [] {
      FoldedThrough(hashes[1..], bytes[1..]);
    }
  }

  // The 64-bit FNV-1a answers for the empty string, "a" and "foobar".
  lemma PublishedAnswers()
    ensures Fnv(FNV_OFFSET, []) == 0xcbf2_9ce4_8422_2325
    ensures Fnv(FNV_OFFSET, [0x61]) == 0xaf63_dc4c_8601_ec8c
    ensures Fnv(FNV_OFFSET, [0x66, 0x6f, 0x6f, 0x62, 0x61, 0x72]) == 0x8594_4171_f739_67e8
  {
    StepIs(0xcbf2_9ce4_8422_2325, 0xcb_f29c_e484_2223, 0x25, 0x61, 0x61, 0xaf63_dc4c_8601_ec8c);
    FoldedThrough([FNV_OFFSET, 0xaf63_dc4c_8601_ec8c], [0x61]);
    FoobarFolds();
    FoldedThrough(FOOBAR_HASHES, FOOBAR);
  }

  const FOOBAR: seq<Octet> := [0x66, 0x6f, 0x6f, 0x62, 0x61, 0x72]

  const FOOBAR_HASHES: seq<Hash> := [
    0xcbf2_9ce4_8422_2325,
    0xaf63_db4c_8601_ead9,
    0x0898_5907_b541_d342,
    0xdcb2_7518_fed9_d577,
    0xdd12_0e79_0c25_12af,
    0xcac1_65af_a2fe_f40a,
    0x8594_4171_f739_67e8]

  lemma FoobarFolds()
    ensures |FOOBAR_HASHES| == |FOOBAR| + 1
    ensures forall i :: 0 <= i < |FOOBAR| ==> Step(FOOBAR_HASHES[i], FOOBAR[i]) == FOOBAR_HASHES[i + 1]
  {
    FooFolds();
    BarFolds();
  }

  lemma FooFolds()
    ensures forall i :: 0 <= i < 3 ==> Step(FOOBAR_HASHES[i], FOOBAR[i]) == FOOBAR_HASHES[i + 1]
  {
    StepIs(0xcbf2_9ce4_8422_2325, 0xcb_f29c_e484_2223, 0x25, 0x66, 0x66, 0xaf63_db4c_8601_ead9);
    StepIs(0xaf63_db4c_8601_ead9, 0xaf_63db_4c86_01ea, 0xd9, 0x6f, 0x6f, 0x0898_5907_b541_d342);
    StepIs(0x0898_5907_b541_d342, 0x08_9859_07b5_41d3, 0x42, 0x6f, 0x6f, 0xdcb2_7518_fed9_d577);
  }

  lemma BarFolds()
    ensures forall i :: 3 <= i < 6 ==> Step(FOOBAR_HASHES[i], FOOBAR[i]) == FOOBAR_HASHES[i + 1]
  {
    StepIs(0xdcb2_7518_fed9_d577, 0xdc_b275_18fe_d9d5, 0x77, 0x62, 0x62, 0xdd12_0e79_0c25_12af);
    StepIs(0xdd12_0e79_0c25_12af, 0xdd_120e_790c_2512, 0xaf, 0x61, 0x61, 0xcac1_65af_a2fe_f40a);
    StepIs(0xcac1_65af_a2fe_f40a, 0xca_c165_afa2_fef4, 0x0a, 0x72, 0x72, 0x8594_4171_f739_67e8);
  }

  // A key's lane is the remainder of its hash: of the sixteen bits 0x67e8, in 1024 lanes, the low ten.
  lemma LanesAreRemainders()
    ensures Lane("foobar", 1024) == 0x3e8 && Lane("foobar", 1) == 0
  {
    PublishedAnswers();
    FoobarIsItsBytes();
  }

  lemma FoobarIsItsBytes()
    ensures Utf8("foobar") == FOOBAR
  {
    assert Utf8("r") == [0x72];
    assert Utf8("ar") == [0x61, 0x72];
    assert Utf8("bar") == [0x62, 0x61, 0x72];
    assert Utf8("obar") == [0x6f, 0x62, 0x61, 0x72];
    assert Utf8("oobar") == [0x6f, 0x6f, 0x62, 0x61, 0x72];
  }

  // The fingerprint of no labels at all: the offset, in sixteen lower-case digits.
  lemma EmptyFingerprint()
    ensures FingerprintOf([]) == "cbf29ce484222325"
  {
    LeadingDigits();
    TrailingDigits();
  }

  lemma OneMoreDigit(value: nat, digits: nat, text: string, next: nat, digit: char)
    requires Hex(value, digits) == text && next / 16 == value && HEX[next % 16] == digit
    ensures Hex(next, digits + 1) == text + [digit]
  {
  }

  lemma LeadingDigits()
    ensures Hex(0xcbf2_9ce4, 8) == "cbf29ce4"
  {
    OneMoreDigit(0, 0, "", 0xc, 'c');
    OneMoreDigit(0xc, 1, "c", 0xcb, 'b');
    OneMoreDigit(0xcb, 2, "cb", 0xcbf, 'f');
    OneMoreDigit(0xcbf, 3, "cbf", 0xcbf2, '2');
    OneMoreDigit(0xcbf2, 4, "cbf2", 0xcbf29, '9');
    OneMoreDigit(0xcbf29, 5, "cbf29", 0xcbf29c, 'c');
    OneMoreDigit(0xcbf29c, 6, "cbf29c", 0xcbf29ce, 'e');
    OneMoreDigit(0xcbf29ce, 7, "cbf29ce", 0xcbf29ce4, '4');
  }

  lemma TrailingDigits()
    requires Hex(0xcbf2_9ce4, 8) == "cbf29ce4"
    ensures Hex(0xcbf2_9ce4_8422_2325, 16) == "cbf29ce484222325"
  {
    assert Hex(0xcbf29ce48, 9) == "cbf29ce48";
    assert Hex(0xcbf29ce484, 10) == "cbf29ce484";
    assert Hex(0xcbf29ce4842, 11) == "cbf29ce4842";
    assert Hex(0xcbf29ce48422, 12) == "cbf29ce48422";
    assert Hex(0xcbf29ce484222, 13) == "cbf29ce484222";
    assert Hex(0xcbf29ce4842223, 14) == "cbf29ce4842223";
    assert Hex(0xcbf29ce48422232, 15) == "cbf29ce48422232";
  }
}
