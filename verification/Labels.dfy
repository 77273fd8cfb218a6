/** Label sets as ordered byte strings, and the 64-bit FNV-1a hash over them. */
module Labels {
  import opened Wrappers

  newtype Octet = x: int | 0 <= x < 0x100

  // UTF-8 never produces the byte 0xff, which is what makes it usable as a separator.
  newtype TextByte = x: int | 0 <= x < 0xff

  type Text = seq<TextByte>

  datatype Label = Label(name: Text, value: Text)

  // Byte-wise lexicographic order, the order a pair map is iterated in.
  predicate Less(a: Text, b: Text) {
    b != [] && (a == [] || a[0] < b[0] || (a[0] == b[0] && Less(a[1..], b[1..])))
  }

  predicate Ordered(labels: seq<Label>) {
    forall i, j :: 0 <= i < j < |labels| ==> Less(labels[i].name, labels[j].name)
  }

  type Labels = labels: seq<Label> | Ordered(labels) witness []

  function Get(labels: seq<Label>, name: Text): Option<Text> {
    if labels == [] then None
    else if labels[0].name == name then Some(labels[0].value)
    else Get(labels[1..], name)
  }

  lemma {:induction false} LessIsIrreflexive(a: Text)
    ensures !Less(a, a)
  {
    if a != [] {
      LessIsIrreflexive(a[1..]);
    }
  }

  lemma {:induction false} GetMeansMember(labels: seq<Label>, name: Text)
    ensures Get(labels, name).Some? ==> Label(name, Get(labels, name).value) in labels
    ensures Get(labels, name).None? <==> forall pair :: pair in labels ==> pair.name != name
  {
    if labels != [] {
      GetMeansMember(labels[1..], name);
      assert forall pair :: pair in labels <==> pair == labels[0] || pair in labels[1..];
    }
  }

  lemma {:induction false} MemberMeansGet(labels: Labels, pair: Label)
    requires pair in labels
    ensures Get(labels, pair.name) == Some(pair.value)
  {
    LessIsIrreflexive(pair.name);
    if labels[0] != pair {
      assert pair in labels[1..];
      MemberMeansGet(labels[1..], pair);
    }
  }

  // Two ordered pair sets that answer every lookup alike are the same sequence.
  lemma {:induction false} LookupsDetermineLabels(a: Labels, b: Labels)
    requires forall name :: Get(a, name) == Get(b, name)
    ensures a == b
    decreases |a| + |b|
  {
    assert a != [] ==> Get(b, a[0].name).Some?;
    assert b != [] ==> Get(a, b[0].name).Some?;
    if a != [] {
      HeadsAgree(a, b);
      forall name ensures Get(a[1..], name) == Get(b[1..], name) {
        if name == a[0].name {
          HeadIsGone(a);
          HeadIsGone(b);
        } else {
          assert Get(a, name) == Get(b, name);
        }
      }
      LookupsDetermineLabels(a[1..], b[1..]);
    }
  }

  lemma {:induction false} HeadIsGone(a: Labels)
    requires a != []
    ensures Get(a[1..], a[0].name).None?
  {
    GetMeansMember(a[1..], a[0].name);
    forall pair | pair in a[1..] ensures pair.name != a[0].name {
      LessIsIrreflexive(pair.name);
    }
  }

  lemma {:induction false} HeadsAgree(a: Labels, b: Labels)
    requires a != [] && b != []
    requires forall name :: Get(a, name) == Get(b, name)
    ensures a[0] == b[0]
  {
    assert Get(a, a[0].name) == Get(b, a[0].name);
    assert Get(a, b[0].name) == Get(b, b[0].name);
    if a[0].name != b[0].name {
      GetMeansMember(b, a[0].name);
      GetMeansMember(a, b[0].name);
      assert Less(b[0].name, a[0].name);
      assert Less(a[0].name, b[0].name);
      LessIsAsymmetric(a[0].name, b[0].name);
    }
  }

  lemma {:induction false} LessIsAsymmetric(a: Text, b: Text)
    requires Less(a, b)
    ensures !Less(b, a)
  {
    if a != [] && a[0] == b[0] {
      LessIsAsymmetric(a[1..], b[1..]);
    }
  }

  // The bytes fed to the hash: every name and every value closed by a separator.
  const SEPARATOR: Octet := 0xff

  function Bytes(text: Text): (r: seq<Octet>)
    ensures |r| == |text|
    ensures forall i :: 0 <= i < |r| ==> r[i] == text[i] as Octet
  {
    seq(|text|, i requires 0 <= i < |text| => text[i] as Octet)
  }

  function Stream(labels: seq<Label>): seq<Octet> {
    if labels == [] then []
    else Bytes(labels[0].name) + [SEPARATOR] + Bytes(labels[0].value) + [SEPARATOR] + Stream(labels[1..])
  }

  lemma FirstSeparator(x: Text, more: seq<Octet>)
    ensures
      var stream := Bytes(x) + [SEPARATOR] + more;
      stream[|x|] == SEPARATOR && forall i :: 0 <= i < |x| ==> stream[i] == x[i] as Octet != SEPARATOR
  {
  }

  // A text closed by a separator can be cut off the front of a stream in one way only.
  lemma {:induction false} CutOnce(x: Text, y: Text, more: seq<Octet>, rest: seq<Octet>)
    requires Bytes(x) + [SEPARATOR] + more == Bytes(y) + [SEPARATOR] + rest
    ensures x == y && more == rest
  {
    var stream := Bytes(x) + [SEPARATOR] + more;
    FirstSeparator(x, more);
    FirstSeparator(y, rest);
    assert |x| == |y|;
    forall i | 0 <= i < |x| ensures x[i] == y[i] {
      assert stream[i] == x[i] as Octet && stream[i] == y[i] as Octet;
    }
    assert more == stream[|x| + 1..] && rest == stream[|y| + 1..];
  }

  // The stream is uniquely decodable: no two pair lists are spelled alike.
  lemma {:induction false} StreamIsInjective(a: seq<Label>, b: seq<Label>)
    requires Stream(a) == Stream(b)
    ensures a == b
  {
    if a != [] && b != [] {
      var aValue := Bytes(a[0].value) + [SEPARATOR] + Stream(a[1..]);
      var bValue := Bytes(b[0].value) + [SEPARATOR] + Stream(b[1..]);
      assert Stream(a) == Bytes(a[0].name) + [SEPARATOR] + aValue;
      assert Stream(b) == Bytes(b[0].name) + [SEPARATOR] + bValue;
      CutOnce(a[0].name, b[0].name, aValue, bValue);
      CutOnce(a[0].value, b[0].value, Stream(a[1..]), Stream(b[1..]));
      StreamIsInjective(a[1..], b[1..]);
      assert a == [a[0]] + a[1..] && b == [b[0]] + b[1..];
    }
  }

  const TWO_64: nat := 0x1_0000_0000_0000_0000
  const FNV_OFFSET: nat := 0xcbf2_9ce4_8422_2325
  const FNV_PRIME: nat := 0x0000_0100_0000_01b3

  type Hash = h: nat | h < TWO_64

  // `hash ^ byte`: only the low eight bits of a 64-bit word can change.
  function XorLow(hash: Hash, byte: Octet): Hash {
    var low := (hash % 0x100) as bv8 ^ (byte as bv8);
    hash - hash % 0x100 + low as int
  }

  // One step: fold the byte in, then multiply with wrap-around.
  function Step(hash: Hash, byte: Octet): Hash {
    XorLow(hash, byte) * FNV_PRIME % TWO_64
  }

  function Fnv(hash: Hash, bytes: seq<Octet>): Hash
    decreases |bytes|
  {
    if bytes == [] then hash else Fnv(Step(hash, bytes[0]), bytes[1..])
  }

  lemma {:induction false} FnvSplits(hash: Hash, a: seq<Octet>, b: seq<Octet>)
    ensures Fnv(hash, a + b) == Fnv(Fnv(hash, a), b)
    decreases |a|
  {
    if a == [] {
      assert a + b == b;
    } else {
      assert (a + b)[1..] == a[1..] + b;
      FnvSplits(Step(hash, a[0]), a[1..], b);
    }
  }

  method Fnv1a(start: Hash, bytes: seq<Octet>) returns (hash: Hash)
    ensures hash == Fnv(start, bytes)
  {
    hash := start;
    for i := 0 to |bytes|
      invariant Fnv(hash, bytes[i..]) == Fnv(start, bytes)
    {
      hash := Step(hash, bytes[i]);
    }
  }

  // Sixteen lower-case hexadecimal digits.
  const HEX: string := "0123456789abcdef"

  function Hex(value: nat, digits: nat): (r: string)
    ensures |r| == digits
  {
    if digits == 0 then "" else Hex(value / 16, digits - 1) + [HEX[value % 16]]
  }

  function Power16(digits: nat): nat {
    if digits == 0 then 1 else 16 * Power16(digits - 1)
  }

  lemma {:induction false} HexIsInjective(a: nat, b: nat, digits: nat)
    requires a < Power16(digits) && b < Power16(digits)
    requires Hex(a, digits) == Hex(b, digits)
    ensures a == b
  {
    if digits > 0 {
      assert Hex(a / 16, digits - 1) == Hex(a, digits)[..digits - 1];
      assert Hex(b / 16, digits - 1) == Hex(b, digits)[..digits - 1];
      assert Hex(a, digits)[digits - 1] == HEX[a % 16];
      assert Hex(b, digits)[digits - 1] == HEX[b % 16];
      HexIsInjective(a / 16, b / 16, digits - 1);
    }
  }

  type Fingerprint = string

  function FromHash(hash: Hash): Fingerprint {
    Hex(hash, 16)
  }

  lemma FromHashIsInjective(a: Hash, b: Hash)
    requires FromHash(a) == FromHash(b)
    ensures a == b
  {
    assert Power16(16) == TWO_64 by {
      assert Power16(4) == 0x1_0000;
      assert Power16(8) == 0x1_0000_0000;
      assert Power16(12) == 0x1_0000_0000_0000;
    }
    HexIsInjective(a, b, 16);
  }

  // The fingerprint Alertmanager assigns: the hash of the whole pair set.
  function FingerprintOf(labels: Labels): Fingerprint {
    FromHash(Fnv(FNV_OFFSET, Stream(labels)))
  }
}
