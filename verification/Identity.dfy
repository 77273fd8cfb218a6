/** The fingerprint of the labels that count, by four rounds of hashing. */
module Identity {
  import opened Wrappers
  import opened Labels

  datatype IdentityPolicy = IdentityPolicy(ignored: set<Text>) {
    predicate Ignores(name: Text) {
      name in ignored
    }

    predicate Touches(labels: seq<Label>) {
      exists i :: 0 <= i < |labels| && labels[i].name in ignored
    }

    // The labels that count, in order.
    function Reduced(labels: seq<Label>): (r: seq<Label>)
      ensures forall pair :: pair in r <==> pair in labels && pair.name !in ignored
    {
      if labels == [] then []
      else if labels[0].name in ignored then Reduced(labels[1..])
      else [labels[0]] + Reduced(labels[1..])
    }

    // The fingerprint itself while no ignored label is present; otherwise a hash of the rest.
    function IdentityOf(fingerprint: Fingerprint, labels: Labels): Fingerprint {
      if Touches(labels) then FromHash(Fnv(FNV_OFFSET, Stream(Reduced(labels)))) else fingerprint
    }

    // The label-by-label loop: four folds for every label that counts.
    method ComputeIdentity(fingerprint: Fingerprint, labels: Labels) returns (identity: Fingerprint)
      ensures identity == IdentityOf(fingerprint, labels)
    {
      var touched := HasIgnored(labels);
      if !touched {
        return fingerprint;
      }
      var hash: Hash := FNV_OFFSET;
      for i := 0 to |labels|
        invariant hash == Fnv(FNV_OFFSET, Stream(Reduced(labels[..i])))
      {
        OneMoreLabel(labels, i);
        if labels[i].name !in ignored {
          hash := FoldLabel(hash, labels[i]);
        }
      }
      assert labels[..|labels|] == labels;
      identity := FromHash(hash);
    }

    lemma OneMoreLabel(labels: seq<Label>, i: nat)
      requires i < |labels|
      ensures
        var before := Fnv(FNV_OFFSET, Stream(Reduced(labels[..i])));
        Fnv(FNV_OFFSET, Stream(Reduced(labels[..i + 1])))
        == if labels[i].name in ignored then before else Fnv(before, Stream([labels[i]]))
    {
      var before := Reduced(labels[..i]);
      assert labels[..i + 1] == labels[..i] + [labels[i]];
      ReducedSplits(labels[..i], [labels[i]]);
      if labels[i].name in ignored {
        assert Reduced([labels[i]]) == [];
        assert before + [] == before;
      } else {
        assert Reduced([labels[i]]) == [labels[i]];
        StreamSplits(before, [labels[i]]);
        FnvSplits(FNV_OFFSET, Stream(before), Stream([labels[i]]));
      }
    }

    method HasIgnored(labels: seq<Label>) returns (touched: bool)
      ensures touched <==> Touches(labels)
    {
      for i := 0 to |labels|
        invariant forall j :: 0 <= j < i ==> labels[j].name !in ignored
      {
        if labels[i].name in ignored {
          return true;
        }
      }
      return false;
    }

    lemma {:induction false} ReducedSplits(a: seq<Label>, b: seq<Label>)
      ensures Reduced(a + b) == Reduced(a) + Reduced(b)
      decreases |a|
    {
      if a == [] {
        assert a + b == b;
      } else {
        assert (a + b)[1..] == a[1..] + b;
        ReducedSplits(a[1..], b);
      }
    }

    lemma {:induction false} ReducedKeepsOrder(labels: seq<Label>)
      requires Ordered(labels)
      ensures Ordered(Reduced(labels))
      decreases |labels|
    {
      if labels != [] {
        ReducedKeepsOrder(labels[1..]);
        forall pair | pair in Reduced(labels[1..]) ensures Less(labels[0].name, pair.name) {
          assert pair in labels[1..];
        }
      }
    }

    lemma {:induction false} ReducedOfUntouched(labels: seq<Label>)
      requires !Touches(labels)
      ensures Reduced(labels) == labels
      decreases |labels|
    {
      if labels != [] {
        assert labels[0].name !in ignored;
        assert !Touches(labels[1..]) by {
          forall i | 0 <= i < |labels[1..]| ensures labels[1..][i].name !in ignored {
            assert labels[1..][i] == labels[i + 1];
          }
        }
        ReducedOfUntouched(labels[1..]);
      }
    }

    lemma {:induction false} LookupInReduced(labels: seq<Label>, name: Text)
      ensures Get(Reduced(labels), name) == if name in ignored then None else Get(labels, name)
      decreases |labels|
    {
      if labels != [] {
        LookupInReduced(labels[1..], name);
      }
    }

    // An alert whose fingerprint is the hash of its labels has the hash of its counted labels as
    // its identity, whether or not it carries an ignored label.
    lemma IdentityHashesTheCountedLabels(labels: Labels)
      ensures IdentityOf(FingerprintOf(labels), labels) == FromHash(Fnv(FNV_OFFSET, Stream(Reduced(labels))))
    {
      if !Touches(labels) {
        ReducedOfUntouched(labels);
      }
    }

    lemma CountedLabelsDecideReduced(a: Labels, b: Labels)
      ensures Reduced(a) == Reduced(b) <==> forall name :: !Ignores(name) ==> Get(a, name) == Get(b, name)
    {
      forall name ensures Get(Reduced(a), name) == if Ignores(name) then None else Get(a, name) {
        LookupInReduced(a, name);
      }
      forall name ensures Get(Reduced(b), name) == if Ignores(name) then None else Get(b, name) {
        LookupInReduced(b, name);
      }
      ReducedKeepsOrder(a);
      ReducedKeepsOrder(b);
      if forall name :: !Ignores(name) ==> Get(a, name) == Get(b, name) {
        LookupsDetermineLabels(Reduced(a), Reduced(b));
      }
    }

    // Unless FNV-1a collides on the two streams, two alerts share an identity exactly when they
    // answer every counted label alike.
    lemma SameIdentityMeansSameCountedLabels(a: Labels, b: Labels)
      requires Fnv(FNV_OFFSET, Stream(Reduced(a))) == Fnv(FNV_OFFSET, Stream(Reduced(b)))
            ==> Stream(Reduced(a)) == Stream(Reduced(b))
      ensures IdentityOf(FingerprintOf(a), a) == IdentityOf(FingerprintOf(b), b)
         <==> forall name :: !Ignores(name) ==> Get(a, name) == Get(b, name)
    {
      var x, y := Fnv(FNV_OFFSET, Stream(Reduced(a))), Fnv(FNV_OFFSET, Stream(Reduced(b)));
      assert IdentityOf(FingerprintOf(a), a) == FromHash(x) by { IdentityHashesTheCountedLabels(a); }
      assert IdentityOf(FingerprintOf(b), b) == FromHash(y) by { IdentityHashesTheCountedLabels(b); }
      CountedLabelsDecideReduced(a, b);
      assert FromHash(x) == FromHash(y) <==> x == y by {
        if FromHash(x) == FromHash(y) { FromHashIsInjective(x, y); }
      }
      assert x == y <==> Reduced(a) == Reduced(b) by {
        if x == y { StreamIsInjective(Reduced(a), Reduced(b)); }
      }
    }
  }

  lemma {:induction false} StreamSplits(a: seq<Label>, b: seq<Label>)
    ensures Stream(a + b) == Stream(a) + Stream(b)
    decreases |a|
  {
    if a == [] {
      assert a + b == b;
    } else {
      assert (a + b)[1..] == a[1..] + b;
      StreamSplits(a[1..], b);
    }
  }

  // What the loop folds in for one label.
  method FoldLabel(start: Hash, pair: Label) returns (hash: Hash)
    ensures hash == Fnv(start, Stream([pair]))
  {
    var name, value := Bytes(pair.name), Bytes(pair.value);
    hash := Fnv1a(start, name);
    hash := Fnv1a(hash, [SEPARATOR]);
    hash := Fnv1a(hash, value);
    hash := Fnv1a(hash, [SEPARATOR]);
    FnvSplits(start, name, [SEPARATOR]);
    FnvSplits(start, name + [SEPARATOR], value);
    FnvSplits(start, name + [SEPARATOR] + value, [SEPARATOR]);
    assert Stream([pair]) == name + [SEPARATOR] + value + [SEPARATOR];
  }
}
