/** The label index of a supervised dataset: the distinct non-empty labels of
    the corpus, sorted by Python's string order and numbered from 0, and its
    inverse map from id to label. */
module Labels {
  import opened Text

  predicate StrictlySorted(s: seq<string>)
  {
    forall i, j :: 0 <= i < j < |s| ==> Less(s[i], s[j])
  }

  predicate Distinct<T(==)>(s: seq<T>)
  {
    forall i, j :: 0 <= i < j < |s| ==> s[i] != s[j]
  }

  lemma SortedIsDistinct(s: seq<string>)
    requires StrictlySorted(s)
    ensures Distinct(s)
  {
    forall i, j | 0 <= i < j < |s| ensures s[i] != s[j] {
      LessIrreflexive(s[i]);
    }
  }

  /** Puts `x` into its place in a strictly sorted sequence. */
  function Insert(s: seq<string>, x: string): (r: seq<string>)
    requires StrictlySorted(s) && x !in s
    ensures StrictlySorted(r)
    ensures |r| == |s| + 1
    ensures forall y :: y in r <==> y in s || y == x
    decreases |s|
  {
    if s == [] then [x]
    else if Less(x, s[0]) then
      LessThanHead(s, x);
      [x] + s
    else
      var r := [s[0]] + Insert(s[1..], x);
      HeadBeforeInsert(s, x, Insert(s[1..], x));
      assert forall y :: y in r <==> y in s || y == x by {
        assert s == [s[0]] + s[1..];
      }
      r
  }

  lemma HeadBeforeInsert(s: seq<string>, x: string, t: seq<string>)
    requires StrictlySorted(s) && s != [] && x !in s && !Less(x, s[0])
    requires StrictlySorted(t) && forall y :: y in t <==> y in s[1..] || y == x
    ensures StrictlySorted([s[0]] + t)
  {
    LessTotal(x, s[0]);
    forall k | 0 <= k < |t| ensures Less(s[0], t[k]) {
      if t[k] != x {
        assert t[k] in s[1..];
        var j :| 0 <= j < |s[1..]| && s[1..][j] == t[k];
        assert s[j + 1] == t[k];
      }
    }
  }

  lemma LessThanHead(s: seq<string>, x: string)
    requires StrictlySorted(s) && s != [] && Less(x, s[0])
    ensures StrictlySorted([x] + s)
  {
    forall j | 0 < j < |s| ensures Less(x, s[j]) {
      LessTransitive(x, s[0], s[j]);
    }
  }

  /** `label_list = list(counter.keys()); label_list.sort()`: the keys in
      ascending order, each once. */
  method SortLabels(labels: set<string>) returns (sorted: seq<string>)
    ensures StrictlySorted(sorted)
    ensures forall l :: l in sorted <==> l in labels
    ensures |sorted| == |labels|
  {
    sorted := [];
    var pending := labels;
    while pending != {}
      invariant pending <= labels
      invariant StrictlySorted(sorted)
      invariant forall l :: l in sorted <==> l in labels && l !in pending
      invariant |sorted| + |pending| == |labels|
      decreases |pending|
    {
      var l :| l in pending;
      sorted := Insert(sorted, l);
      pending := pending - {l};
    }
  }

  /** `dict(zip(labels, range(len(labels))))`: every label is mapped to its
      position; a label that occurs twice keeps its last position. */
  function Enumerate(labels: seq<string>): (m: map<string, int>)
    ensures m.Keys == set l | l in labels
    ensures forall l :: l in m ==> 0 <= m[l] < |labels| && labels[m[l]] == l
    decreases |labels|
  {
    if labels == [] then map[]
    else
      var n := |labels| - 1;
      var m := Enumerate(labels[..n])[labels[n] := n];
      assert labels == labels[..n] + [labels[n]];
      m
  }

  /** On distinct labels the id of the label at position `i` is `i`. */
  lemma {:induction false} EnumerateDistinct(labels: seq<string>, i: int)
    requires Distinct(labels) && 0 <= i < |labels|
    ensures Enumerate(labels)[labels[i]] == i
  {
    var m := Enumerate(labels);
    assert labels[i] in m;
    assert labels[m[labels[i]]] == labels[i];
  }

  predicate Injective(m: map<string, int>)
  {
    forall a, b :: a in m && b in m && a != b ==> m[a] != m[b]
  }

  /** Every id in `0..K-1` belongs to some label, `K` being the number of
      labels. */
  predicate Contiguous(label2idx: map<string, int>)
  {
    forall i :: 0 <= i < |label2idx| ==> i in label2idx.Values
  }

  /** `{v: k for k, v in m.items()}`. The dictionary's iteration order is not
      modelled: when two labels share an id, the id keeps one of them. */
  method Invert(m: map<string, int>) returns (inv: map<int, string>)
    ensures inv.Keys == m.Values
    ensures forall i :: i in inv ==> inv[i] in m && m[inv[i]] == i
    ensures Injective(m) ==> forall l :: l in m ==> inv[m[l]] == l
  {
    inv := map[];
    var pending := m.Keys;
    while pending != {}
      invariant pending <= m.Keys
      invariant inv.Keys == set l | l in m.Keys - pending :: m[l]
      invariant forall i :: i in inv ==> inv[i] in m && inv[i] !in pending && m[inv[i]] == i
      decreases |pending|
    {
      var l :| l in pending;
      inv := inv[m[l] := l];
      pending := pending - {l};
    }
  }

  /** Builds `label2idx` from the counter of label fields: drops the empty
      label, sorts the rest and numbers them. The keys are exactly the
      counted non-empty labels, the ids are exactly `0..K-1`, and the ids
      follow the string order of the labels. */
  method BuildLabelIndex(counter: multiset<string>) returns (label2idx: map<string, int>)
    ensures label2idx.Keys == set l | l in counter && l != ""
    ensures forall l :: l in label2idx ==> 0 <= label2idx[l] < |label2idx|
    ensures Contiguous(label2idx)
    ensures forall a, b :: a in label2idx && b in label2idx ==>
              (label2idx[a] < label2idx[b] <==> Less(a, b))
    ensures Injective(label2idx)
  {
    var counted := counter["" := 0];
    var keys := set l | l in counted;
    assert keys == set l | l in counter && l != "";
    var sorted := SortLabels(keys);
    label2idx := Enumerate(sorted);
    assert label2idx.Keys == keys;
    SortedIndexProperties(sorted);
  }

  lemma SortedIndexProperties(sorted: seq<string>)
    requires StrictlySorted(sorted)
    ensures var m := Enumerate(sorted);
      && |m| == |sorted|
      && Contiguous(m)
      && (forall a, b :: a in m && b in m ==> (m[a] < m[b] <==> Less(a, b)))
      && Injective(m)
  {
    var m := Enumerate(sorted);
    SortedIsDistinct(sorted);
    forall i | 0 <= i < |sorted| ensures m[sorted[i]] == i {
      EnumerateDistinct(sorted, i);
    }
    forall i | 0 <= i < |sorted| ensures i in m.Values {
      assert m[sorted[i]] == i;
    }
    forall a, b | a in m && b in m ensures m[a] < m[b] <==> Less(a, b) {
      if Less(a, b) && m[a] >= m[b] {
        if m[a] == m[b] {
          LessIrreflexive(a);
        } else {
          LessTransitive(a, b, a);
          LessIrreflexive(a);
        }
      }
    }
    DistinctKeysCount(sorted, m);
  }

  lemma DistinctKeysCount(sorted: seq<string>, m: map<string, int>)
    requires Distinct(sorted)
    requires m.Keys == set l | l in sorted
    ensures |m| == |sorted|
  {
    assert m.Keys == set i | 0 <= i < |sorted| :: sorted[i];
    CardinalityOfDistinct(sorted);
  }

  lemma {:induction false} CardinalityOfDistinct(s: seq<string>)
    requires Distinct(s)
    ensures |set i | 0 <= i < |s| :: s[i]| == |s|
    decreases |s|
  {
    if s != [] {
      var n := |s| - 1;
      CardinalityOfDistinct(s[..n]);
      var front := set i | 0 <= i < n :: s[..n][i];
      assert (set i | 0 <= i < |s| :: s[i]) == front + {s[n]};
      assert s[n] !in front;
    }
  }
}
