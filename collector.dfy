/** The storage mock collectors keep their received metrics in, and the
    canonical text of a resource
    (exporters/otlp/otlpmetric/internal/otlpmetrictest/collector.go). */
module OtlpMetricTest {
  import opened Telemetry

  /** What one resource contributes to the storage: the metrics of its first
      instrumentation library, or nothing when it has none. */
  function FirstLibraryMetrics(rm: ResourceMetrics): seq<Metric>
  {
    if |rm.instrumentationLibraryMetrics| > 0 then rm.instrumentationLibraryMetrics[0].metrics else []
  }

  /** The contributions of the resources, in order. */
  function Flattened(rms: seq<ResourceMetrics>): seq<Metric>
    decreases |rms|
  {
    if rms == [] then [] else Flattened(rms[..|rms| - 1]) + FirstLibraryMetrics(rms[|rms| - 1])
  }

  /** The sum of the first-library metric counts, counted from the front. */
  function FirstLibraryCount(rms: seq<ResourceMetrics>): nat
    decreases |rms|
  {
    if rms == [] then 0 else |FirstLibraryMetrics(rms[0])| + FirstLibraryCount(rms[1..])
  }

  /** The resources that have at least one instrumentation library. */
  function WithLibraries(rms: seq<ResourceMetrics>): (r: seq<ResourceMetrics>)
    ensures forall i :: 0 <= i < |r| ==> |r[i].instrumentationLibraryMetrics| > 0
    decreases |rms|
  {
    if rms == [] then []
    else if |rms[0].instrumentationLibraryMetrics| > 0 then [rms[0]] + WithLibraries(rms[1..])
    else WithLibraries(rms[1..])
  }

  lemma {:induction false} FlattenedConcat(a: seq<ResourceMetrics>, b: seq<ResourceMetrics>)
    ensures Flattened(a + b) == Flattened(a) + Flattened(b)
    decreases |b|
  {
    if b == [] {
      assert a + b == a;
    } else {
      var n := |b| - 1;
      var ab := a + b;
      assert ab[..|ab| - 1] == a + b[..n];
      assert ab[|ab| - 1] == b[n];
      FlattenedConcat(a, b[..n]);
      calc {
        Flattened(ab);
        Flattened(a + b[..n]) + FirstLibraryMetrics(b[n]);
        Flattened(a) + Flattened(b[..n]) + FirstLibraryMetrics(b[n]);
        Flattened(a) + Flattened(b);
      }
    }
  }

  /** The flattened length is the sum of the first-library metric counts. */
  lemma {:induction false} FlattenedLength(rms: seq<ResourceMetrics>)
    ensures |Flattened(rms)| == FirstLibraryCount(rms)
    decreases |rms|
  {
    if rms != [] {
      assert rms == [rms[0]] + rms[1..];
      FlattenedConcat([rms[0]], rms[1..]);
      assert [rms[0]][..0] == [];
      FlattenedLength(rms[1..]);
    }
  }

  /** Resources without instrumentation-library metrics contribute nothing. */
  lemma {:induction false} EmptyResourcesContributeNothing(rms: seq<ResourceMetrics>)
    ensures Flattened(WithLibraries(rms)) == Flattened(rms)
    decreases |rms|
  {
    if rms != [] {
      var head, tail := rms[0], rms[1..];
      assert rms == [head] + tail;
      FlattenedConcat([head], tail);
      assert Flattened([head]) == FirstLibraryMetrics(head) by {
        assert [head][..0] == [];
      }
      EmptyResourcesContributeNothing(tail);
      if |head.instrumentationLibraryMetrics| > 0 {
        FlattenedConcat([head], WithLibraries(tail));
      }
    }
  }

  /** A metric is stored exactly when it is in the first library of one of
      the resources. */
  lemma {:induction false} FlattenedMembers(rms: seq<ResourceMetrics>, m: Metric)
    ensures m in Flattened(rms) <==> exists i :: 0 <= i < |rms| && m in FirstLibraryMetrics(rms[i])
    decreases |rms|
  {
    if rms != [] {
      var n := |rms| - 1;
      FlattenedMembers(rms[..n], m);
      assert forall i :: 0 <= i < n ==> rms[..n][i] == rms[i];
      if m in FirstLibraryMetrics(rms[n]) {
        assert m in Flattened(rms);
      }
    }
  }

  /** `MetricsStorage`: an append-only buffer of received metrics. */
  class MetricsStorage {
    var metrics: seq<Metric>

    /** NewMetricsStorage: a storage with no metrics. */
    constructor NewMetricsStorage()
      ensures metrics == []
    {
      metrics := [];
    }

    /** AddMetrics: for each resource in order, append the metrics of its
        first instrumentation library. */
    method AddMetrics(request: ExportMetricsServiceRequest)
      modifies this
      ensures metrics == old(metrics) + Flattened(request.resourceMetrics)
      ensures |metrics| == |old(metrics)| + FirstLibraryCount(request.resourceMetrics)
    {
      var rms := request.resourceMetrics;
      var i := 0;
      while i < |rms|
        invariant 0 <= i <= |rms|
        invariant metrics == old(metrics) + Flattened(rms[..i])
      {
        var rm := rms[i];
        assert rms[..i + 1][..i] == rms[..i];
        if |rm.instrumentationLibraryMetrics| > 0 {
          metrics := metrics + rm.instrumentationLibraryMetrics[0].metrics;
        }
        i := i + 1;
      }
      assert rms[..i] == rms;
      FlattenedLength(rms);
    }

    /** GetMetrics: a copy of the stored metrics; the storage is unchanged. */
    method GetMetrics() returns (m: seq<Metric>)
      ensures m == metrics
    {
      m := [];
      m := m + metrics;
    }
  }

  /** Go's `<` on strings: lexicographic, by code point (for valid UTF-8 the
      same order as by bytes). */
  predicate KeyLess(a: string, b: string)
    decreases |a|
  {
    if |a| == 0 then |b| > 0
    else if |b| == 0 then false
    else if a[0] != b[0] then a[0] < b[0]
    else KeyLess(a[1..], b[1..])
  }

  lemma {:induction false} KeyLessTransitive(a: string, b: string, c: string)
    requires KeyLess(a, b) && KeyLess(b, c)
    ensures KeyLess(a, c)
    decreases |a|
  {
    if |a| > 0 && a[0] == b[0] && b[0] == c[0] {
      KeyLessTransitive(a[1..], b[1..], c[1..]);
    }
  }

  lemma {:induction false} KeyLessTotal(a: string, b: string)
    ensures a == b || KeyLess(a, b) || KeyLess(b, a)
    decreases |a|
  {
    if |a| > 0 && |b| > 0 && a[0] == b[0] {
      KeyLessTotal(a[1..], b[1..]);
      if a[1..] == b[1..] {
        assert a == [a[0]] + a[1..] && b == [b[0]] + b[1..];
      }
    }
  }

  lemma {:induction false} KeyLessIrreflexive(a: string)
    ensures !KeyLess(a, a)
    decreases |a|
  {
    if |a| > 0 {
      KeyLessIrreflexive(a[1..]);
    }
  }

  /** No attribute is preceded by one with a greater key. */
  predicate SortedByKey(s: seq<KeyValue>)
  {
    forall p, q :: 0 <= p < q < |s| ==> !KeyLess(s[q].key, s[p].key)
  }

  predicate DistinctKeys(s: seq<KeyValue>)
  {
    forall p, q :: 0 <= p < q < |s| ==> s[p].key != s[q].key
  }

  /** A key-sorted sequence is non-decreasing by key. */
  lemma SortedIsNonDecreasing(s: seq<KeyValue>, p: nat, q: nat)
    requires SortedByKey(s) && p < q < |s|
    ensures s[p].key == s[q].key || KeyLess(s[p].key, s[q].key)
  {
    KeyLessTotal(s[p].key, s[q].key);
  }

  /** Two key-sorted orderings of the same attributes with distinct keys
      start with the same attribute. */
  lemma SortedSameFirst(a: seq<KeyValue>, b: seq<KeyValue>)
    requires SortedByKey(a) && SortedByKey(b) && DistinctKeys(a)
    requires multiset(a) == multiset(b) && |a| > 0
    ensures |b| > 0 && a[0] == b[0]
  {
    assert |b| == |multiset(b)| == |multiset(a)| == |a|;
    assert b[0] in multiset(a);
    var i :| 0 <= i < |a| && a[i] == b[0];
    assert a[0] in multiset(b);
    var j :| 0 <= j < |b| && b[j] == a[0];
    KeyLessIrreflexive(a[0].key);
    assert !KeyLess(b[0].key, a[0].key);
    assert !KeyLess(a[0].key, b[0].key);
    KeyLessTotal(a[0].key, b[0].key);
    assert a[i].key == a[0].key;
  }

  lemma DropFirst(a: seq<KeyValue>, b: seq<KeyValue>)
    requires |a| > 0 && |b| > 0 && a[0] == b[0] && multiset(a) == multiset(b)
    ensures multiset(a[1..]) == multiset(b[1..])
  {
    assert a == [a[0]] + a[1..];
    assert b == [b[0]] + b[1..];
    var x := a[0];
    assert multiset(a) == multiset{x} + multiset(a[1..]);
    assert multiset(b) == multiset{x} + multiset(b[1..]);
    forall e ensures multiset(a[1..])[e] == multiset(b[1..])[e] {
      assert multiset(a)[e] == multiset{x}[e] + multiset(a[1..])[e];
      assert multiset(b)[e] == multiset{x}[e] + multiset(b[1..])[e];
    }
  }

  /** Two key-sorted orderings of the same attributes with distinct keys are
      the same sequence. */
  lemma {:induction false} SortedIsCanonical(a: seq<KeyValue>, b: seq<KeyValue>)
    requires SortedByKey(a) && SortedByKey(b) && DistinctKeys(a)
    requires multiset(a) == multiset(b)
    ensures a == b
    decreases |a|
  {
    if |a| == 0 {
      assert |b| == |multiset(b)| == 0;
    } else {
      SortedSameFirst(a, b);
      DropFirst(a, b);
      var a', b' := a[1..], b[1..];
      assert SortedByKey(a') by {
        forall p, q | 0 <= p < q < |a'| ensures !KeyLess(a'[q].key, a'[p].key) {
          assert a'[q] == a[q + 1] && a'[p] == a[p + 1];
        }
      }
      assert SortedByKey(b') by {
        forall p, q | 0 <= p < q < |b'| ensures !KeyLess(b'[q].key, b'[p].key) {
          assert b'[q] == b[q + 1] && b'[p] == b[p + 1];
        }
      }
      assert DistinctKeys(a') by {
        forall p, q | 0 <= p < q < |a'| ensures a'[p].key != a'[q].key {
          assert a'[q] == a[q + 1] && a'[p] == a[p + 1];
        }
      }
      SortedIsCanonical(a', b');
      assert a == [a[0]] + a' && b == [b[0]] + b';
    }
  }

  /** The index of an attribute with the least key in a[from..]. */
  method MinKeyIndex(a: array<KeyValue>, from: nat) returns (m: nat)
    requires from < a.Length
    ensures from <= m < a.Length
    ensures forall k :: from <= k < a.Length ==> !KeyLess(a[k].key, a[m].key)
  {
    m := from;
    var k := from + 1;
    KeyLessIrreflexive(a[from].key);
    while k < a.Length
      invariant from <= m < k <= a.Length
      invariant forall j :: from <= j < k ==> !KeyLess(a[j].key, a[m].key)
    {
      if KeyLess(a[k].key, a[m].key) {
        forall j | from <= j < k
          ensures !KeyLess(a[j].key, a[k].key)
        {
          if KeyLess(a[j].key, a[k].key) {
            KeyLessTransitive(a[j].key, a[k].key, a[m].key);
          }
        }
        KeyLessIrreflexive(a[k].key);
        m := k;
      }
      k := k + 1;
    }
  }

  /** sortedAttributes: the same array, sorted in place by key. */
  method SortedAttributes(attrs: array<KeyValue>) returns (r: array<KeyValue>)
    modifies attrs
    ensures r == attrs
    ensures SortedByKey(attrs[..])
    ensures multiset(attrs[..]) == multiset(old(attrs[..]))
  {
    var i := 0;
    while i < attrs.Length
      invariant 0 <= i <= attrs.Length
      invariant SortedByKey(attrs[..i])
      invariant forall p, q :: 0 <= p < i <= q < attrs.Length ==> !KeyLess(attrs[q].key, attrs[p].key)
      invariant multiset(attrs[..]) == multiset(old(attrs[..]))
    {
      var m := MinKeyIndex(attrs, i);
      attrs[i], attrs[m] := attrs[m], attrs[i];
      i := i + 1;
    }
    assert attrs[..i] == attrs[..];
    r := attrs;
  }

  /** The attribute texts, concatenated in order. */
  function Concat(text: KeyValue -> string, s: seq<KeyValue>): string
    decreases |s|
  {
    if s == [] then "" else Concat(text, s[..|s| - 1]) + text(s[|s| - 1])
  }

  /** resourceString: the attributes sorted by key in place, then their texts
      concatenated. `text` stands for `KeyValue.String()`. */
  method ResourceString(attributes: array<KeyValue>, text: KeyValue -> string) returns (rstr: string)
    modifies attributes
    ensures SortedByKey(attributes[..])
    ensures multiset(attributes[..]) == multiset(old(attributes[..]))
    ensures rstr == Concat(text, attributes[..])
  {
    var sAttrs := SortedAttributes(attributes);
    rstr := "";
    var i := 0;
    while i < sAttrs.Length
      invariant 0 <= i <= sAttrs.Length
      invariant rstr == Concat(text, sAttrs[..i])
    {
      assert sAttrs[..i + 1][..i] == sAttrs[..i];
      rstr := rstr + text(sAttrs[i]);
      i := i + 1;
    }
    assert sAttrs[..i] == sAttrs[..];
  }

  /** With distinct keys, no attribute occurs twice. */
  lemma {:induction false} DistinctKeysAtMostOnce(a: seq<KeyValue>, x: KeyValue)
    requires DistinctKeys(a)
    ensures multiset(a)[x] <= 1
    decreases |a|
  {
    if |a| > 0 {
      var rest := a[1..];
      assert a == [a[0]] + rest;
      assert forall k :: 0 <= k < |rest| ==> rest[k] == a[k + 1];
      DistinctKeysAtMostOnce(rest, x);
      assert multiset(a)[x] == multiset([a[0]])[x] + multiset(rest)[x];
      if x == a[0] {
        assert forall k :: 0 <= k < |rest| ==> rest[k].key != x.key;
        assert multiset(rest)[x] == 0;
      }
    }
  }

  lemma OccursTwice(b: seq<KeyValue>, p: nat, q: nat)
    requires p < q < |b| && b[p] == b[q]
    ensures multiset(b)[b[p]] >= 2
  {
    assert b == b[..q] + b[q..];
    assert b[..q][p] == b[p] && b[q..][0] == b[q];
    assert multiset(b) == multiset(b[..q]) + multiset(b[q..]);
  }

  /** A permutation of attributes with distinct keys has distinct keys. */
  lemma DistinctKeysPermuted(a: seq<KeyValue>, b: seq<KeyValue>)
    requires multiset(a) == multiset(b) && DistinctKeys(a)
    ensures DistinctKeys(b)
  {
    forall p, q | 0 <= p < q < |b|
      ensures b[p].key != b[q].key
    {
      assert b[p] in multiset(a) && b[q] in multiset(a);
      var i :| 0 <= i < |a| && a[i] == b[p];
      var j :| 0 <= j < |a| && a[j] == b[q];
      if b[p] == b[q] {
        OccursTwice(b, p, q);
        DistinctKeysAtMostOnce(a, b[p]);
      } else {
        assert i != j;
        assert a[i].key != a[j].key;
      }
    }
  }

  /** Any two orderings of the same attributes with distinct keys give the
      same resource string: once each is sorted by key, as ResourceString
      sorts it, their texts concatenate to the same string. */
  lemma ResourceStringIgnoresOrder(text: KeyValue -> string,
                                   a: seq<KeyValue>, b: seq<KeyValue>,
                                   sortedA: seq<KeyValue>, sortedB: seq<KeyValue>)
    requires multiset(a) == multiset(b) && DistinctKeys(a)
    requires SortedByKey(sortedA) && multiset(sortedA) == multiset(a)
    requires SortedByKey(sortedB) && multiset(sortedB) == multiset(b)
    ensures Concat(text, sortedA) == Concat(text, sortedB)
  {
    DistinctKeysPermuted(a, sortedA);
    SortedIsCanonical(sortedA, sortedB);
  }
}
