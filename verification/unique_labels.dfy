/** GetUniqueLabels: copy the labels, sort them in place, drop adjacent repeats in place
    (std::sort then std::unique) and keep the prefix that survives. */
module UniqueLabels {

  predicate Sorted(s: seq<int>) {
    forall p, q :: 0 <= p < q < |s| ==> s[p] <= s[q]
  }

  predicate StrictlyIncreasing(s: seq<int>) {
    forall p, q :: 0 <= p < q < |s| ==> s[p] < s[q]
  }

  predicate Distinct(s: seq<int>) {
    forall p, q :: 0 <= p < q < |s| ==> s[p] != s[q]
  }

  /** The set of values occurring in s. */
  function Elements(s: seq<int>): (e: set<int>)
    ensures forall v :: v in e <==> v in s
  {
    set v | v in s
  }

  /** In-place ascending sort (insertion by adjacent swaps); a permutation of the input. */
  method SortInPlace(a: array<int>)
    modifies a
    ensures Sorted(a[..])
    ensures multiset(a[..]) == old(multiset(a[..]))
  {
    if a.Length == 0 {
      return;
    }
    var i := 1;
    while i < a.Length
      invariant 1 <= i <= a.Length
      invariant Sorted(a[..i])
      invariant multiset(a[..]) == old(multiset(a[..]))
    {
      InsertAt(a, i);
      i := i + 1;
    }
    assert a[..i] == a[..];
  }

  /** The inner loop of the sort: swap a[i] down past every larger neighbour, so that a
      sorted a[..i] becomes a sorted a[..i + 1] holding the same values. */
  method InsertAt(a: array<int>, i: nat)
    requires i < a.Length && Sorted(a[..i])
    modifies a
    ensures Sorted(a[..i + 1])
    ensures a[i + 1..] == old(a[i + 1..])
    ensures multiset(a[..]) == old(multiset(a[..]))
  {
    var j := i;
    while j > 0 && a[j - 1] > a[j]
      invariant 0 <= j <= i
      invariant forall p, q :: 0 <= p < q < j ==> a[p] <= a[q]
      invariant forall p, q :: j <= p < q <= i ==> a[p] <= a[q]
      invariant forall p, q :: 0 <= p < j && j < q <= i ==> a[p] <= a[q]
      invariant a[i + 1..] == old(a[i + 1..])
      invariant multiset(a[..]) == old(multiset(a[..]))
    {
      SwapDown(a, j);
      j := j - 1;
    }
  }

  /** std::swap of a[j - 1] and a[j]: the same values, two of them exchanged. */
  method SwapDown(a: array<int>, j: nat)
    requires 0 < j < a.Length
    modifies a
    ensures a[j - 1] == old(a[j]) && a[j] == old(a[j - 1])
    ensures forall t :: 0 <= t < a.Length && t != j - 1 && t != j ==> a[t] == old(a[t])
    ensures multiset(a[..]) == old(multiset(a[..]))
  {
    a[j - 1], a[j] := a[j], a[j - 1];
  }

  /** std::unique on a sorted array: moves the first of every run of equal values to the
      front and returns the length of that front part. */
  method UniqueInPlace(a: array<int>) returns (w: nat)
    requires Sorted(a[..])
    modifies a
    ensures w <= a.Length
    ensures StrictlyIncreasing(a[..w])
    ensures forall v :: v in a[..w] <==> v in old(a[..])
  {
    if a.Length == 0 {
      return 0;
    }
    w := 1;
    var k := 1;
    while k < a.Length
      invariant 1 <= w <= k <= a.Length
      invariant forall t :: k <= t < a.Length ==> a[t] == old(a[t])
      invariant StrictlyIncreasing(a[..w])
      invariant a[w - 1] == old(a[k - 1])
      invariant forall v :: v in a[..w] <==> v in old(a[..k])
    {
      assert old(a[k]) == a[k];
      if a[w - 1] != a[k] {
        assert a[w - 1] < a[k];
        ghost var kept := a[..w];
        a[w] := a[k];
        assert a[..w + 1] == kept + [old(a[k])];
        w := w + 1;
      }
      assert old(a[..k + 1]) == old(a[..k]) + [old(a[k])];
      k := k + 1;
    }
    assert old(a[..k]) == old(a[..]);
  }

  /** The labels of y, ascending, each once. */
  method GetUniqueLabels(y: seq<int>) returns (labels: seq<int>)
    ensures StrictlyIncreasing(labels)
    ensures forall v :: v in labels <==> v in y
  {
    var a := new int[|y|];
    var i := 0;
    while i < |y|
      invariant 0 <= i <= |y|
      invariant a[..i] == y[..i]
    {
      a[i] := y[i];
      i := i + 1;
    }
    assert a[..] == y;
    SortInPlace(a);
    assert forall v :: v in a[..] <==> v in multiset(y);
    var w := UniqueInPlace(a);
    labels := a[..w];
  }

  /** A strictly increasing sequence is determined by its elements. */
  lemma {:induction false} IncreasingUnique(s: seq<int>, t: seq<int>)
    requires StrictlyIncreasing(s) && StrictlyIncreasing(t)
    requires forall v :: v in s <==> v in t
    ensures s == t
    decreases |s|
  {
    ElementsCount(s);
    ElementsCount(t);
    assert Distinct(s) && Distinct(t);
    assert Elements(s) == Elements(t);
    if s != [] {
      var n := |s| - 1;
      MaxIsLast(s);
      MaxIsLast(t);
      assert s[n] in s && t[n] in t;
      assert s[n] == t[n];
      forall v ensures v in s[..n] <==> v in t[..n] {
        if v in s[..n] {
          var k :| 0 <= k < n && s[k] == v;
          assert s[k] < s[n] && v in t;
        }
        if v in t[..n] {
          var k :| 0 <= k < n && t[k] == v;
          assert t[k] < t[n] && v in s;
        }
      }
      IncreasingUnique(s[..n], t[..n]);
      assert s == s[..n] + [s[n]] && t == t[..n] + [t[n]];
    }
  }

  /** The last element of a strictly increasing sequence bounds all of its elements. */
  lemma MaxIsLast(s: seq<int>)
    requires StrictlyIncreasing(s) && s != []
    ensures forall v :: v in s ==> v <= s[|s| - 1]
  {
    forall v | v in s ensures v <= s[|s| - 1] {
      var k :| 0 <= k < |s| && s[k] == v;
    }
  }

  /** The number of different values in s is |s| exactly when s has no repeats. */
  lemma {:induction false} ElementsCount(s: seq<int>)
    ensures |Elements(s)| <= |s|
    ensures |Elements(s)| == |s| <==> Distinct(s)
    decreases |s|
  {
    if s != [] {
      var n := |s| - 1;
      var front := s[..n];
      ElementsCount(front);
      assert s == front + [s[n]];
      assert Elements(s) == Elements(front) + {s[n]};
      if s[n] in front {
        var k :| 0 <= k < n && front[k] == s[n];
        assert s[k] == s[n];
        assert !Distinct(s);
      } else {
        assert Distinct(s) <==> Distinct(front);
      }
    }
  }

  /** Deduplication keeps the length exactly when there was nothing to remove. */
  lemma UniqueKeepsLength(y: seq<int>, labels: seq<int>)
    requires StrictlyIncreasing(labels)
    requires forall v :: v in labels <==> v in y
    ensures |labels| <= |y|
    ensures |labels| == |y| <==> Distinct(y)
  {
    ElementsCount(y);
    ElementsCount(labels);
    assert Elements(labels) == Elements(y);
  }
}
