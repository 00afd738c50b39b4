/** The enumeration of index pairs (i, j) with i < j < n, i in the outer loop and j in the
    inner loop. Training, prediction and the quadratic feature expansion all walk this
    order; the k-th trained model belongs to the k-th pair. */
module PairOrder {

  type Pair = (nat, nat)

  /** Lexicographic order on pairs: the order in which the nested loops visit them. */
  predicate LexLess(p: Pair, q: Pair) {
    p.0 < q.0 || (p.0 == q.0 && p.1 < q.1)
  }

  /** The pairs visited before the outer loop reaches index i. */
  function PairsBefore(i: nat, n: nat): (ps: seq<Pair>)
    requires i <= n
    ensures forall t :: 0 <= t < |ps| ==> ps[t].0 < i && ps[t].0 < ps[t].1 < n
    decreases i, 0, 0
  {
    if i == 0 then [] else PairsUpTo(i - 1, n, n)
  }

  /** The pairs visited before the inner loop of outer index i reaches k: PairsBefore(i, n)
      followed by (i, i+1), ..., (i, k-1). */
  function PairsUpTo(i: nat, k: nat, n: nat): (ps: seq<Pair>)
    requires i < k <= n
    ensures forall t :: 0 <= t < |ps| ==>
      ps[t].0 < ps[t].1 < n && (ps[t].0 < i || (ps[t].0 == i && ps[t].1 < k))
    decreases i, 1, k
  {
    if k == i + 1 then PairsBefore(i, n) else PairsUpTo(i, k - 1, n) + [(i, k - 1)]
  }

  /** The end of the inner loop for index i is the start of the outer step i + 1. */
  lemma PairsBeforeStep(i: nat, n: nat)
    requires i < n
    ensures PairsBefore(i + 1, n) == PairsUpTo(i, n, n)
  {
  }

  /** All pairs i < j < n in visiting order. */
  function Pairs(n: nat): (ps: seq<Pair>)
    ensures forall k :: 0 <= k < |ps| ==> ps[k].0 < ps[k].1 < n
  {
    PairsBefore(n, n)
  }

  /** There are n(n-1)/2 pairs. */
  lemma PairsLength(n: nat)
    ensures |Pairs(n)| == n * (n - 1) / 2
  {
    PairsBeforeLength(n, n);
  }

  /** The inner loop adds one pair per step. */
  lemma {:induction false} PairsUpToLength(i: nat, k: nat, n: nat)
    requires i < k <= n
    ensures |PairsUpTo(i, k, n)| == |PairsBefore(i, n)| + (k - i - 1)
    decreases k
  {
    if k > i + 1 {
      PairsUpToLength(i, k - 1, n);
    }
  }

  lemma {:induction false} PairsBeforeLength(i: nat, n: nat)
    requires i <= n
    ensures 2 * |PairsBefore(i, n)| == 2 * i * n - i * (i + 1)
    ensures i == n ==> |PairsBefore(i, n)| == n * (n - 1) / 2
  {
    if i > 0 {
      PairsBeforeLength(i - 1, n);
      PairsUpToLength(i - 1, n, n);
      var prev := |PairsBefore(i - 1, n)|;
      assert |PairsBefore(i, n)| == prev + (n - i);
      StepArithmetic(i, n, prev);
    }
    if i == n {
      HalfArithmetic(n, |PairsBefore(i, n)|);
    }
  }

  lemma StepArithmetic(i: int, n: int, prev: int)
    requires 2 * prev == 2 * (i - 1) * n - (i - 1) * i
    ensures 2 * (prev + (n - i)) == 2 * i * n - i * (i + 1)
  {
    assert (i - 1) * i == i * i - i;
    assert 2 * (i - 1) * n == 2 * i * n - 2 * n;
    assert i * (i + 1) == i * i + i;
  }

  lemma HalfArithmetic(n: int, len: int)
    requires 2 * len == 2 * n * n - n * (n + 1)
    ensures len == n * (n - 1) / 2
  {
    assert n * (n + 1) == n * n + n;
    assert n * (n - 1) == n * n - n;
    assert 2 * len == n * (n - 1);
  }

  /** Later inner-loop positions extend earlier ones. */
  lemma {:induction false} PairsUpToPrefix(i: nat, k: nat, k': nat, n: nat)
    requires i < k <= k' <= n
    ensures |PairsUpTo(i, k, n)| <= |PairsUpTo(i, k', n)|
    ensures PairsUpTo(i, k, n) == PairsUpTo(i, k', n)[..|PairsUpTo(i, k, n)|]
    decreases k' - k
  {
    if k < k' {
      PairsUpToPrefix(i, k, k' - 1, n);
      var a, b := PairsUpTo(i, k, n), PairsUpTo(i, k' - 1, n);
      assert PairsUpTo(i, k', n) == b + [(i, k' - 1)];
      assert (b + [(i, k' - 1)])[..|a|] == b[..|a|];
    }
  }

  /** Later outer-loop positions extend earlier ones. */
  lemma {:induction false} PairsBeforePrefix(i: nat, i': nat, n: nat)
    requires i <= i' <= n
    ensures |PairsBefore(i, n)| <= |PairsBefore(i', n)|
    ensures PairsBefore(i, n) == PairsBefore(i', n)[..|PairsBefore(i, n)|]
    decreases i' - i
  {
    if i < i' {
      PairsBeforePrefix(i, i' - 1, n);
      PairsUpToPrefix(i' - 1, i', n, n);
      var a, b := PairsBefore(i, n), PairsBefore(i' - 1, n);
      var c := PairsBefore(i', n);
      assert b == c[..|b|];
      assert c[..|b|][..|a|] == c[..|a|];
    }
  }

  /** Every inner-loop position sees a prefix of the whole enumeration. */
  lemma PairsUpToInPairs(i: nat, k: nat, n: nat)
    requires i < k <= n
    ensures |PairsUpTo(i, k, n)| <= |Pairs(n)|
    ensures PairsUpTo(i, k, n) == Pairs(n)[..|PairsUpTo(i, k, n)|]
  {
    PairsUpToPrefix(i, k, n, n);
    PairsBeforePrefix(i + 1, n, n);
    var a, b, c := PairsUpTo(i, k, n), PairsBefore(i + 1, n), Pairs(n);
    assert b == PairsUpTo(i, n, n);
    assert c[..|b|][..|a|] == c[..|a|];
  }

  /** The pair (i, j) sits at position |PairsUpTo(i, j, n)| of the enumeration, right after
      the pairs visited before it. */
  lemma PairAt(n: nat, i: nat, j: nat)
    requires i < j < n
    ensures |PairsUpTo(i, j, n)| < |Pairs(n)|
    ensures Pairs(n)[..|PairsUpTo(i, j, n)|] == PairsUpTo(i, j, n)
    ensures Pairs(n)[|PairsUpTo(i, j, n)|] == (i, j)
  {
    PairsUpToInPairs(i, j + 1, n);
    var before, upto, all := PairsUpTo(i, j, n), PairsUpTo(i, j + 1, n), Pairs(n);
    assert upto == before + [(i, j)];
    var t := |before|;
    assert all[t] == upto[t];
    assert all[..t] == upto[..t];
  }

  /** Every pair i < j < n is enumerated. */
  lemma PairsComplete(n: nat, i: nat, j: nat)
    requires i < j < n
    ensures (i, j) in Pairs(n)
  {
    PairAt(n, i, j);
  }

  /** With two columns the only pair is (0, 1). */
  lemma PairsOfTwo()
    ensures Pairs(2) == [(0, 1)]
  {
    assert PairsUpTo(0, 2, 2) == [(0, 1)];
    assert PairsUpTo(1, 2, 2) == [(0, 1)];
  }

  /** Three labels give three pairs: (0, 1), (0, 2), (1, 2). */
  lemma PairsOfThree()
    ensures Pairs(3) == [(0, 1), (0, 2), (1, 2)]
  {
    assert PairsBefore(1, 3) == PairsUpTo(0, 3, 3) == [(0, 1), (0, 2)];
    assert PairsUpTo(1, 3, 3) == [(0, 1), (0, 2), (1, 2)];
  }

  /** The enumeration is strictly increasing in lexicographic order, hence has no repeats. */
  lemma {:induction false} PairsUpToOrdered(i: nat, k: nat, n: nat)
    requires i < k <= n
    ensures forall t1, t2 :: 0 <= t1 < t2 < |PairsUpTo(i, k, n)| ==>
      LexLess(PairsUpTo(i, k, n)[t1], PairsUpTo(i, k, n)[t2])
    decreases i, 1, k
  {
    if k == i + 1 {
      PairsBeforeOrdered(i, n);
    } else {
      PairsUpToOrdered(i, k - 1, n);
      var a := PairsUpTo(i, k - 1, n);
      var ps := a + [(i, k - 1)];
      assert PairsUpTo(i, k, n) == ps;
      forall t1, t2 | 0 <= t1 < t2 < |ps| ensures LexLess(ps[t1], ps[t2]) {
        assert ps[t1] == a[t1];
      }
    }
  }

  lemma {:induction false} PairsBeforeOrdered(i: nat, n: nat)
    requires i <= n
    ensures forall t1, t2 :: 0 <= t1 < t2 < |PairsBefore(i, n)| ==>
      LexLess(PairsBefore(i, n)[t1], PairsBefore(i, n)[t2])
    decreases i, 0, 0
  {
    if i > 0 {
      PairsUpToOrdered(i - 1, n, n);
    }
  }

  lemma PairsOrdered(n: nat)
    ensures forall t1, t2 :: 0 <= t1 < t2 < |Pairs(n)| ==> LexLess(Pairs(n)[t1], Pairs(n)[t2])
  {
    PairsBeforeOrdered(n, n);
  }
}
