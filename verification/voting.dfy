/** The per-row majority vote of MulticlassSVM::Predict: ballots are tallied in pair order
    and a label becomes the answer when its tally strictly exceeds the best so far, so the
    winner is the label whose tally first reaches the final maximum. */
module Voting {

  /** How often v occurs in s. */
  function Count(s: seq<int>, v: int): (c: nat)
    ensures c <= |s|
    decreases |s|
  {
    if s == [] then 0 else Count(s[..|s| - 1], v) + (if s[|s| - 1] == v then 1 else 0)
  }

  /** The largest tally of any label in s (0 for no ballots). */
  function MaxCount(s: seq<int>): nat
    decreases |s|
  {
    if s == [] then 0
    else
      var m := MaxCount(s[..|s| - 1]);
      var c := Count(s, s[|s| - 1]);
      if c > m then c else m
  }

  /** The first position at or after p where the ballot cast there brings its label's tally to
      m, or |s| if there is none. */
  function FirstReach(s: seq<int>, m: nat, p: nat): (r: nat)
    requires p <= |s|
    ensures p <= r <= |s|
    ensures r < |s| ==> Count(s[..r + 1], s[r]) == m
    ensures forall q :: p <= q < r ==> Count(s[..q + 1], s[q]) != m
    decreases |s| - p
  {
    if p == |s| then |s|
    else if Count(s[..p + 1], s[p]) == m then p
    else FirstReach(s, m, p + 1)
  }

  /** The winner of a non-empty ballot list: the label whose tally first reaches the maximum. */
  function Winner(s: seq<int>): int
    requires s != []
  {
    MaxReached(s);
    s[FirstReach(s, MaxCount(s), 0)]
  }

  /** Appending one ballot adds one to its own label's tally and nothing else. */
  lemma CountAppend(s: seq<int>, v: int, u: int)
    ensures Count(s + [v], u) == Count(s, u) + (if v == u then 1 else 0)
  {
    assert (s + [v])[..|s|] == s;
  }

  /** A tally taken on a prefix is at most the full tally. */
  lemma {:induction false} CountPrefix(s: seq<int>, k: nat, v: int)
    requires k <= |s|
    ensures Count(s[..k], v) <= Count(s, v)
    decreases |s| - k
  {
    if k < |s| {
      CountPrefix(s, k + 1, v);
      var t := s[..k + 1];
      assert t == s[..k] + [s[k]];
      CountAppend(s[..k], s[k], v);
    } else {
      assert s[..k] == s;
    }
  }

  /** MaxCount bounds every tally and is attained by some ballot. */
  lemma {:induction false} MaxCountIsMax(s: seq<int>)
    ensures forall v :: Count(s, v) <= MaxCount(s)
    ensures s != [] ==> exists k :: 0 <= k < |s| && Count(s, s[k]) == MaxCount(s)
    ensures s == [] ==> MaxCount(s) == 0
    decreases |s|
  {
    if s != [] {
      var n := |s| - 1;
      var front := s[..n];
      MaxCountIsMax(front);
      assert s == front + [s[n]];
      forall v ensures Count(s, v) == Count(front, v) + (if s[n] == v then 1 else 0) {
        CountAppend(front, s[n], v);
      }
      if MaxCount(front) >= Count(s, s[n]) && front != [] {
        var k :| 0 <= k < n && Count(front, front[k]) == MaxCount(front);
        assert s[k] == front[k];
      }
    }
  }

  /** The tally of a label reaches its final value at the label's last ballot. */
  lemma {:induction false} LastBallot(s: seq<int>, v: int)
    requires Count(s, v) > 0
    ensures exists q :: 0 <= q < |s| && s[q] == v && Count(s[..q + 1], v) == Count(s, v)
    decreases |s|
  {
    var n := |s| - 1;
    assert s[..n + 1] == s;
    if s[n] != v {
      LastBallot(s[..n], v);
      var q :| 0 <= q < n && s[..n][q] == v && Count(s[..n][..q + 1], v) == Count(s[..n], v);
      assert s[..n][..q + 1] == s[..q + 1];
    }
  }

  /** In a non-empty ballot list some ballot brings its label to the maximum. */
  lemma MaxReached(s: seq<int>)
    requires s != []
    ensures FirstReach(s, MaxCount(s), 0) < |s|
  {
    MaxCountIsMax(s);
    var k :| 0 <= k < |s| && Count(s, s[k]) == MaxCount(s);
    LastBallot(s, s[k]);
    var q :| 0 <= q < |s| && s[q] == s[k] && Count(s[..q + 1], s[k]) == Count(s, s[k]);
    assert Count(s[..q + 1], s[q]) == MaxCount(s);
  }

  /** The winner occurs among the ballots, has the largest tally, and no ballot before the one
      that brought it to that tally brought any label to it: among tied labels the first to
      reach the maximum wins. */
  lemma WinnerIsFirstToMax(s: seq<int>)
    requires s != []
    ensures Winner(s) in s
    ensures forall v :: Count(s, v) <= Count(s, Winner(s))
    ensures exists p ::
      && 0 <= p < |s| && s[p] == Winner(s)
      && Count(s[..p + 1], s[p]) == MaxCount(s)
      && forall q :: 0 <= q < p ==> Count(s[..q + 1], s[q]) < MaxCount(s)
  {
    MaxReached(s);
    var m := MaxCount(s);
    var p := FirstReach(s, m, 0);
    var w := s[p];
    assert w == Winner(s);
    WinnerTally(s, p);
    forall q | 0 <= q < p ensures Count(s[..q + 1], s[q]) < m {
      WinnerTally(s, q);
    }
  }

  /** No running tally exceeds the maximum, and the maximum is the winner's full tally. */
  lemma WinnerTally(s: seq<int>, q: nat)
    requires q < |s|
    ensures Count(s[..q + 1], s[q]) <= MaxCount(s)
    ensures Count(s[..q + 1], s[q]) == MaxCount(s) ==> forall v :: Count(s, v) <= Count(s, s[q])
  {
    MaxCountIsMax(s);
    CountPrefix(s, q + 1, s[q]);
  }

  /** The first-to-reach rule is a rule about positions: extending the ballots keeps the
      position found in a prefix. */
  lemma {:induction false} FirstReachExtend(s: seq<int>, v: int, m: nat, p: nat)
    requires p <= |s| && FirstReach(s, m, p) < |s|
    ensures FirstReach(s + [v], m, p) == FirstReach(s, m, p)
    decreases |s| - p
  {
    var u := s + [v];
    assert u[..p + 1] == s[..p + 1];
    if Count(s[..p + 1], s[p]) != m {
      FirstReachExtend(s, v, m, p + 1);
    }
  }

  /** A tally that stays below m on a prefix never reaches it there. */
  lemma {:induction false} FirstReachPast(s: seq<int>, v: int, m: nat, p: nat)
    requires p <= |s|
    requires forall q :: p <= q < |s| ==> Count(s[..q + 1], s[q]) < m
    ensures FirstReach(s + [v], m, p) >= |s|
    decreases |s| - p
  {
    var u := s + [v];
    if p < |s| {
      assert u[..p + 1] == s[..p + 1];
      FirstReachPast(s, v, m, p + 1);
    }
  }

  /** One more ballot: it takes the lead when it pushes its label strictly past the best
      tally so far, otherwise the winner stays. */
  lemma WinnerStep(s: seq<int>, v: int)
    ensures MaxCount(s + [v]) == if Count(s + [v], v) > MaxCount(s) then Count(s + [v], v) else MaxCount(s)
    ensures Count(s + [v], v) > MaxCount(s) ==> Winner(s + [v]) == v
    ensures Count(s + [v], v) <= MaxCount(s) ==> s != [] && Winner(s + [v]) == Winner(s)
  {
    var u := s + [v];
    assert u[..|s|] == s;
    MaxCountIsMax(s);
    if Count(u, v) > MaxCount(s) {
      forall q | 0 <= q < |s| ensures Count(s[..q + 1], s[q]) < Count(u, v) {
        CountPrefix(s, q + 1, s[q]);
      }
      FirstReachPast(s, v, Count(u, v), 0);
      assert u[..|s| + 1] == u;
    } else {
      CountAppend(s, v, v);
      MaxReached(s);
      FirstReachExtend(s, v, MaxCount(s), 0);
    }
  }

  /** Ballot column i of the per-pair prediction lists: the ballot of every pair for row i. */
  function Column(raw: seq<seq<int>>, i: nat): (s: seq<int>)
    requires forall k :: 0 <= k < |raw| ==> i < |raw[k]|
    ensures |s| == |raw| && forall k :: 0 <= k < |raw| ==> s[k] == raw[k][i]
  {
    seq(|raw|, k requires 0 <= k < |raw| => raw[k][i])
  }

  /** The hash map holds the tally of every label seen so far and nothing else. */
  ghost predicate Tallied(dict: map<int, nat>, s: seq<int>) {
    && (forall v :: v in dict ==> dict[v] == Count(s, v))
    && (forall v :: v !in dict ==> Count(s, v) == 0)
  }

  /** Bumping the tally of one more ballot keeps the map in step with the ballots. */
  lemma TallyStep(dict: map<int, nat>, s: seq<int>, ballot: int)
    requires Tallied(dict, s)
    ensures (if ballot in dict then dict[ballot] else 0) + 1 == Count(s + [ballot], ballot)
    ensures Tallied(dict[ballot := (if ballot in dict then dict[ballot] else 0) + 1], s + [ballot])
  {
    forall v ensures Count(s + [ballot], v) == Count(s, v) + (if ballot == v then 1 else 0) {
      CountAppend(s, ballot, v);
    }
  }

  /** The counting loop for one row: a hash-map tally, the best tally so far and its label,
      updated when a tally strictly exceeds the best. */
  method Commonest(raw: seq<seq<int>>, i: nat) returns (commonest: int)
    requires raw != []
    requires forall k :: 0 <= k < |raw| ==> i < |raw[k]|
    ensures commonest == Winner(Column(raw, i))
  {
    ghost var s := Column(raw, i);
    var dict: map<int, nat> := map[];
    var maxcount := 0;
    commonest := 0;
    var t := 0;
    while t < |raw|
      invariant 0 <= t <= |raw|
      invariant Tallied(dict, s[..t])
      invariant maxcount == MaxCount(s[..t])
      invariant t > 0 ==> commonest == Winner(s[..t])
    {
      var ballot := raw[t][i];
      ghost var seen := s[..t];
      assert s[..t + 1] == seen + [ballot];
      TallyStep(dict, seen, ballot);
      WinnerStep(seen, ballot);
      var tally := (if ballot in dict then dict[ballot] else 0) + 1;
      dict := dict[ballot := tally];
      if tally > maxcount {
        commonest := ballot;
        maxcount := tally;
      }
      t := t + 1;
    }
    assert s[..t] == s;
  }

  /** Two labels tied on two ballots each: the one completing its pair first wins, even
      though the other label was cast first. */
  lemma TieGoesToFirst(a: int, b: int)
    requires a != b
    ensures Winner([b, a, a, b]) == a
  {
    assert [] + [b] == [b] && [b] + [a] == [b, a] && [b, a] + [a] == [b, a, a] && [b, a, a] + [b] == [b, a, a, b];
    WinnerStep([], b);
    CountAppend([], b, a);
    WinnerStep([b], a);
    CountAppend([b], a, a);
    WinnerStep([b, a], a);
    CountAppend([b], a, b);
    CountAppend([b, a], a, b);
    WinnerStep([b, a, a], b);
    CountAppend([b, a, a], b, b);
  }

  /** Of three ballots, a label cast twice wins, and with three different labels the first
      ballot wins. */
  lemma MajorityOfThree(a: int, b: int, c: int)
    ensures Winner([a, b, c]) == if b == c then b else a
  {
    WinnerStep([], a);
    WinnerStep([a], b);
    WinnerStep([a, b], c);
    assert [] + [a] == [a] && [a] + [b] == [a, b] && [a, b] + [c] == [a, b, c];
    CountAppend([], a, b);
    CountAppend([a], b, b);
    CountAppend([], a, c);
    CountAppend([a], b, c);
    CountAppend([a, b], c, c);
  }
}
