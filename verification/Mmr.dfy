/** Maximal marginal relevance: a greedy reordering that trades relevance to the query
    against similarity to what is already picked. Scores are reals. */
module Mmr {
  import opened Collections

  type Vec = seq<real>

  function DotFrom(a: Vec, b: Vec, k: nat): real
    requires k <= |a| == |b|
  {
    if k == 0 then 0.0 else DotFrom(a, b, k - 1) + a[k - 1] * b[k - 1]
  }

  /** Zero for vectors of different lengths. */
  function Dot(a: Vec, b: Vec): real {
    if |a| != |b| then 0.0 else DotFrom(a, b, |a|)
  }

  /** The sum of the products, place by place: these three laws leave no other value. */
  lemma {:induction false} DotIsSumOfProducts(a: Vec, b: Vec, x: real, y: real)
    ensures |a| != |b| ==> Dot(a, b) == 0.0
    ensures Dot([], []) == 0.0
    ensures |a| == |b| ==> Dot(a + [x], b + [y]) == Dot(a, b) + x * y
  {
    if |a| == |b| { DotPrefix(a, b, a + [x], b + [y], |a|); }
  }

  lemma {:induction false} DotPrefix(a: Vec, b: Vec, a': Vec, b': Vec, k: nat)
    requires k <= |a| == |b| && a <= a' && b <= b' && |a'| == |b'|
    ensures DotFrom(a, b, k) == DotFrom(a', b', k)
  {
    if k > 0 { DotPrefix(a, b, a', b', k - 1); }
  }

  /** A ranking problem: query, candidate vectors (empty when missing), and the tradeoff between the two. */
  datatype Problem = Problem(q: Vec, vecs: seq<Vec>, tradeoff: real)

  function Rel(p: Problem, i: nat): real
    requires i < |p.vecs|
  {
    if |p.vecs[i]| > 0 then Dot(p.q, p.vecs[i]) else 0.0
  }

  predicate InRange(p: Problem, order: seq<nat>) {
    forall t | 0 <= t < |order| :: order[t] < |p.vecs|
  }

  /** The largest similarity of candidate `i` to any of `order`, or zero. */
  function MaxSim(p: Problem, order: seq<nat>, i: nat): real
    requires i < |p.vecs| && InRange(p, order)
  {
    if order == [] then 0.0
    else
      var j := order[|order| - 1];
      var m := MaxSim(p, order[..|order| - 1], i);
      if |p.vecs[i]| == 0 || |p.vecs[j]| == 0 then m
      else if Dot(p.vecs[i], p.vecs[j]) > m then Dot(p.vecs[i], p.vecs[j])
      else m
  }

  function Score(p: Problem, order: seq<nat>, i: nat): real
    requires i < |p.vecs| && InRange(p, order)
  {
    p.tradeoff * Rel(p, i) - (1.0 - p.tradeoff) * MaxSim(p, order, i)
  }

  /** `i` is the first of the best candidates not yet in `order`. */
  predicate IsPick(p: Problem, order: seq<nat>, i: nat)
    requires InRange(p, order)
  {
    && i < |p.vecs|
    && i !in order
    && forall j: nat | j < |p.vecs| && j !in order ::
         Score(p, order, j) < Score(p, order, i) || (Score(p, order, j) == Score(p, order, i) && i <= j)
  }

  ghost predicate Greedy(p: Problem, order: seq<nat>) {
    && |order| <= |p.vecs|
    && InRange(p, order)
    && forall t | 0 <= t < |order| :: IsPick(p, order[..t], order[t])
  }

  lemma GreedyExtends(p: Problem, order: seq<nat>, i: nat)
    requires Greedy(p, order) && IsPick(p, order, i) && |order| < |p.vecs|
    ensures Greedy(p, order + [i])
  {
    forall t | 0 <= t < |order + [i]| ensures IsPick(p, (order + [i])[..t], (order + [i])[t]) {
      assert (order + [i])[..t] == order[..t];
      if t == |order| { assert order[..t] == order; }
    }
  }

  /** What the running maximum means, for any order. */
  lemma {:induction false} MaxSimIsMax(p: Problem, order: seq<nat>, i: nat)
    requires i < |p.vecs| && InRange(p, order)
    ensures MaxSim(p, order, i) >= 0.0
    ensures forall t | 0 <= t < |order| && |p.vecs[i]| > 0 && |p.vecs[order[t]]| > 0 ::
              Dot(p.vecs[i], p.vecs[order[t]]) <= MaxSim(p, order, i)
    ensures MaxSim(p, order, i) == 0.0 ||
            exists t :: 0 <= t < |order| && MaxSim(p, order, i) == Dot(p.vecs[i], p.vecs[order[t]])
  {
    if order != [] {
      var n := |order| - 1;
      MaxSimIsMax(p, order[..n], i);
      assert order[..n] + [order[n]] == order;
    }
  }

  // ---------------------------------------------------------------- the algorithm

  method MmrOrder(q: Vec, vecs: seq<Vec>, tradeoff: real) returns (order: seq<nat>)
    ensures |order| == |vecs| && Greedy(Problem(q, vecs, tradeoff), order)
  {
    ghost var p := Problem(q, vecs, tradeoff);
    var n := |vecs|;
    var selected, rel := new bool[n], new real[n];
    for i := 0 to n
      invariant forall j | 0 <= j < i :: rel[j] == Rel(p, j) && !selected[j]
    {
      selected[i], rel[i] := false, 0.0;
      if |vecs[i]| > 0 {
        rel[i] := Dot(q, vecs[i]);
      }
    }
    order := [];
    while |order| < n
      invariant Greedy(p, order)
      invariant forall i: nat | i < n :: selected[i] <==> i in order
      invariant forall j | 0 <= j < n :: rel[j] == Rel(p, j)
      decreases n - |order|
    {
      var bestI := PickNext(p, vecs, tradeoff, selected, rel, order);
      GreedyExtends(p, order, bestI);
      selected[bestI] := true;
      order := order + [bestI];
    }
  }

  /** The innermost scan, over what is already picked. */
  method Closest(vecs: seq<Vec>, order: seq<nat>, i: nat, ghost p: Problem) returns (maxSim: real)
    requires vecs == p.vecs && i < |vecs| && InRange(p, order)
    ensures maxSim == MaxSim(p, order, i)
  {
    maxSim := 0.0;
    for t := 0 to |order|
      invariant maxSim == MaxSim(p, order[..t], i)
    {
      var j := order[t];
      assert order[..t + 1][..t] == order[..t];
      if |vecs[i]| > 0 && |vecs[j]| > 0 {
        var sim := Dot(vecs[i], vecs[j]);
        if sim > maxSim {
          maxSim := sim;
        }
      }
    }
    assert order[..|order|] == order;
  }

  /** `best` is the first best of the unselected candidates below `i`. */
  ghost predicate BestBelow(p: Problem, order: seq<nat>, i: nat, best: nat)
    requires i <= |p.vecs| && InRange(p, order)
  {
    && best < i
    && best !in order
    && forall j: nat | j < i && j !in order ::
         Score(p, order, j) < Score(p, order, best) || (Score(p, order, j) == Score(p, order, best) && best <= j)
  }

  /** The inner scan: the first best candidate among those not selected. */
  method PickNext(ghost p: Problem, vecs: seq<Vec>, tradeoff: real, selected: array<bool>, rel: array<real>,
      order: seq<nat>)
    returns (bestI: nat)
    requires p.vecs == vecs && p.tradeoff == tradeoff && InRange(p, order)
    requires selected.Length == rel.Length == |vecs| && |order| < |vecs|
    requires forall i: nat | i < |vecs| :: selected[i] <==> i in order
    requires forall j | 0 <= j < |vecs| :: rel[j] == Rel(p, j)
    ensures IsPick(p, order, bestI)
  {
    var best, bestScore := -1, 0.0;
    for i := 0 to |vecs|
      invariant -1 <= best < i
      invariant best == -1 ==> forall j: nat | j < i :: j in order
      invariant best >= 0 ==> bestScore == Score(p, order, best) && BestBelow(p, order, i, best)
    {
      if !selected[i] {
        var maxSim := Closest(vecs, order, i, p);
        var score := tradeoff * rel[i] - (1.0 - tradeoff) * maxSim;
        assert score == Score(p, order, i);
        if best == -1 || score > bestScore {
          best, bestScore := i, score;
        }
      }
    }
    if best == -1 {
      AllSelectedIsLong(order, |vecs|);
    }
    return best;
  }

  // ---------------------------------------------------------------- what greedy orders are

  lemma GreedyDistinct(p: Problem, order: seq<nat>, s: nat, t: nat)
    requires Greedy(p, order) && s < t < |order|
    ensures order[s] != order[t]
  {
    assert IsPick(p, order[..t], order[t]);
    assert order[..t][s] == order[s];
  }

  function Members(order: seq<nat>): set<nat> { set i | i in order }

  function Upto(n: nat): (r: set<nat>)
    ensures |r| == n && forall i: nat :: i in r <==> i < n
  {
    if n == 0 then {} else Upto(n - 1) + {n - 1}
  }

  function IndexOf(order: seq<nat>, i: nat): (k: nat)
    requires i in order
    ensures k < |order| && order[k] == i
  {
    if order[0] == i then 0 else 1 + IndexOf(order[1..], i)
  }

  lemma {:induction false} MembersAtMost(order: seq<nat>)
    ensures |Members(order)| <= |order|
  {
    if order == [] {
      assert Members(order) == {};
    } else {
      var n := |order| - 1;
      MembersAtMost(order[..n]);
      assert Members(order) == Members(order[..n]) + {order[n]};
    }
  }

  lemma AllSelectedIsLong(order: seq<nat>, n: nat)
    requires forall j: nat | j < n :: j in order
    ensures n <= |order|
  {
    MembersAtMost(order);
    SubsetSize(Upto(n), Members(order));
  }

  lemma {:induction false} DistinctSize(order: seq<nat>)
    requires forall s, t | 0 <= s < t < |order| :: order[s] != order[t]
    ensures |Members(order)| == |order|
  {
    if order == [] {
      assert Members(order) == {};
    } else {
      var n := |order| - 1;
      DistinctSize(order[..n]);
      assert Members(order) == Members(order[..n]) + {order[n]};
    }
  }

  lemma SameSizeSubset(a: set<nat>, b: set<nat>, x: nat)
    requires a <= b && |a| == |b| && x in b
    ensures x in a
  {
    if x !in a { SubsetSize(a, b - {x}); }
  }

  /** A full greedy order is a permutation of the candidates: each exactly once. */
  lemma GreedyIsPermutation(p: Problem, order: seq<nat>)
    requires Greedy(p, order) && |order| == |p.vecs|
    ensures Permutes(order, |p.vecs|)
    ensures forall i: nat | i < |p.vecs| :: i in order
  {
    forall s: nat, t: nat | s < t < |order| ensures order[s] != order[t] { GreedyDistinct(p, order, s, t); }
    forall i: nat | i < |p.vecs| ensures i in order { PermutesCovers(order, |p.vecs|, i); }
  }

  /** The greedy order is unique, so the specification decides the result. */
  lemma {:induction false} GreedyIsUnique(p: Problem, a: seq<nat>, b: seq<nat>, t: nat)
    requires Greedy(p, a) && Greedy(p, b) && t <= |a| && t <= |b|
    ensures a[..t] == b[..t]
  {
    if t > 0 {
      GreedyIsUnique(p, a, b, t - 1);
      assert IsPick(p, a[..t - 1], a[t - 1]) && IsPick(p, b[..t - 1], b[t - 1]);
      assert a[..t] == a[..t - 1] + [a[t - 1]] && b[..t] == b[..t - 1] + [b[t - 1]];
    }
  }

  /** Each pick is the first of those that score best: relevance to the query weighed against
      the greatest similarity to what stands before. */
  lemma PicksScoreBest(p: Problem, order: seq<nat>, t: nat, j: nat)
    requires Greedy(p, order) && t < |order| && j < |p.vecs| && j !in order[..t]
    ensures var x := p.tradeoff * Dot(p.q, p.vecs[order[t]]) - (1.0 - p.tradeoff) * MaxSim(p, order[..t], order[t]);
      var y := p.tradeoff * Dot(p.q, p.vecs[j]) - (1.0 - p.tradeoff) * MaxSim(p, order[..t], j);
      y < x || (y == x && order[t] <= j)
  {
    assert IsPick(p, order[..t], order[t]);
    ScoreWeighs(p, order[..t], order[t]);
    ScoreWeighs(p, order[..t], j);
  }

  lemma ScoreWeighs(p: Problem, order: seq<nat>, i: nat)
    requires i < |p.vecs| && InRange(p, order)
    ensures Score(p, order, i) == p.tradeoff * Dot(p.q, p.vecs[i]) - (1.0 - p.tradeoff) * MaxSim(p, order, i)
  {
    RelIsDot(p, i);
  }

  /** A missing vector is as relevant as an orthogonal one. */
  lemma RelIsDot(p: Problem, i: nat)
    requires i < |p.vecs|
    ensures Rel(p, i) == Dot(p.q, p.vecs[i])
  {
  }

  function WinScore(p: Problem, order: seq<nat>, t: nat): real
    requires t < |order| && InRange(p, order)
  {
    Score(p, order[..t], order[t])
  }

  lemma MaxSimGrows(p: Problem, order: seq<nat>, j: nat, i: nat)
    requires i < |p.vecs| && InRange(p, order + [j]) && InRange(p, order)
    ensures MaxSim(p, order, i) <= MaxSim(p, order + [j], i)
  {
    assert (order + [j])[..|order|] == order;
  }

  /** The winning scores never rise along the order, when the tradeoff is at most one. */
  lemma WinScoresFall(p: Problem, order: seq<nat>, t: nat)
    requires Greedy(p, order) && p.tradeoff <= 1.0 && t + 1 < |order|
    ensures WinScore(p, order, t + 1) <= WinScore(p, order, t)
  {
    var before, i := order[..t], order[t + 1];
    assert order[..t + 1] == before + [order[t]];
    MaxSimGrows(p, before, order[t], i);
    GreedyDistinct(p, order, t, t + 1);
    assert IsPick(p, order[..t + 1], i) && IsPick(p, before, order[t]);
    assert i !in before;
    ScoreFalls(p, before, order[t], i);
  }

  lemma ScoreFalls(p: Problem, order: seq<nat>, j: nat, i: nat)
    requires i < |p.vecs| && InRange(p, order + [j]) && InRange(p, order) && p.tradeoff <= 1.0
    ensures Score(p, order + [j], i) <= Score(p, order, i)
  {
    MaxSimGrows(p, order, j, i);
    var a, b := MaxSim(p, order, i), MaxSim(p, order + [j], i);
    assert (1.0 - p.tradeoff) * (b - a) >= 0.0;
  }

  /** With tradeoff one the order is the stable descending sort by relevance. */
  lemma PureRelevanceIsStableSort(p: Problem, order: seq<nat>, s: nat, t: nat)
    requires Greedy(p, order) && p.tradeoff == 1.0 && s < t < |order|
    ensures var x, y := Dot(p.q, p.vecs[order[s]]), Dot(p.q, p.vecs[order[t]]);
            y < x || (y == x && order[s] < order[t])
  {
    RelIsDot(p, order[s]);
    RelIsDot(p, order[t]);
    GreedyDistinct(p, order, s, t);
    assert IsPick(p, order[..s], order[s]);
    assert IsPick(p, order[..t], order[t]);
    assert order[t] !in order[..s] by {
      forall k | 0 <= k < s ensures order[..s][k] != order[t] { GreedyDistinct(p, order, k, t); }
    }
  }

  // ---------------------------------------------------------------- the /search wrapper

  method MmrSelect<H>(q: Vec, hits: seq<H>, vecs: seq<Vec>, tradeoff: real) returns (out: seq<H>)
    requires |hits| == |vecs|
    ensures |hits| <= 1 || tradeoff >= 1.0 ==> out == hits
    ensures |hits| > 1 && tradeoff < 1.0 ==> Diversified(Problem(q, vecs, tradeoff), hits, out)
    ensures multiset(out) == multiset(hits)
  {
    if |hits| <= 1 || tradeoff >= 1.0 {
      return hits;
    }
    var order := MmrOrder(q, vecs, tradeoff);
    out := [];
    for t := 0 to |order|
      invariant |out| == t && forall s | 0 <= s < t :: out[s] == hits[order[s]]
    {
      out := out + [hits[order[t]]];
    }
    GreedyIsPermutation(Problem(q, vecs, tradeoff), order);
    PermutedSame(hits, out, order);
    assert Reads(out, hits, order);
  }

  /** `out` is `hits` read in the order `order`. */
  ghost predicate Reads<H>(out: seq<H>, hits: seq<H>, order: seq<nat>) {
    && |out| == |hits| && Permutes(order, |hits|)
    && forall s | 0 <= s < |order| :: out[s] == hits[order[s]]
  }

  /** `out` is `hits` in greedy order. */
  ghost predicate Diversified<H>(p: Problem, hits: seq<H>, out: seq<H>) {
    exists order :: Greedy(p, order) && |order| == |p.vecs| && Reads(out, hits, order)
  }

  /** `order` lists 0..n-1, each once. */
  predicate Permutes(order: seq<nat>, n: nat) {
    && |order| == n
    && (forall s | 0 <= s < |order| :: order[s] < n)
    && forall s: nat, t: nat | s < t < |order| :: order[s] != order[t]
  }

  lemma WithoutLargest(order: seq<nat>, n: nat, k: nat)
    requires n > 0 && Permutes(order, n) && k < n && order[k] == n - 1
    ensures Permutes(Without(order, k), n - 1)
  {
    forall s | 0 <= s < n - 1 ensures Without(order, k)[s] < n - 1 {
      assert Without(order, k)[s] == order[if s < k then s else s + 1];
    }
    forall s: nat, t: nat | s < t < n - 1 ensures Without(order, k)[s] != Without(order, k)[t] {
      assert Without(order, k)[s] == order[if s < k then s else s + 1];
      assert Without(order, k)[t] == order[if t < k then t else t + 1];
    }
  }

  lemma PermutesCovers(order: seq<nat>, n: nat, i: nat)
    requires Permutes(order, n) && i < n
    ensures i in order
  {
    DistinctSize(order);
    SameSizeSubset(Members(order), Upto(n), i);
  }

  /** Reading a list through a permutation keeps its contents. */
  lemma {:induction false} PermutedSame<H>(hits: seq<H>, out: seq<H>, order: seq<nat>)
    requires |hits| == |out| && Permutes(order, |hits|)
    requires forall s | 0 <= s < |order| :: out[s] == hits[order[s]]
    ensures multiset(out) == multiset(hits)
  {
    if hits != [] {
      var n := |hits| - 1;
      PermutesCovers(order, n + 1, n);
      var k := IndexOf(order, n);
      WithoutLargest(order, n + 1, k);
      forall s | 0 <= s < n ensures Without(out, k)[s] == hits[..n][Without(order, k)[s]] {
        assert Without(order, k)[s] == order[if s < k then s else s + 1];
      }
      PermutedSame(hits[..n], Without(out, k), Without(order, k));
      SplitAt(out, k);
      assert hits == hits[..n] + [hits[n]];
    }
  }
}
