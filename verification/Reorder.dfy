/** The reorderings a research pass applies to its candidates: the reranker's order, which
    may be partial, repeated or wrong, and the stable sort by decayed score. */
module Reorder {
  import opened Bytes
  import Mmr

  // ---------------------------------------------------------------- the reranker's order

  predicate Mentions(id: Option<int>, i: nat) { id == Some(i as int) }

  /** Where `i` is first mentioned, or the length of the list. */
  function FirstMention(ids: seq<Option<int>>, i: nat): (k: nat)
    ensures k <= |ids| && (k < |ids| ==> Mentions(ids[k], i))
    ensures forall j | 0 <= j < k :: !Mentions(ids[j], i)
  {
    if ids == [] then 0
    else
      var k := FirstMention(ids[..|ids| - 1], i);
      if k < |ids| - 1 || Mentions(ids[|ids| - 1], i) then k else |ids|
  }

  /** By first mention; candidates never mentioned go last, in their old order. */
  predicate MentionedFirst(ids: seq<Option<int>>, order: seq<nat>) {
    forall s, t | 0 <= s < t < |order| ::
      var a, b := FirstMention(ids, order[s]), FirstMention(ids, order[t]);
      a < b || (a == b == |ids| && order[s] < order[t])
  }

  ghost predicate RerankOrder(ids: seq<Option<int>>, n: nat, order: seq<nat>) {
    Mmr.Permutes(order, n) && MentionedFirst(ids, order)
  }

  /** `out` is `cands` in the order the ids ask for. */
  ghost predicate Reranked<T>(ids: seq<Option<int>>, cands: seq<T>, out: seq<T>) {
    exists order :: RerankOrder(ids, |cands|, order) && Mmr.Reads(out, cands, order)
  }

  predicate Distinct(order: seq<nat>, n: nat) {
    && (forall s | 0 <= s < |order| :: order[s] < n)
    && forall s: nat, t: nat | s < t < |order| :: order[s] != order[t]
  }

  lemma DistinctAllIsPermutation(order: seq<nat>, n: nat)
    requires Distinct(order, n) && forall i: nat | i < n :: i in order
    ensures Mmr.Permutes(order, n)
  {
    Mmr.DistinctSize(order);
    forall i: nat ensures i in Mmr.Members(order) <==> i in Mmr.Upto(n) {
    }
    assert Mmr.Members(order) == Mmr.Upto(n);
  }

  /** The candidates placed after `ids[..m]` and then the unmentioned ones below `c`. */
  predicate Placed(ids: seq<Option<int>>, m: nat, c: nat, n: nat, i: nat) {
    i < n && (FirstMention(ids, i) < m || (FirstMention(ids, i) == |ids| && i < c))
  }

  ghost predicate Partial(ids: seq<Option<int>>, m: nat, c: nat, n: nat, order: seq<nat>)
    requires m <= |ids|
  {
    && Distinct(order, n)
    && MentionedFirst(ids, order)
    && forall i: nat :: i in order <==> Placed(ids, m, c, n, i)
  }

  lemma {:induction false} PartialSnoc(ids: seq<Option<int>>, m: nat, c: nat, n: nat, order: seq<nat>, m': nat,
      c': nat, i: nat)
    requires m <= |ids| && m' <= |ids| && Partial(ids, m, c, n, order)
    requires i < n && i !in order
    requires forall j: nat :: Placed(ids, m', c', n, j) <==> j == i || Placed(ids, m, c, n, j)
    requires (FirstMention(ids, i) == m < |ids| && c == 0) || (FirstMention(ids, i) == |ids| == m && c == i)
    ensures Partial(ids, m', c', n, order + [i])
  {
    forall s | 0 <= s < |order|
      ensures FirstMention(ids, order[s]) < FirstMention(ids, i)
          || (FirstMention(ids, order[s]) == |ids| == FirstMention(ids, i) && order[s] < i)
    {
      assert order[s] in order && Placed(ids, m, c, n, order[s]);
    }
    MentionedSnoc(ids, order, i);
    forall j: nat ensures j in order + [i] <==> Placed(ids, m', c', n, j) {
      assert j in order + [i] <==> j in order || j == i;
    }
  }

  lemma MentionedSnoc(ids: seq<Option<int>>, order: seq<nat>, i: nat)
    requires MentionedFirst(ids, order)
    requires forall s | 0 <= s < |order| ::
      FirstMention(ids, order[s]) < FirstMention(ids, i)
          || (FirstMention(ids, order[s]) == |ids| == FirstMention(ids, i) && order[s] < i)
    ensures MentionedFirst(ids, order + [i])
  {
  }

  /** Entries that do not parse, are out of range or repeat are skipped. */
  method Rerank<T>(cands: seq<T>, ids: seq<Option<int>>) returns (out: seq<T>)
    ensures Reranked(ids, cands, out)
  {
    out := [];
    ghost var order: seq<nat> := [];
    var seen: set<nat> := {};
    var n := |cands|;
    for m := 0 to |ids|
      invariant Partial(ids, m, 0, n, order)
      invariant forall i: nat :: i in seen <==> i in order
      invariant |out| == |order| && forall s | 0 <= s < |order| :: out[s] == cands[order[s]]
    {
      if ids[m].Some? && 0 <= ids[m].value < n && ids[m].value !in seen {
        var i: nat := ids[m].value;
        MentionAt(ids, m, i, order, n);
        PartialSnoc(ids, m, 0, n, order, m + 1, 0, i);
        out, seen, order := out + [cands[i]], seen + {i}, order + [i];
      } else {
        PartialSkip(ids, m, n, order);
      }
    }
    for c := 0 to n
      invariant Partial(ids, |ids|, c, n, order)
      invariant forall i: nat :: i in seen <==> FirstMention(ids, i) < |ids| && i < n
      invariant |out| == |order| && forall s | 0 <= s < |order| :: out[s] == cands[order[s]]
    {
      if c !in seen {
        PartialSnoc(ids, |ids|, c, n, order, |ids|, c + 1, c);
        out, order := out + [cands[c]], order + [c];
      }
    }
    DistinctAllIsPermutation(order, n);
    assert RerankOrder(ids, n, order) && Mmr.Reads(out, cands, order);
  }

  lemma MentionAt(ids: seq<Option<int>>, m: nat, i: nat, order: seq<nat>, n: nat)
    requires m < |ids| && Mentions(ids[m], i) && Partial(ids, m, 0, n, order) && i < n && i !in order
    ensures FirstMention(ids, i) == m
    ensures forall j: nat | j < n :: FirstMention(ids, j) < m + 1 <==> (j == i || FirstMention(ids, j) < m)
  {
  }

  lemma PartialSkip(ids: seq<Option<int>>, m: nat, n: nat, order: seq<nat>)
    requires m < |ids| && Partial(ids, m, 0, n, order)
    requires ids[m].Some? && 0 <= ids[m].value < n ==> ids[m].value in order
    ensures Partial(ids, m + 1, 0, n, order)
  {
  }

  /** The order is determined: whatever the ids, there is only one. */
  lemma RerankOrderIsUnique(ids: seq<Option<int>>, n: nat, a: seq<nat>, b: seq<nat>)
    requires RerankOrder(ids, n, a) && RerankOrder(ids, n, b)
    ensures a == b
  {
    forall i | 0 <= i < n ensures a[i] == b[i] {
      AgreeUpto(ids, n, a, b, i);
    }
  }

  lemma {:induction false} AgreeUpto(ids: seq<Option<int>>, n: nat, a: seq<nat>, b: seq<nat>, i: nat)
    requires RerankOrder(ids, n, a) && RerankOrder(ids, n, b) && i < n
    ensures a[..i + 1] == b[..i + 1]
  {
    if i > 0 { AgreeUpto(ids, n, a, b, i - 1); }
    assert a[..i] == b[..i];
    forall s | 0 <= s < i ensures a[s] == b[s] { assert a[..i][s] == b[..i][s]; }
    Mmr.PermutesCovers(a, n, b[i]);
    Mmr.PermutesCovers(b, n, a[i]);
    var x, y := Mmr.IndexOf(a, b[i]), Mmr.IndexOf(b, a[i]);
    assert x >= i && y >= i;
  }

  /** A reranker that answers with a full permutation is obeyed exactly. */
  lemma FullOrderIsObeyed(ids: seq<Option<int>>, n: nat, wanted: seq<nat>, order: seq<nat>)
    requires Mmr.Permutes(wanted, n) && |ids| == n && forall k | 0 <= k < n :: Mentions(ids[k], wanted[k])
    requires RerankOrder(ids, n, order)
    ensures order == wanted
  {
    assert forall k | 0 <= k < n :: Mentions(ids[k], wanted[k]) && ids[k] == Some(wanted[k] as int);
    forall k | 0 <= k < n ensures FirstMention(ids, wanted[k]) == k {
    }
    RerankOrderIsUnique(ids, n, order, wanted);
  }

  /** Who is mentioned stands before who is mentioned later or not at all, and those not
      mentioned keep their old order. */
  lemma MentionedGoFirst(ids: seq<Option<int>>, n: nat, order: seq<nat>, s: nat, t: nat)
    requires RerankOrder(ids, n, order) && s < t < n
    ensures forall k | 0 <= k < |ids| && ids[k] == Some(order[t] as int) ::
              exists j :: 0 <= j < k && ids[j] == Some(order[s] as int)
    ensures Some(order[s] as int) !in ids ==> order[s] < order[t]
  {
    var a, b := FirstMention(ids, order[s]), FirstMention(ids, order[t]);
    forall k | 0 <= k < |ids| && ids[k] == Some(order[t] as int)
      ensures exists j :: 0 <= j < k && ids[j] == Some(order[s] as int)
    {
      assert Mentions(ids[k], order[t]);
      assert Mentions(ids[a], order[s]) && a < b <= k;
    }
    if a < |ids| { assert Mentions(ids[a], order[s]); }
  }

  // ---------------------------------------------------------------- stable sort by score

  predicate Above(scores: seq<real>, i: nat, j: nat)
    requires i < |scores| && j < |scores|
  {
    scores[i] > scores[j] || (scores[i] == scores[j] && i < j)
  }

  /** Descending, equal scores in their old order: `order` lists the first `n` that way. */
  predicate StablePrefix(scores: seq<real>, n: nat, order: seq<nat>)
    requires n <= |scores|
  {
    && Mmr.Permutes(order, n)
    && forall s, t | 0 <= s < t < |order| :: Above(scores, order[s], order[t])
  }

  predicate StableOrder(scores: seq<real>, order: seq<nat>) { StablePrefix(scores, |scores|, order) }

  method StableByScore(scores: seq<real>) returns (order: seq<nat>)
    ensures StableOrder(scores, order)
    ensures forall s, t | 0 <= s < t < |order| ::
      scores[order[s]] > scores[order[t]] || (scores[order[s]] == scores[order[t]] && order[s] < order[t])
  {
    order := [];
    for n := 0 to |scores|
      invariant StablePrefix(scores, n, order)
    {
      var at: nat := |order|;
      while at > 0 && scores[order[at - 1]] < scores[n]
        invariant at <= |order|
        invariant forall s | at <= s < |order| :: Above(scores, n, order[s])
      {
        at := at - 1;
      }
      InsertKeepsOrder(scores, n, order, at);
      order := order[..at] + [n] + order[at..];
    }
    forall s, t | 0 <= s < t < |order|
      ensures scores[order[s]] > scores[order[t]] || (scores[order[s]] == scores[order[t]] && order[s] < order[t])
    {
      assert Above(scores, order[s], order[t]);
    }
  }

  lemma InsertKeepsOrder(scores: seq<real>, n: nat, order: seq<nat>, at: nat)
    requires n < |scores| && StablePrefix(scores, n, order) && at <= |order|
    requires at > 0 ==> scores[order[at - 1]] >= scores[n]
    requires forall s | at <= s < |order| :: Above(scores, n, order[s])
    ensures StablePrefix(scores, n + 1, order[..at] + [n] + order[at..])
  {
    forall s | 0 <= s < at ensures Above(scores, order[s], n) {
      if s < at - 1 { assert Above(scores, order[s], order[at - 1]); }
    }
    InsertPermutes(n, order, at);
    var next := order[..at] + [n] + order[at..];
    forall s, t | 0 <= s < t < |next| ensures Above(scores, next[s], next[t]) {
      assert next[s] == if s < at then order[s] else if s == at then n else order[s - 1];
      assert next[t] == if t < at then order[t] else if t == at then n else order[t - 1];
    }
  }

  lemma InsertPermutes(n: nat, order: seq<nat>, at: nat)
    requires Mmr.Permutes(order, n) && at <= n
    ensures Mmr.Permutes(order[..at] + [n] + order[at..], n + 1)
  {
    var next := order[..at] + [n] + order[at..];
    forall s | 0 <= s < |next| ensures next[s] == if s < at then order[s] else if s == at then n else order[s - 1] {
    }
  }
}
