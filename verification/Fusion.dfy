/** Reciprocal rank fusion of ranked lists, and the scatter-gather search built on it. */
module Fusion {
  import opened Bytes
  import opened Collections

  datatype Hit = Hit(url: string, title: string, score: real)

  type Ranked = seq<Hit>

  const FUSE_K := 60

  function Weight(rank: nat): (w: real)
    ensures w > 0.0
  {
    1.0 / (FUSE_K + rank + 1) as real
  }

  /** What one list contributes to a URL: the weights of all its occurrences. */
  function ListScore(list: Ranked, url: string): real {
    if list == [] then 0.0
    else ListScore(list[..|list| - 1], url) + if list[|list| - 1].url == url then Weight(|list| - 1) else 0.0
  }

  function Score(lists: seq<Ranked>, url: string): real {
    if lists == [] then 0.0 else Score(lists[..|lists| - 1], url) + ListScore(lists[|lists| - 1], url)
  }

  predicate InList(list: Ranked, url: string) { exists r :: 0 <= r < |list| && list[r].url == url }

  predicate InLists(lists: seq<Ranked>, url: string) { exists l :: 0 <= l < |lists| && InList(lists[l], url) }

  /** The title of the first occurrence, reading the lists in order. */
  function FirstTitle(list: Ranked, url: string): Option<string> {
    if list == [] then None
    else
      var before := FirstTitle(list[..|list| - 1], url);
      if before.Some? then before
      else if list[|list| - 1].url == url then Some(list[|list| - 1].title) else None
  }

  function Title(lists: seq<Ranked>, url: string): Option<string> {
    if lists == [] then None
    else
      var before := Title(lists[..|lists| - 1], url);
      if before.Some? then before else FirstTitle(lists[|lists| - 1], url)
  }

  // ---------------------------------------------------------------- what a fusion is

  predicate Descending(out: Ranked) { forall i, j | 0 <= i < j < |out| :: out[i].score >= out[j].score }

  predicate DistinctUrls(out: Ranked) { forall i, j | 0 <= i < j < |out| :: out[i].url != out[j].url }

  /** Each URL of the union once, with its fused score and first title, best first. */
  ghost predicate IsFusion(lists: seq<Ranked>, out: Ranked) {
    && Descending(out)
    && DistinctUrls(out)
    && (forall i | 0 <= i < |out| ::
        out[i].score == Score(lists, out[i].url) && Some(out[i].title) == Title(lists, out[i].url))
    && (forall url :: InList(out, url) <==> Title(lists, url).Some?)
  }

  lemma {:induction false} FirstTitleIffInList(list: Ranked, url: string)
    ensures FirstTitle(list, url).Some? <==> InList(list, url)
  {
    if list != [] {
      var n := |list| - 1;
      FirstTitleIffInList(list[..n], url);
      if InList(list[..n], url) {
        var r :| 0 <= r < n && list[..n][r].url == url;
        assert list[r].url == url;
      }
      if InList(list, url) {
        var r :| 0 <= r < |list| && list[r].url == url;
        if r < n { assert list[..n][r].url == url; }
      }
    }
  }

  lemma {:induction false} TitleIffInLists(lists: seq<Ranked>, url: string)
    ensures Title(lists, url).Some? <==> InLists(lists, url)
  {
    if lists != [] {
      var n := |lists| - 1;
      TitleIffInLists(lists[..n], url);
      FirstTitleIffInList(lists[n], url);
      if InLists(lists[..n], url) {
        var l :| 0 <= l < n && InList(lists[..n][l], url);
        assert InList(lists[l], url);
      }
      if InLists(lists, url) {
        var l :| 0 <= l < |lists| && InList(lists[l], url);
        if l < n { assert InList(lists[..n][l], url); }
      }
    }
  }

  /** The title shown is the one at the URL's first place, lists in order. */
  lemma {:induction false} TitleIsFirst(lists: seq<Ranked>, url: string, l: nat, r: nat)
    requires l < |lists| && r < |lists[l]| && lists[l][r].url == url
    requires forall m, i | 0 <= m < l && 0 <= i < |lists[m]| :: lists[m][i].url != url
    requires forall i | 0 <= i < r :: lists[l][i].url != url
    ensures Title(lists, url) == Some(lists[l][r].title)
  {
    var n := |lists| - 1;
    if l < n {
      TitleIsFirst(lists[..n], url, l, r);
    } else {
      TitleIffInLists(lists[..n], url);
      FirstTitleIsFirst(lists[l], url, r);
    }
  }

  lemma {:induction false} FirstTitleIsFirst(list: Ranked, url: string, r: nat)
    requires r < |list| && list[r].url == url && forall i | 0 <= i < r :: list[i].url != url
    ensures FirstTitle(list, url) == Some(list[r].title)
  {
    var n := |list| - 1;
    if r < n {
      FirstTitleIsFirst(list[..n], url, r);
    } else {
      FirstTitleIffInList(list[..n], url);
    }
  }

  // ---------------------------------------------------------------- the algorithm

  datatype Fused = Fused(hit: Hit, score: real)

  /** The accumulator after some whole lists and a prefix of the next one. */
  ghost predicate Accumulated(scored: map<string, Fused>, lists: seq<Ranked>, part: Ranked) {
    forall url ::
      && (url in scored <==> Title(lists, url).Some? || FirstTitle(part, url).Some?)
      && (url in scored ==>
            && scored[url].hit.url == url
            && scored[url].score == Score(lists, url) + ListScore(part, url)
            && Some(scored[url].hit.title) ==
               if Title(lists, url).Some? then Title(lists, url) else FirstTitle(part, url))
      && (url !in scored ==> Score(lists, url) == 0.0 && ListScore(part, url) == 0.0)
  }

  function Scored1(scored: map<string, Fused>, h: Hit, rank: nat): map<string, Fused> {
    if h.url in scored then scored[h.url := scored[h.url].(score := scored[h.url].score + Weight(rank))]
    else scored[h.url := Fused(h, Weight(rank))]
  }

  lemma AccumulateOne(scored: map<string, Fused>, lists: seq<Ranked>, list: Ranked, rank: nat)
    requires rank < |list| && Accumulated(scored, lists, list[..rank])
    ensures Accumulated(Scored1(scored, list[rank], rank), lists, list[..rank + 1])
  {
    assert list[..rank + 1][..rank] == list[..rank];
  }

  lemma AccumulateList(scored: map<string, Fused>, lists: seq<Ranked>, l: nat)
    requires l < |lists| && Accumulated(scored, lists[..l], lists[l])
    ensures Accumulated(scored, lists[..l + 1], [])
  {
    assert lists[..l + 1][..l] == lists[..l];
  }

  method RrfFuse(lists: seq<Ranked>) returns (out: Ranked)
    ensures IsFusion(lists, out)
  {
    var scored: map<string, Fused> := map[];
    for l := 0 to |lists|
      invariant Accumulated(scored, lists[..l], [])
    {
      var list := lists[l];
      for rank := 0 to |list|
        invariant Accumulated(scored, lists[..l], list[..rank])
      {
        AccumulateOne(scored, lists[..l], list, rank);
        var h := list[rank];
        if h.url in scored {
          scored := scored[h.url := scored[h.url].(score := scored[h.url].score + Weight(rank))];
        } else {
          scored := scored[h.url := Fused(h, Weight(rank))];
        }
      }
      assert list[..|list|] == list;
      AccumulateList(scored, lists, l);
    }
    assert lists[..|lists|] == lists;
    out := SortByScore(scored);
    FusionFromMap(lists, scored, out);
  }

  lemma {:induction false} BestExists(scored: map<string, Fused>, keys: set<string>)
    requires keys <= scored.Keys && keys != {}
    ensures exists k :: k in keys && forall j | j in keys :: scored[j].score <= scored[k].score
    decreases |keys|
  {
    var k :| k in keys;
    if keys != {k} {
      BestExists(scored, keys - {k});
      var b :| b in keys - {k} && forall j | j in keys - {k} :: scored[j].score <= scored[b].score;
      var best := if scored[b].score <= scored[k].score then k else b;
      assert best in keys && forall j | j in keys :: scored[j].score <= scored[best].score;
    }
  }

  /** `sort.Slice` over the map's values: any descending order, ties in any order. */
  method SortByScore(scored: map<string, Fused>) returns (out: Ranked)
    requires forall k | k in scored :: scored[k].hit.url == k
    ensures Descending(out) && DistinctUrls(out)
    ensures forall i | 0 <= i < |out| ::
        out[i].url in scored && out[i] == scored[out[i].url].hit.(score := scored[out[i].url].score)
    ensures forall k | k in scored :: InList(out, k)
  {
    out := [];
    var rest := scored.Keys;
    while rest != {}
      invariant rest <= scored.Keys
      invariant Descending(out) && DistinctUrls(out)
      invariant forall i | 0 <= i < |out| :: out[i].url in scored.Keys - rest
      invariant forall i | 0 <= i < |out| :: out[i] == scored[out[i].url].hit.(score := scored[out[i].url].score)
      invariant forall i, k | 0 <= i < |out| && k in rest :: scored[k].score <= out[i].score
      invariant forall k | k in scored.Keys - rest :: InList(out, k)
    {
      BestExists(scored, rest);
      var k :| k in rest && forall j | j in rest :: scored[j].score <= scored[k].score;
      ghost var before := out;
      out := out + [scored[k].hit.(score := scored[k].score)];
      rest := rest - {k};
      forall j | j in scored.Keys - rest ensures InList(out, j) {
        if j == k {
          assert out[|before|].url == k;
        } else {
          assert InList(before, j);
          var i :| 0 <= i < |before| && before[i].url == j;
          assert out[i].url == j;
        }
      }
    }
  }

  lemma FusionFromMap(lists: seq<Ranked>, scored: map<string, Fused>, out: Ranked)
    requires Accumulated(scored, lists, [])
    requires Descending(out) && DistinctUrls(out)
    requires forall i | 0 <= i < |out| ::
        out[i].url in scored && out[i] == scored[out[i].url].hit.(score := scored[out[i].url].score)
    requires forall k | k in scored :: InList(out, k)
    ensures IsFusion(lists, out)
  {
  }

  // ---------------------------------------------------------------- list order does not matter

  lemma {:induction false} ScoreRemove(lists: seq<Ranked>, l: nat, url: string)
    requires l < |lists|
    ensures Score(lists, url) == Score(lists[..l] + lists[l + 1..], url) + ListScore(lists[l], url)
    decreases |lists|
  {
    var n := |lists| - 1;
    if l == n {
      assert lists[..l] + lists[l + 1..] == lists[..n];
    } else {
      ScoreRemove(lists[..n], l, url);
      var rest := lists[..l] + lists[l + 1..];
      assert rest[..|rest| - 1] == lists[..n][..l] + lists[..n][l + 1..];
    }
  }

  /** Scores do not change when the lists are permuted. */
  lemma {:induction false} ScoresIgnoreListOrder(a: seq<Ranked>, b: seq<Ranked>, url: string)
    requires multiset(a) == multiset(b)
    ensures Score(a, url) == Score(b, url)
    decreases |a|
  {
    if a == [] {
      assert |multiset(b)| == 0;
      assert b == [];
    } else {
      var n := |a| - 1;
      var l := MatchLast(a, b);
      var rest := Without(b, l);
      ScoresIgnoreListOrder(a[..n], rest, url);
      ScoreRemove(b, l, url);
    }
  }

  lemma InListsPermuted(a: seq<Ranked>, b: seq<Ranked>, url: string)
    requires multiset(a) == multiset(b) && InLists(a, url)
    ensures InLists(b, url)
  {
    var l :| 0 <= l < |a| && InList(a[l], url);
    assert a[l] in multiset(b);
    var m :| 0 <= m < |b| && b[m] == a[l];
  }

  function Urls(out: Ranked): (urls: set<string>)
    ensures forall url :: url in urls <==> InList(out, url)
  {
    set i | 0 <= i < |out| :: out[i].url
  }

  lemma {:induction false} UrlsSize(out: Ranked)
    requires DistinctUrls(out)
    ensures |Urls(out)| == |out|
  {
    if out != [] {
      var n := |out| - 1;
      UrlsSize(out[..n]);
      forall url ensures url in Urls(out) <==> url in Urls(out[..n]) + {out[n].url} {
        if InList(out, url) && url != out[n].url {
          var i :| 0 <= i < |out| && out[i].url == url;
          assert out[..n][i].url == url;
        }
        if InList(out[..n], url) {
          var i :| 0 <= i < n && out[..n][i].url == url;
          assert out[i].url == url;
        }
        assert out[n].url in Urls(out);
      }
      assert Urls(out) == Urls(out[..n]) + {out[n].url};
      assert !InList(out[..n], out[n].url);
    }
  }

  /** Two fusions of the same lists, in any arrival order and with ties broken in any way,
      list the same URLs and show the same score at every position. */
  lemma FusionsAgree(a: seq<Ranked>, b: seq<Ranked>, outA: Ranked, outB: Ranked)
    requires multiset(a) == multiset(b) && IsFusion(a, outA) && IsFusion(b, outB)
    ensures Urls(outA) == Urls(outB) && |outA| == |outB|
    ensures forall i | 0 <= i < |outA| :: outA[i].score == outB[i].score
  {
    SameUrls(a, b, outA, outB);
    UrlsSize(outA);
    UrlsSize(outB);
    forall i | 0 <= i < |outA| ensures outA[i].score == outB[i].score {
      NotAbove(a, b, outA, outB, i);
      NotAbove(b, a, outB, outA, i);
    }
  }

  lemma SameUrls(a: seq<Ranked>, b: seq<Ranked>, outA: Ranked, outB: Ranked)
    requires multiset(a) == multiset(b) && IsFusion(a, outA) && IsFusion(b, outB)
    ensures Urls(outA) == Urls(outB)
  {
    forall url ensures InList(outA, url) <==> InList(outB, url) {
      TitleIffInLists(a, url);
      TitleIffInLists(b, url);
      if InLists(a, url) { InListsPermuted(a, b, url); }
      if InLists(b, url) { InListsPermuted(b, a, url); }
    }
  }

  /** Were `a` ahead at rank `i`, all it lists so far would be among the first `i` of `b`. */
  lemma HigherInOther(outA: Ranked, outB: Ranked, i: nat, m: nat, score: real)
    requires Descending(outA) && Descending(outB) && m <= i < |outA| == |outB| && Urls(outA) == Urls(outB)
    requires outA[i].score > outB[i].score && outA[m].score == score
    requires forall n | 0 <= n < |outB| && outB[n].url == outA[m].url :: outB[n].score == score
    ensures outA[m].url in Urls(outB[..i])
  {
    var url := outA[m].url;
    assert outA[m].score >= outA[i].score;
    assert url in Urls(outA);
    var n :| 0 <= n < |outB| && outB[n].url == url;
    assert n < i;
    assert outB[..i][n].url == url;
  }

  lemma NotAbove(a: seq<Ranked>, b: seq<Ranked>, outA: Ranked, outB: Ranked, i: nat)
    requires multiset(a) == multiset(b) && IsFusion(a, outA) && IsFusion(b, outB)
    requires i < |outA| == |outB| && Urls(outA) == Urls(outB)
    ensures outA[i].score <= outB[i].score
  {
    if outA[i].score > outB[i].score {
      forall url | url in Urls(outA[..i + 1]) ensures url in Urls(outB[..i]) {
        var m :| 0 <= m < i + 1 && outA[..i + 1][m].url == url;
        ScoresIgnoreListOrder(a, b, url);
        HigherInOther(outA, outB, i, m, Score(b, url));
      }
      UrlsSize(outA[..i + 1]);
      UrlsSize(outB[..i]);
      SubsetSize(Urls(outA[..i + 1]), Urls(outB[..i]));
      assert false;
    }
  }

  // ---------------------------------------------------------------- conservation

  function Total(out: Ranked): real {
    if out == [] then 0.0 else Total(out[..|out| - 1]) + out[|out| - 1].score
  }

  function WeightUpto(n: nat): real { if n == 0 then 0.0 else WeightUpto(n - 1) + Weight(n - 1) }

  /** What the lists hand out: one weight per position. */
  function Supply(lists: seq<Ranked>): real {
    if lists == [] then 0.0 else Supply(lists[..|lists| - 1]) + WeightUpto(|lists[|lists| - 1]|)
  }

  function SumOver(urls: seq<string>, list: Ranked): real {
    if urls == [] then 0.0 else SumOver(urls[..|urls| - 1], list) + ListScore(list, urls[|urls| - 1])
  }

  function SumScores(urls: seq<string>, lists: seq<Ranked>): real {
    if urls == [] then 0.0 else SumScores(urls[..|urls| - 1], lists) + Score(lists, urls[|urls| - 1])
  }

  function Times(urls: seq<string>, url: string): nat {
    if urls == [] then 0 else Times(urls[..|urls| - 1], url) + if urls[|urls| - 1] == url then 1 else 0
  }

  lemma {:induction false} TimesOnce(urls: seq<string>, k: nat)
    requires k < |urls| && forall i, j | 0 <= i < j < |urls| :: urls[i] != urls[j]
    ensures Times(urls, urls[k]) == 1
  {
    var n := |urls| - 1;
    if k < n {
      TimesOnce(urls[..n], k);
    } else {
      TimesNone(urls[..n], urls[n]);
    }
  }

  lemma {:induction false} TimesNone(urls: seq<string>, url: string)
    requires url !in urls
    ensures Times(urls, url) == 0
  {
    if urls != [] { TimesNone(urls[..|urls| - 1], url); }
  }

  lemma {:induction false} SumOverGrows(urls: seq<string>, list: Ranked)
    requires list != []
    ensures SumOver(urls, list) ==
            SumOver(urls, list[..|list| - 1]) + Times(urls, list[|list| - 1].url) as real * Weight(|list| - 1)
  {
    if urls != [] { SumOverGrows(urls[..|urls| - 1], list); }
  }

  lemma {:induction false} SumOverEmpty(urls: seq<string>)
    ensures SumOver(urls, []) == 0.0 && SumScores(urls, []) == 0.0
  {
    if urls != [] { SumOverEmpty(urls[..|urls| - 1]); }
  }

  /** Over distinct URLs that include all of a list's, the list gives out all its weights. */
  lemma {:induction false} ListGivesAll(urls: seq<string>, list: Ranked)
    requires forall i, j | 0 <= i < j < |urls| :: urls[i] != urls[j]
    requires forall r | 0 <= r < |list| :: list[r].url in urls
    ensures SumOver(urls, list) == WeightUpto(|list|)
  {
    if list == [] {
      SumOverEmpty(urls);
    } else {
      var n := |list| - 1;
      ListGivesAll(urls, list[..n]);
      SumOverGrows(urls, list);
      var k :| 0 <= k < |urls| && urls[k] == list[n].url;
      TimesOnce(urls, k);
    }
  }

  lemma {:induction false} SumScoresGrows(urls: seq<string>, lists: seq<Ranked>)
    requires lists != []
    ensures SumScores(urls, lists) == SumScores(urls, lists[..|lists| - 1]) + SumOver(urls, lists[|lists| - 1])
  {
    if urls != [] { SumScoresGrows(urls[..|urls| - 1], lists); }
  }

  lemma {:induction false} ListsGiveAll(urls: seq<string>, lists: seq<Ranked>)
    requires forall i, j | 0 <= i < j < |urls| :: urls[i] != urls[j]
    requires forall l, r | 0 <= l < |lists| && 0 <= r < |lists[l]| :: lists[l][r].url in urls
    ensures SumScores(urls, lists) == Supply(lists)
  {
    if lists == [] {
      SumOverEmpty(urls);
    } else {
      var n := |lists| - 1;
      ListsGiveAll(urls, lists[..n]);
      SumScoresGrows(urls, lists);
      ListGivesAll(urls, lists[n]);
    }
  }

  function UrlSeq(out: Ranked): (urls: seq<string>)
    ensures |urls| == |out| && forall i | 0 <= i < |out| :: urls[i] == out[i].url
  {
    if out == [] then [] else UrlSeq(out[..|out| - 1]) + [out[|out| - 1].url]
  }

  lemma {:induction false} TotalIsSum(lists: seq<Ranked>, out: Ranked)
    requires forall i | 0 <= i < |out| :: out[i].score == Score(lists, out[i].url)
    ensures Total(out) == SumScores(UrlSeq(out), lists)
  {
    if out != [] {
      var n := |out| - 1;
      TotalIsSum(lists, out[..n]);
      assert UrlSeq(out)[..n] == UrlSeq(out[..n]);
    }
  }

  /** Fusion neither creates nor loses score. */
  lemma ScoreIsConserved(lists: seq<Ranked>, out: Ranked)
    requires IsFusion(lists, out)
    ensures Total(out) == Supply(lists)
  {
    TotalIsSum(lists, out);
    forall l, r | 0 <= l < |lists| && 0 <= r < |lists[l]| ensures lists[l][r].url in UrlSeq(out) {
      var url := lists[l][r].url;
      assert InList(lists[l], url) && InLists(lists, url);
      TitleIffInLists(lists, url);
      var i :| 0 <= i < |out| && out[i].url == url;
      assert UrlSeq(out)[i] == url;
    }
    ListsGiveAll(UrlSeq(out), lists);
  }

  // ---------------------------------------------------------------- dominance

  predicate Once(list: Ranked, url: string) {
    forall i, j | 0 <= i < j < |list| && list[i].url == url :: list[j].url != url
  }

  /** `a` stands above `b` somewhere in the list, if `b` is in it at all. */
  predicate Above(list: Ranked, a: string, b: string) {
    forall j | 0 <= j < |list| && list[j].url == b :: exists i :: 0 <= i < j && list[i].url == a
  }

  lemma PrefixInList(list: Ranked, n: nat, url: string)
    requires n <= |list|
    ensures InList(list[..n], url) ==> InList(list, url)
  {
    if InList(list[..n], url) {
      var r :| 0 <= r < n && list[..n][r].url == url;
      assert list[r].url == url;
    }
  }

  lemma {:induction false} ListScoreAbsent(list: Ranked, url: string)
    requires !InList(list, url)
    ensures ListScore(list, url) == 0.0
  {
    if list != [] {
      var n := |list| - 1;
      assert list[n].url != url;
      PrefixInList(list, n, url);
      ListScoreAbsent(list[..n], url);
    }
  }

  lemma {:induction false} ListScoreAtLeast(list: Ranked, url: string, i: nat)
    requires i < |list| && list[i].url == url
    ensures ListScore(list, url) >= Weight(i)
  {
    var n := |list| - 1;
    if i < n {
      ListScoreAtLeast(list[..n], url, i);
    } else {
      ListScorePositive(list[..n], url);
    }
  }

  lemma {:induction false} ListScorePositive(list: Ranked, url: string)
    ensures ListScore(list, url) >= 0.0
  {
    if list != [] { ListScorePositive(list[..|list| - 1], url); }
  }

  /** A URL that a list holds once gets one over 61 plus its rank from it. */
  lemma {:induction false} ListScoreOnce(list: Ranked, url: string, j: nat)
    requires j < |list| && list[j].url == url && Once(list, url)
    ensures ListScore(list, url) == Weight(j) == 1.0 / (j as real + 61.0)
  {
    var n := |list| - 1;
    if j < n {
      ListScoreOnce(list[..n], url, j);
    } else {
      assert !InList(list[..n], url);
      ListScoreAbsent(list[..n], url);
    }
  }

  lemma WeightFalls(i: nat, j: nat)
    requires i < j
    ensures Weight(i) > Weight(j)
  {
    var a, b := (FUSE_K + i + 1) as real, (FUSE_K + j + 1) as real;
    assert 1.0 / a - 1.0 / b == (b - a) / (a * b);
  }

  lemma {:induction false} AboveScoresMore(list: Ranked, a: string, b: string)
    requires Above(list, a, b) && Once(list, b)
    ensures ListScore(list, a) >= ListScore(list, b)
    ensures InList(list, b) ==> ListScore(list, a) > ListScore(list, b)
  {
    if InList(list, b) {
      var j :| 0 <= j < |list| && list[j].url == b;
      var i :| 0 <= i < j && list[i].url == a;
      ListScoreOnce(list, b, j);
      ListScoreAtLeast(list, a, i);
      WeightFalls(i, j);
    } else {
      ListScoreAbsent(list, b);
      ListScorePositive(list, a);
    }
  }

  /** A URL that stands above another in every list holding the other scores strictly
      more, when no list repeats the other. */
  lemma {:induction false} AboveEverywhereScoresMore(lists: seq<Ranked>, a: string, b: string)
    requires forall l | 0 <= l < |lists| :: Above(lists[l], a, b) && Once(lists[l], b)
    ensures Score(lists, a) >= Score(lists, b)
    ensures InLists(lists, b) ==> Score(lists, a) > Score(lists, b)
  {
    if lists != [] {
      var n := |lists| - 1;
      AboveEverywhereScoresMore(lists[..n], a, b);
      AboveScoresMore(lists[n], a, b);
      if InLists(lists, b) && !InList(lists[n], b) {
        var l :| 0 <= l < |lists| && InList(lists[l], b);
        assert InList(lists[..n][l], b);
      }
    }
  }

  /** A URL repeated in a list can overtake one that stands above it there. */
  lemma RepeatsCanOvertake(a: Hit, b: Hit)
    requires a.url != b.url
    ensures Above([a, b, b], a.url, b.url) && Score([[a, b, b]], a.url) < Score([[a, b, b]], b.url)
  {
    var list := [a, b, b];
    assert list[0].url == a.url;
    forall url ensures ListScore(list, url) == (if a.url == url then Weight(0) else 0.0)
                 + (if b.url == url then Weight(1) else 0.0) + (if b.url == url then Weight(2) else 0.0)
    {
      ListScoreSnoc([], a, url);
      ListScoreSnoc([a], b, url);
      ListScoreSnoc([a, b], b, url);
      assert [] + [a] == [a] && [a] + [b] == [a, b] && [a, b] + [b] == list;
    }
    OneListScore(list, a.url);
    OneListScore(list, b.url);
  }

  function Occurs(list: Ranked, url: string): nat {
    if list == [] then 0 else Occurs(list[..|list| - 1], url) + if list[|list| - 1].url == url then 1 else 0
  }

  lemma {:induction false} OccursInList(list: Ranked, url: string)
    ensures Occurs(list, url) == 0 <==> !InList(list, url)
  {
    if list != [] {
      var n := |list| - 1;
      OccursInList(list[..n], url);
      PrefixInList(list, n, url);
      assert list[n].url == url ==> InList(list, url);
      assert forall i | 0 <= i < n :: list[..n][i].url == list[i].url;
    }
  }

  lemma {:induction false} OccursAtMostOnce(list: Ranked, url: string)
    requires Occurs(list, url) <= 1
    ensures Once(list, url)
  {
    if list != [] {
      var n := |list| - 1;
      OccursAtMostOnce(list[..n], url);
      OccursInList(list[..n], url);
      assert forall i | 0 <= i < n :: list[..n][i].url == list[i].url;
      assert list[n].url == url ==> forall i | 0 <= i < n :: list[..n][i].url != url;
    }
  }

  /** `a` stands above `b` in every list holding `b`, `b` is in some list, and no list
      holds it more than `r` times. */
  ghost predicate Dominates(lists: seq<Ranked>, a: string, b: string, r: nat) {
    InLists(lists, b) && forall l | 0 <= l < |lists| :: Above(lists[l], a, b) && Occurs(lists[l], b) <= r
  }

  ghost predicate AboveAlwaysWins(r: nat) {
    forall lists: seq<Ranked>, a: string, b: string | Dominates(lists, a, b, r) :: Score(lists, a) > Score(lists, b)
  }

  /** Standing above wins for certain exactly when no list may repeat a URL. */
  lemma OnceIsTheExactLimit(r: nat)
    ensures AboveAlwaysWins(r) <==> r <= 1
  {
    if r <= 1 {
      forall lists: seq<Ranked>, a: string, b: string | Dominates(lists, a, b, r)
        ensures Score(lists, a) > Score(lists, b)
      {
        forall l | 0 <= l < |lists| ensures Above(lists[l], a, b) && Once(lists[l], b) {
          OccursAtMostOnce(lists[l], b);
        }
        AboveEverywhereScoresMore(lists, a, b);
      }
    } else {
      var a, b := Hit("a", "", 0.0), Hit("b", "", 0.0);
      RepeatsCanOvertake(a, b);
      var list := [a, b, b];
      assert [a][..0] == [] && [a, b][..1] == [a] && list[..2] == [a, b];
      assert Occurs([a], "b") == 0 && Occurs([a, b], "b") == 1 && Occurs(list, "b") == 2;
      assert InList(list, b.url) by { assert list[1].url == b.url; }
      assert Dominates([list], a.url, b.url, r);
    }
  }

  lemma ListScoreSnoc(list: Ranked, h: Hit, url: string)
    ensures ListScore(list + [h], url) == ListScore(list, url) + if h.url == url then Weight(|list|) else 0.0
  {
    assert (list + [h])[..|list|] == list;
  }

  lemma OneListScore(list: Ranked, url: string)
    ensures Score([list], url) == ListScore(list, url)
  {
    assert [list][..0] == [];
  }

  // ---------------------------------------------------------------- scatter and gather

  datatype PeerResult = Peer(hits: Ranked) | PeerError

  /** The lists a result adds: its own, or none after an error. */
  function Lists1(res: PeerResult): seq<Ranked> { if res.Peer? then [res.hits] else [] }

  function ListsOf(arrived: seq<PeerResult>): seq<Ranked> {
    if arrived == [] then [] else ListsOf(arrived[..|arrived| - 1]) + Lists1(arrived[|arrived| - 1])
  }

  function Count1(res: PeerResult): nat { if res.Peer? then |res.hits| else 0 }

  function Candidates(arrived: seq<PeerResult>): nat {
    if arrived == [] then 0 else Candidates(arrived[..|arrived| - 1]) + Count1(arrived[|arrived| - 1])
  }

  function Failures(arrived: seq<PeerResult>): nat {
    if arrived == [] then 0 else Failures(arrived[..|arrived| - 1]) + if arrived[|arrived| - 1].PeerError? then 1 else 0
  }

  /** Every peer either adds its list and its candidates or counts as one failure. */
  lemma {:induction false} GatherAccounts(arrived: seq<PeerResult>, res: PeerResult)
    ensures |ListsOf(arrived)| + Failures(arrived) == |arrived|
    ensures ListsOf(arrived + [res]) == ListsOf(arrived) + if res.Peer? then [res.hits] else []
    ensures Candidates(arrived + [res]) == Candidates(arrived) + if res.Peer? then |res.hits| else 0
    ensures Candidates([]) == 0
  {
    assert (arrived + [res])[..|arrived|] == arrived;
    if arrived != [] { GatherAccounts(arrived[..|arrived| - 1], res); }
  }

  /** The gather loop over results in arrival order; `cancelled` ends it with one more warning. */
  method Gather(arrived: seq<PeerResult>, cancelled: bool, k: nat) returns (hits: Ranked, warns: nat, total: nat)
    ensures exists fused :: IsFusion(ListsOf(arrived), fused) && hits == Take(fused, k)
    ensures warns == Failures(arrived) + if cancelled then 1 else 0
    ensures total == Candidates(arrived)
  {
    var lists: seq<Ranked> := [];
    warns, total := 0, 0;
    for i := 0 to |arrived|
      invariant lists == ListsOf(arrived[..i]) && warns == Failures(arrived[..i]) && total == Candidates(arrived[..i])
    {
      assert arrived[..i + 1][..i] == arrived[..i];
      match arrived[i] {
        case PeerError => warns := warns + 1;
        case Peer(list) =>
          total := total + |list|;
          lists := lists + [list];
      }
    }
    assert arrived[..|arrived|] == arrived;
    if cancelled {
      warns := warns + 1;
    }
    var fused := RrfFuse(lists);
    hits := if |fused| > k then fused[..k] else fused;
  }

  lemma {:induction false} ListsOfConcat(a: seq<PeerResult>, b: seq<PeerResult>)
    ensures ListsOf(a + b) == ListsOf(a) + ListsOf(b) && Candidates(a + b) == Candidates(a) + Candidates(b)
    decreases |b|
  {
    if b == [] {
      assert a + b == a;
    } else {
      var n := |b| - 1;
      assert (a + b)[..|a + b| - 1] == a + b[..n];
      ListsOfConcat(a, b[..n]);
    }
  }

  lemma ListsOfMiddle(a: seq<PeerResult>, x: PeerResult, b: seq<PeerResult>)
    ensures ListsOf(a + [x] + b) == ListsOf(a) + Lists1(x) + ListsOf(b)
    ensures Candidates(a + [x] + b) == Candidates(a) + Count1(x) + Candidates(b)
  {
    ListsOfConcat(a + [x], b);
    assert (a + [x])[..|a|] == a;
  }

  lemma MiddleMultiset<T>(a: seq<T>, x: seq<T>, b: seq<T>)
    ensures multiset(a + x + b) == multiset(a + b) + multiset(x)
  {
  }

  lemma ListsOfRemove(arrived: seq<PeerResult>, l: nat)
    requires l < |arrived|
    ensures multiset(ListsOf(arrived)) == multiset(ListsOf(Without(arrived, l))) + multiset(Lists1(arrived[l]))
    ensures Candidates(arrived) == Candidates(Without(arrived, l)) + Count1(arrived[l])
  {
    SplitAt(arrived, l);
    SplitLists(arrived[..l], arrived[l], arrived[l + 1..]);
  }

  lemma SplitLists(a: seq<PeerResult>, x: PeerResult, b: seq<PeerResult>)
    ensures multiset(ListsOf(a + [x] + b)) == multiset(ListsOf(a + b)) + multiset(Lists1(x))
    ensures Candidates(a + [x] + b) == Candidates(a + b) + Count1(x)
  {
    ListsOfMiddle(a, x, b);
    ListsOfConcat(a, b);
    MiddleMultiset(ListsOf(a), Lists1(x), ListsOf(b));
  }

  lemma {:induction false} ListsOfPermuted(a: seq<PeerResult>, b: seq<PeerResult>)
    requires multiset(a) == multiset(b)
    ensures multiset(ListsOf(a)) == multiset(ListsOf(b)) && Candidates(a) == Candidates(b)
    decreases |a|
  {
    if a == [] {
      assert |multiset(b)| == 0;
    } else {
      var n := |a| - 1;
      var l := MatchLast(a, b);
      ListsOfPermuted(a[..n], Without(b, l));
      assert Without(a, n) == a[..n];
      ListsOfRemove(a, n);
      ListsOfRemove(b, l);
    }
  }

  /** No other entry has the score at rank `i`. */
  predicate Untied(out: Ranked, i: nat)
    requires i < |out|
  {
    forall j | 0 <= j < |out| && out[j].score == out[i].score :: j == i
  }

  /** The order in which peers answer is invisible apart from ties and metadata: candidate
      count and scores by rank are the same, an untied rank shows the same URL, and a URL
      shown in one result only is tied with the first one cut. */
  lemma ArrivalOrderIsInvisible(a: seq<PeerResult>, b: seq<PeerResult>, fusedA: Ranked, fusedB: Ranked, k: nat)
    requires multiset(a) == multiset(b) && IsFusion(ListsOf(a), fusedA) && IsFusion(ListsOf(b), fusedB)
    ensures Candidates(a) == Candidates(b) && |fusedA| == |fusedB|
    ensures forall i | 0 <= i < |fusedA| :: fusedA[i].score == fusedB[i].score
    ensures forall i | 0 <= i < |fusedA| && Untied(fusedA, i) :: fusedA[i].url == fusedB[i].url
    ensures forall i | 0 <= i < |Take(fusedA, k)| && fusedA[i].url !in Urls(Take(fusedB, k)) ::
              k < |fusedA| && fusedA[i].score == fusedA[k].score
  {
    ListsOfPermuted(a, b);
    FusionsAgree(ListsOf(a), ListsOf(b), fusedA, fusedB);
    forall i | 0 <= i < |fusedA| ensures SamePlace(fusedA, fusedB, i) {
      ScoresIgnoreListOrder(ListsOf(a), ListsOf(b), fusedA[i].url);
      FindPlace(ListsOf(b), fusedA, fusedB, i);
    }
    forall i | 0 <= i < |fusedA| && Untied(fusedA, i) ensures fusedA[i].url == fusedB[i].url {
      assert SamePlace(fusedA, fusedB, i);
    }
    forall i | 0 <= i < |Take(fusedA, k)| && fusedA[i].url !in Urls(Take(fusedB, k))
      ensures k < |fusedA| && fusedA[i].score == fusedA[k].score
    {
      OnlyTiesAreCut(fusedA, fusedB, k, i);
    }
  }

  /** The URL at rank `i` of one result stands in the other, with the same score. */
  ghost predicate SamePlace(fusedA: Ranked, fusedB: Ranked, i: nat)
    requires i < |fusedA|
  {
    exists n :: 0 <= n < |fusedB| && fusedB[n].url == fusedA[i].url && fusedB[n].score == fusedA[i].score
  }

  lemma FindPlace(lists: seq<Ranked>, fusedA: Ranked, fusedB: Ranked, i: nat)
    requires i < |fusedA| && IsFusion(lists, fusedB) && Urls(fusedA) == Urls(fusedB)
    requires fusedA[i].score == Score(lists, fusedA[i].url)
    ensures SamePlace(fusedA, fusedB, i)
  {
    assert fusedA[i].url in Urls(fusedA);
    var n :| 0 <= n < |fusedB| && fusedB[n].url == fusedA[i].url;
    assert fusedB[n].score == fusedA[i].score;
  }

  lemma OnlyTiesAreCut(fusedA: Ranked, fusedB: Ranked, k: nat, i: nat)
    requires Descending(fusedA) && Descending(fusedB) && |fusedA| == |fusedB| && i < |Take(fusedA, k)|
    requires forall j | 0 <= j < |fusedA| :: fusedA[j].score == fusedB[j].score
    requires SamePlace(fusedA, fusedB, i) && fusedA[i].url !in Urls(Take(fusedB, k))
    ensures k < |fusedA| && fusedA[i].score == fusedA[k].score
  {
    var n :| 0 <= n < |fusedB| && fusedB[n].url == fusedA[i].url && fusedB[n].score == fusedA[i].score;
    assert forall m | 0 <= m < |Take(fusedB, k)| :: Take(fusedB, k)[m].url != fusedA[i].url;
    assert n >= k;
    assert i < k;
  }
}
