/** The multi-pass research loop: plan, then passes of retrieve, merge, materialise, reorder,
    promote, synthesise and self-evaluate, with one pool of sources that only grows. */
module Research {
  import opened Bytes
  import opened Collections
  import Fusion
  import Mmr
  import Reorder
  import Utf8

  type Hit = Fusion.Hit

  datatype Doc = Doc(url: string, title: string, text: bytes)

  /** A candidate source: its document, its bounded evidence text, its current score. */
  datatype Cand = Cand(doc: Doc, body: bytes, score: real)

  /** A source as shown to the client and cited as [id]. */
  datatype Source = Source(id: nat, url: string, title: string)

  datatype Verdict =
    | CallFailed
    | NotJson
    | Judged(sufficient: bool, refine: seq<string>)

  /** Everything outside the loop, by pass: planner, retrievers, store, filter, reranker,
      embedder and chat model. `None` is a failed call, or a feature not asked for. */
  datatype Env = Env(
    plan: Option<Option<seq<string>>>,
    retrieve: (nat, nat, string) -> Option<seq<Hit>>,
    lookup: (nat, string) -> Option<Doc>,
    allow: Doc -> bool,
    decay: Option<(nat, Doc) -> real>,
    rerank: Option<nat -> Option<seq<Option<int>>>>,
    diversify: Option<real>,
    queryVec: nat -> Option<Mmr.Vec>,
    docVec: (nat, string) -> Mmr.Vec,
    synth: nat -> Option<string>,
    eval: nat -> Verdict)

  datatype PassesParam = Absent | NotANumber | Number(n: int)

  datatype Request = Request(q: string, k: nat, passes: PassesParam, site: bool, rerankCandK: int)

  // ---------------------------------------------------------------- bounds

  const DEFAULT_PASSES := 3
  const HARD_CAP := 10

  function ResearchMaxPasses(p: PassesParam): (n: nat)
    ensures 1 <= n <= 10
    ensures p.Number? && 1 <= p.n <= 10 ==> n == p.n
    ensures p.Number? && p.n > 10 ==> n == 10
    ensures !(p.Number? && p.n >= 1) ==> n == 3
  {
    match p
    case Absent => DEFAULT_PASSES
    case NotANumber => DEFAULT_PASSES
    case Number(v) => if v < 1 then DEFAULT_PASSES else if v > HARD_CAP then HARD_CAP else v
  }

  function MaxPasses(req: Request): (n: nat)
    ensures 1 <= n <= 10 && (req.site ==> n == 1)
    ensures !req.site ==> n == ResearchMaxPasses(req.passes)
  {
    var n := ResearchMaxPasses(req.passes);
    if req.site && n > 1 then 1 else n
  }

  function KeepCap(env: Env, req: Request): (n: nat)
    ensures n >= req.k
  {
    if env.rerank.Some? && req.rerankCandK > req.k then req.rerankCandK else req.k
  }

  /** The planner's array, or the question itself when there is none. */
  function FirstSubs(env: Env, req: Request): seq<string>
    requires env.plan.Some?
  {
    var reply := env.plan.value;
    var subs := if reply.Some? && reply.value != [] then reply.value else [req.q];
    Take(subs, if req.site then 3 else 5)
  }

  /** `parseSelfEval` keeps three queries; the loop would keep five. */
  function NextSubs(v: Verdict): seq<string>
    requires v.Judged?
  {
    Take(Take(v.refine, 3), 5)
  }

  predicate Escalates(v: Verdict) { v.Judged? && !v.sufficient && v.refine != [] }

  // ---------------------------------------------------------------- merging the sub-queries

  function HitsOf(env: Env, pass: nat, subs: seq<string>, g: nat): seq<Hit>
    requires g < |subs|
  {
    var answer := env.retrieve(pass, g, subs[g]);
    if answer.Some? then answer.value else []
  }

  function HitSet(hits: seq<Hit>): set<Hit> { set h | h in hits }

  /** All hits the first `n` sub-queries brought back; a failed one brings none. */
  function OfferedUpto(env: Env, pass: nat, subs: seq<string>, n: nat): set<Hit>
    requires n <= |subs|
  {
    if n == 0 then {} else OfferedUpto(env, pass, subs, n - 1) + HitSet(HitsOf(env, pass, subs, n - 1))
  }

  function Offered(env: Env, pass: nat, subs: seq<string>): set<Hit> { OfferedUpto(env, pass, subs, |subs|) }

  /** What the sub-queries in `gs` brought back, in any order. */
  ghost predicate OfferedBy(env: Env, pass: nat, subs: seq<string>, gs: set<nat>, hits: set<Hit>) {
    && (forall g, h | g in gs && g < |subs| && h in HitsOf(env, pass, subs, g) :: h in hits)
    && (forall h | h in hits :: exists g :: g in gs && g < |subs| && h in HitsOf(env, pass, subs, g))
  }

  lemma {:induction false} OfferedUptoIs(env: Env, pass: nat, subs: seq<string>, n: nat)
    requires n <= |subs|
    ensures OfferedBy(env, pass, subs, All(n), OfferedUpto(env, pass, subs, n))
  {
    if n > 0 { OfferedUptoIs(env, pass, subs, n - 1); }
  }

  /** A hit is offered when some sub-query's retriever answered with it. */
  lemma OfferedMeans(env: Env, pass: nat, subs: seq<string>, h: Hit)
    ensures h in Offered(env, pass, subs) <==>
      exists g: nat :: g < |subs| && env.retrieve(pass, g, subs[g]).Some? && h in env.retrieve(pass, g, subs[g]).value
  {
    OfferedUptoIs(env, pass, subs, |subs|);
    if h in Offered(env, pass, subs) { var g :| g in All(|subs|) && g < |subs| && h in HitsOf(env, pass, subs, g); }
    if g: nat :| g < |subs| && env.retrieve(pass, g, subs[g]).Some? && h in env.retrieve(pass, g, subs[g]).value {
      assert g in All(|subs|) && h in HitsOf(env, pass, subs, g);
    }
  }

  lemma OfferedByAgree(env: Env, pass: nat, subs: seq<string>, gs: set<nat>, a: set<Hit>, b: set<Hit>)
    requires OfferedBy(env, pass, subs, gs, a) && OfferedBy(env, pass, subs, gs, b)
    ensures a == b
  {
  }

  function All(n: nat): (gs: set<nat>)
    ensures forall g: nat :: g in gs <==> g < n
  {
    if n == 0 then {} else All(n - 1) + {n - 1}
  }

  /** For each unseen URL offered, one of its hits with the greatest score. */
  ghost predicate BestOf(best: map<string, Fusion.Fused>, hits: set<Hit>, seen: set<string>) {
    && (forall h | h in hits :: h.url in seen || (h.url in best && h.score <= best[h.url].score))
    && (forall u | u in best ::
          u !in seen && best[u].hit in hits && best[u].hit.url == u && best[u].score == best[u].hit.score)
  }

  /** The merge does not depend on the order in which goroutines finish. */
  lemma MergesAgree(a: map<string, Fusion.Fused>, b: map<string, Fusion.Fused>, hits: set<Hit>, seen: set<string>)
    requires BestOf(a, hits, seen) && BestOf(b, hits, seen)
    ensures a.Keys == b.Keys && |a| == |b|
    ensures forall u | u in a :: a[u].score == b[u].score
  {
    forall u ensures u in a <==> u in b {
      if u in a { assert a[u].hit in hits; }
      if u in b { assert b[u].hit in hits; }
    }
    assert |a| == |a.Keys| && |b| == |b.Keys|;
    forall u | u in a ensures a[u].score == b[u].score {
      assert a[u].hit in hits && b[u].hit in hits;
    }
  }

  /** A merge holds each unseen URL that was offered, with the greatest score it was offered at. */
  lemma MergeMeans(best: map<string, Fusion.Fused>, hits: set<Hit>, seen: set<string>, u: string)
    requires BestOf(best, hits, seen)
    ensures best.Keys == set h | h in hits && h.url !in seen :: h.url
    ensures u in best ==>
      && (exists h :: h in hits && h.url == u && h.score == best[u].score)
      && forall h | h in hits && h.url == u :: h.score <= best[u].score
  {
    forall v ensures v in best <==> v in set h | h in hits && h.url !in seen :: h.url {
      if v in best { assert best[v].hit in hits; }
    }
  }

  /** One goroutine's turn under the lock. */
  method MergeHits(best0: map<string, Fusion.Fused>, hits: seq<Hit>, seen: set<string>, ghost got: set<Hit>)
    returns (best: map<string, Fusion.Fused>)
    requires BestOf(best0, got, seen)
    ensures BestOf(best, got + HitSet(hits), seen)
  {
    best := best0;
    for i := 0 to |hits|
      invariant BestOf(best, got + HitSet(hits[..i]), seen)
    {
      var h := hits[i];
      ghost var had := got + HitSet(hits[..i]);
      assert hits[..i + 1] == hits[..i] + [h];
      assert got + HitSet(hits[..i + 1]) == had + {h};
      if h.url !in seen && (h.url !in best || h.score > best[h.url].score) {
        best := best[h.url := Fusion.Fused(h, h.score)];
      }
    }
    assert hits[..|hits|] == hits;
  }

  /** The goroutines take the lock in any order. */
  method Merge(env: Env, pass: nat, subs: seq<string>, seen: set<string>) returns (best: map<string, Fusion.Fused>)
    ensures BestOf(best, Offered(env, pass, subs), seen)
  {
    best := map[];
    var pending := All(|subs|);
    ghost var done: set<nat>, got: set<Hit> := {}, {};
    while pending != {}
      invariant pending + done == All(|subs|)
      invariant OfferedBy(env, pass, subs, done, got)
      invariant BestOf(best, got, seen)
    {
      ghost var w: nat := SomeOf(pending);
      var g: nat :| g in pending;
      var hits := HitsOf(env, pass, subs, g);
      best := MergeHits(best, hits, seen, got);
      pending, done, got := pending - {g}, done + {g}, got + HitSet(hits);
    }
    assert done == All(|subs|);
    OfferedUptoIs(env, pass, subs, |subs|);
    OfferedByAgree(env, pass, subs, done, got, Offered(env, pass, subs));
  }

  // ---------------------------------------------------------------- the pooled hits

  /** The `cap` best of the merged hits, best first. */
  ghost predicate IsPool(pooled: Fusion.Ranked, best: map<string, Fusion.Fused>, cap: nat) {
    && Fusion.Descending(pooled) && Fusion.DistinctUrls(pooled)
    && (forall i | 0 <= i < |pooled| :: pooled[i].url in best && pooled[i].score == best[pooled[i].url].score)
    && |pooled| == (if |best| < cap then |best| else cap)
    && (forall u, i | u in best && 0 <= i < |pooled| && !Fusion.InList(pooled, u) :: best[u].score <= pooled[i].score)
  }

  method TopHits(best: map<string, Fusion.Fused>, cap: nat) returns (pooled: Fusion.Ranked)
    requires forall u | u in best :: best[u].hit.url == u
    ensures IsPool(pooled, best, cap)
  {
    var sorted := Fusion.SortByScore(best);
    Fusion.UrlsSize(sorted);
    assert Fusion.Urls(sorted) == best.Keys;
    pooled := if |sorted| > cap then sorted[..cap] else sorted;
    forall u, i | u in best && 0 <= i < |pooled| && !Fusion.InList(pooled, u) ensures best[u].score <= pooled[i].score {
      CutLosesToKept(sorted, |pooled|, u, i);
    }
  }

  lemma CutLosesToKept(sorted: Fusion.Ranked, n: nat, u: string, i: nat)
    requires Fusion.Descending(sorted) && i < n <= |sorted|
    requires Fusion.InList(sorted, u) && !Fusion.InList(sorted[..n], u)
    ensures exists j :: n <= j < |sorted| && sorted[j].url == u && sorted[j].score <= sorted[i].score
  {
    var j :| 0 <= j < |sorted| && sorted[j].url == u;
    assert forall m | 0 <= m < n :: sorted[..n][m].url != u;
  }

  // ---------------------------------------------------------------- materialising

  predicate Usable(env: Env, pass: nat, url: string) {
    env.lookup(pass, url).Some? && env.allow(env.lookup(pass, url).value)
  }

  function Kept(env: Env, pass: nat, pooled: seq<Hit>): seq<Hit> {
    if pooled == [] then []
    else
      var last := pooled[|pooled| - 1];
      Kept(env, pass, pooled[..|pooled| - 1]) + if Usable(env, pass, last.url) then [last] else []
  }

  /** Dropping hits that cannot be used keeps the order and loses nothing usable. */
  lemma {:induction false} KeptIsUsablePart(env: Env, pass: nat, pooled: seq<Hit>)
    requires Fusion.Descending(pooled) && Fusion.DistinctUrls(pooled)
    ensures var kept := Kept(env, pass, pooled);
      && |kept| <= |pooled|
      && Fusion.Descending(kept) && Fusion.DistinctUrls(kept)
      && (forall h :: h in kept <==>
            h in pooled && env.lookup(pass, h.url).Some? && env.allow(env.lookup(pass, h.url).value))
  {
    if pooled != [] {
      var n := |pooled| - 1;
      KeptIsUsablePart(env, pass, pooled[..n]);
      assert pooled == pooled[..n] + [pooled[n]];
      forall h | h in Kept(env, pass, pooled[..n]) ensures h.url != pooled[n].url && h.score >= pooled[n].score {
        assert h in pooled[..n];
      }
    }
  }

  predicate FromHit(env: Env, pass: nat, h: Hit, c: Cand) {
    Some(c.doc) == env.lookup(pass, h.url) && c.score == h.score
  }

  ghost predicate Materialised(env: Env, pass: nat, pooled: seq<Hit>, found: seq<Cand>) {
    var kept := Kept(env, pass, pooled);
    && |found| == |kept|
    && forall i | 0 <= i < |found| ::
        FromHit(env, pass, kept[i], found[i]) && Utf8.IsContext(found[i].doc.text, 1, found[i].body)
  }

  method Materialise(env: Env, pass: nat, pooled: seq<Hit>) returns (found: seq<Cand>)
    ensures Materialised(env, pass, pooled, found)
  {
    found := [];
    for i := 0 to |pooled|
      invariant Materialised(env, pass, pooled[..i], found)
    {
      assert pooled[..i + 1][..i] == pooled[..i];
      var doc := env.lookup(pass, pooled[i].url);
      if doc.Some? && env.allow(doc.value) {
        var body := Utf8.SynthesisContext(doc.value.text, 1);
        found := found + [Cand(doc.value, body, pooled[i].score)];
      }
    }
    assert pooled[..|pooled|] == pooled;
  }

  // ---------------------------------------------------------------- reordering

  function Scaled(f: (nat, Doc) -> real, pass: nat, c: Cand): Cand { c.(score := c.score * f(pass, c.doc)) }

  function ScaledAll(f: (nat, Doc) -> real, pass: nat, found: seq<Cand>): seq<Cand> {
    seq(|found|, i requires 0 <= i < |found| => Scaled(f, pass, found[i]))
  }

  function Scores(cands: seq<Cand>): seq<real> {
    seq(|cands|, i requires 0 <= i < |cands| => cands[i].score)
  }

  /** Time decay: scores scaled, then a stable descending sort. */
  ghost predicate IsDecayed(env: Env, pass: nat, found: seq<Cand>, out: seq<Cand>) {
    if env.decay.None? then out == found else SortsDown(ScaledAll(env.decay.value, pass, found), out)
  }

  ghost predicate SortsDown(cands: seq<Cand>, out: seq<Cand>) {
    exists order :: Reorder.StableOrder(Scores(cands), order) && Mmr.Reads(out, cands, order)
  }

  ghost predicate IsReranked(env: Env, pass: nat, cands: seq<Cand>, out: seq<Cand>) {
    if env.rerank.None? || |cands| <= 1 || env.rerank.value(pass).None? || env.rerank.value(pass).value == []
    then out == cands
    else Reorder.Reranked(env.rerank.value(pass).value, cands, out)
  }

  function VecsOf(env: Env, pass: nat, cands: seq<Cand>): (vs: seq<Mmr.Vec>)
    ensures |vs| == |cands|
  {
    seq(|cands|, i requires 0 <= i < |cands| => env.docVec(pass, cands[i].doc.url))
  }

  ghost predicate IsDiverse(env: Env, pass: nat, cands: seq<Cand>, out: seq<Cand>) {
    if env.diversify.None? || |cands| <= 1 || env.diversify.value >= 1.0 || env.queryVec(pass).None? then out == cands
    else
      var p := Mmr.Problem(env.queryVec(pass).value, VecsOf(env, pass, cands), env.diversify.value);
      Mmr.Diversified(p, cands, out)
  }

  method Decay(env: Env, pass: nat, found: seq<Cand>) returns (out: seq<Cand>)
    ensures IsDecayed(env, pass, found, out)
  {
    if env.decay.None? {
      return found;
    }
    var scaled: seq<Cand> := [];
    for i := 0 to |found|
      invariant |scaled| == i && forall j | 0 <= j < i :: scaled[j] == Scaled(env.decay.value, pass, found[j])
    {
      scaled := scaled + [Scaled(env.decay.value, pass, found[i])];
    }
    assert scaled == ScaledAll(env.decay.value, pass, found);
    out := SortDown(scaled);
  }

  method SortDown(cands: seq<Cand>) returns (out: seq<Cand>)
    ensures SortsDown(cands, out)
  {
    var order := Reorder.StableByScore(Scores(cands));
    out := [];
    for t := 0 to |order|
      invariant |out| == t && forall s | 0 <= s < t :: out[s] == cands[order[s]]
    {
      out := out + [cands[order[t]]];
    }
    assert Mmr.Reads(out, cands, order);
  }

  method RerankCands(env: Env, pass: nat, cands: seq<Cand>) returns (out: seq<Cand>)
    ensures IsReranked(env, pass, cands, out)
  {
    out := cands;
    if env.rerank.Some? && |cands| > 1 {
      var ids := env.rerank.value(pass);
      if ids.Some? && |ids.value| > 0 {
        out := Reorder.Rerank(cands, ids.value);
      }
    }
  }

  method Diversify(env: Env, pass: nat, cands: seq<Cand>) returns (out: seq<Cand>)
    ensures IsDiverse(env, pass, cands, out)
  {
    out := cands;
    if env.diversify.Some? && |cands| > 1 {
      var q := env.queryVec(pass);
      if env.diversify.value < 1.0 && q.Some? {
        out := Mmr.MmrSelect(q.value, cands, VecsOf(env, pass, cands), env.diversify.value);
      }
    }
  }

  /** The same documents with the same evidence, in some order. */
  ghost predicate Shuffled(a: seq<Cand>, b: seq<Cand>, order: seq<nat>) {
    && Mmr.Permutes(order, |a|) && |b| == |a|
    && forall s | 0 <= s < |b| :: b[s].doc == a[order[s]].doc && b[s].body == a[order[s]].body
  }

  function Upto(n: nat): (r: seq<nat>)
    ensures Mmr.Permutes(r, n) && forall i | 0 <= i < n :: r[i] == i
  {
    if n == 0 then [] else Upto(n - 1) + [n - 1]
  }

  function Compose(p: seq<nat>, q: seq<nat>): (r: seq<nat>)
    requires forall i | 0 <= i < |q| :: q[i] < |p|
    ensures |r| == |q| && forall i | 0 <= i < |q| :: r[i] == p[q[i]]
  {
    if q == [] then [] else Compose(p, q[..|q| - 1]) + [p[q[|q| - 1]]]
  }

  lemma ShuffleTwice(a: seq<Cand>, b: seq<Cand>, c: seq<Cand>, p: seq<nat>, q: seq<nat>)
    requires Shuffled(a, b, p) && Shuffled(b, c, q)
    ensures Shuffled(a, c, Compose(p, q))
  {
    var r := Compose(p, q);
    forall s: nat, t: nat | s < t < |r| ensures r[s] != r[t] {
      var x, y := q[s], q[t];
      assert x != y;
      if x < y { assert p[x] != p[y]; } else { assert p[y] != p[x]; }
    }
  }

  // ---------------------------------------------------------------- one pass

  /** What a pass held after each stage. */
  datatype Stages = Stages(best: map<string, Fusion.Fused>, pooled: Fusion.Ranked,
                           found: seq<Cand>, decayed: seq<Cand>, reranked: seq<Cand>, diverse: seq<Cand>)

  ghost predicate IsPass(env: Env, req: Request, pass: nat, subs: seq<string>, seen: set<string>, st: Stages,
      added: seq<Cand>) {
    && BestOf(st.best, Offered(env, pass, subs), seen)
    && IsPool(st.pooled, st.best, KeepCap(env, req))
    && Materialised(env, pass, st.pooled, st.found)
    && IsDecayed(env, pass, st.found, st.decayed)
    && IsReranked(env, pass, st.decayed, st.reranked)
    && IsDiverse(env, pass, st.reranked, st.diverse)
    && added == Take(st.diverse, req.k)
  }

  /** A pass over unseen documents promotes `added` and counts `contributed` URLs. */
  ghost predicate Promotes(env: Env, req: Request, pass: nat, subs: seq<string>, before: seq<Cand>, added: seq<Cand>,
      contributed: int) {
    exists st :: IsPass(env, req, pass, subs, UrlsOf(before), st, added) && contributed == |st.best|
  }

  method Pass(env: Env, req: Request, pass: nat, subs: seq<string>, seen: set<string>, ghost before: seq<Cand>)
    returns (added: seq<Cand>, contributed: nat)
    requires seen == UrlsOf(before)
    ensures Promotes(env, req, pass, subs, before, added, contributed)
  {
    var best := Merge(env, pass, subs, seen);
    contributed := |best|;
    var pooled := TopHits(best, KeepCap(env, req));
    var found := Materialise(env, pass, pooled);
    var decayed := Decay(env, pass, found);
    var reranked := RerankCands(env, pass, decayed);
    var diverse := Diversify(env, pass, reranked);
    added := if |diverse| > req.k then diverse[..req.k] else diverse;
    ghost var st := Stages(best, pooled, found, decayed, reranked, diverse);
    assert IsPass(env, req, pass, subs, UrlsOf(before), st, added);
  }

  lemma DecayShuffles(env: Env, pass: nat, found: seq<Cand>, out: seq<Cand>) returns (order: seq<nat>)
    requires IsDecayed(env, pass, found, out)
    ensures Shuffled(found, out, order)
  {
    if env.decay.None? {
      order := Upto(|found|);
    } else {
      var scaled := ScaledAll(env.decay.value, pass, found);
      var o :| Reorder.StableOrder(Scores(scaled), o) && Mmr.Reads(out, scaled, o);
      order := o;
    }
  }

  lemma RerankShuffles(env: Env, pass: nat, cands: seq<Cand>, out: seq<Cand>) returns (order: seq<nat>)
    requires IsReranked(env, pass, cands, out)
    ensures Shuffled(cands, out, order)
  {
    order := Upto(|cands|);
    if !(env.rerank.None? || |cands| <= 1 || env.rerank.value(pass).None? || env.rerank.value(pass).value == []) {
      var o :| Reorder.RerankOrder(env.rerank.value(pass).value, |cands|, o) && Mmr.Reads(out, cands, o);
      order := o;
    }
  }

  lemma DiversifyShuffles(env: Env, pass: nat, cands: seq<Cand>, out: seq<Cand>) returns (order: seq<nat>)
    requires IsDiverse(env, pass, cands, out)
    ensures Shuffled(cands, out, order)
  {
    order := Upto(|cands|);
    if !(env.diversify.None? || |cands| <= 1 || env.diversify.value >= 1.0 || env.queryVec(pass).None?) {
      var p := Mmr.Problem(env.queryVec(pass).value, VecsOf(env, pass, cands), env.diversify.value);
      var o :| Mmr.Greedy(p, o) && |o| == |p.vecs| && Mmr.Reads(out, cands, o);
      order := o;
    }
  }

  /** Whatever the reranker and the embedder answer, the stages only permute what was found. */
  lemma StagesOnlyPermute(env: Env, req: Request, pass: nat, subs: seq<string>, seen: set<string>, st: Stages,
      added: seq<Cand>)
    returns (order: seq<nat>)
    requires IsPass(env, req, pass, subs, seen, st, added)
    ensures Shuffled(st.found, st.diverse, order)
  {
    var a := DecayShuffles(env, pass, st.found, st.decayed);
    var b := RerankShuffles(env, pass, st.decayed, st.reranked);
    var c := DiversifyShuffles(env, pass, st.reranked, st.diverse);
    ShuffleTwice(st.found, st.decayed, st.reranked, a, b);
    ShuffleTwice(st.found, st.reranked, st.diverse, Compose(a, b), c);
    order := Compose(Compose(a, b), c);
  }

  /** A failed or empty reranker reply and a failed embedding leave the order as it was found. */
  lemma FailuresKeepTheOrder(env: Env, req: Request, pass: nat, subs: seq<string>, seen: set<string>, st: Stages,
      added: seq<Cand>)
    requires IsPass(env, req, pass, subs, seen, st, added) && env.decay.None?
    requires env.rerank.None? || env.rerank.value(pass).None? || env.rerank.value(pass).value == []
    requires env.diversify.None? || env.diversify.value >= 1.0 || env.queryVec(pass).None?
    ensures added <= st.found
  {
  }

  /** A reranker alone that answers with a full order decides what the pass takes. */
  lemma RerankerIsObeyed(env: Env, req: Request, pass: nat, subs: seq<string>, seen: set<string>, st: Stages,
      added: seq<Cand>, wanted: seq<nat>, s: nat)
    requires IsPass(env, req, pass, subs, seen, st, added) && env.decay.None? && env.diversify.None?
    requires env.rerank.Some? && env.rerank.value(pass).Some? && |env.rerank.value(pass).value| == |st.found|
    requires Mmr.Permutes(wanted, |st.found|)
    requires forall k | 0 <= k < |st.found| :: env.rerank.value(pass).value[k] == Some(wanted[k] as int)
    requires s < |added|
    ensures added[s] == st.found[wanted[s]]
  {
    if |st.found| > 1 {
      var ids := env.rerank.value(pass).value;
      var order :| Reorder.RerankOrder(ids, |st.found|, order) && Mmr.Reads(st.reranked, st.found, order);
      Reorder.FullOrderIsObeyed(ids, |st.found|, wanted, order);
    }
  }

  /** Diversification alone takes the candidates in a greedy order of their vectors. */
  lemma DiversifierIsObeyed(env: Env, req: Request, pass: nat, subs: seq<string>, seen: set<string>, st: Stages,
      added: seq<Cand>, vecs: seq<Mmr.Vec>) returns (order: seq<nat>)
    requires IsPass(env, req, pass, subs, seen, st, added) && env.decay.None? && env.rerank.None? && |st.found| > 1
    requires env.diversify.Some? && env.diversify.value < 1.0 && env.queryVec(pass).Some?
    requires |vecs| == |st.found|
    requires forall i | 0 <= i < |vecs| :: vecs[i] == env.docVec(pass, st.found[i].doc.url)
    ensures Mmr.Greedy(Mmr.Problem(env.queryVec(pass).value, vecs, env.diversify.value), order)
    ensures |order| == |vecs| && forall s | 0 <= s < |added| :: added[s] == st.found[order[s]]
  {
    assert vecs == VecsOf(env, pass, st.reranked);
    var p := Mmr.Problem(env.queryVec(pass).value, vecs, env.diversify.value);
    order :| Mmr.Greedy(p, order) && |order| == |p.vecs| && Mmr.Reads(st.diverse, st.reranked, order);
  }

  /** Time decay alone takes the candidates by decayed score, equal ones in the order found. */
  lemma DecayDecides(env: Env, req: Request, pass: nat, subs: seq<string>, seen: set<string>, st: Stages,
      added: seq<Cand>, scores: seq<real>) returns (order: seq<nat>)
    requires IsPass(env, req, pass, subs, seen, st, added) && env.decay.Some?
    requires env.rerank.None? && env.diversify.None? && |scores| == |st.found|
    requires forall i | 0 <= i < |scores| :: scores[i] == st.found[i].score * env.decay.value(pass, st.found[i].doc)
    ensures Mmr.Permutes(order, |scores|)
    ensures forall s, t | 0 <= s < t < |order| ::
      scores[order[s]] > scores[order[t]] || (scores[order[s]] == scores[order[t]] && order[s] < order[t])
    ensures forall s | 0 <= s < |added| :: added[s] == st.found[order[s]].(score := scores[order[s]])
  {
    var scaled := ScaledAll(env.decay.value, pass, st.found);
    assert Scores(scaled) == scores;
    order :| Reorder.StableOrder(scores, order) && Mmr.Reads(st.decayed, scaled, order);
    forall s, t | 0 <= s < t < |order|
      ensures scores[order[s]] > scores[order[t]] || (scores[order[s]] == scores[order[t]] && order[s] < order[t])
    {
      assert Reorder.Above(scores, order[s], order[t]);
    }
  }

  /** A looked-up document carries the URL it was asked for. */
  ghost predicate Faithful(env: Env) {
    forall pass: nat, url: string :: env.lookup(pass, url).Some? ==> env.lookup(pass, url).value.url == url
  }

  function UrlsOf(pool: seq<Cand>): (urls: set<string>)
    ensures forall i | 0 <= i < |pool| :: pool[i].doc.url in urls
    ensures forall u | u in urls :: exists i :: 0 <= i < |pool| && pool[i].doc.url == u
  {
    set i | 0 <= i < |pool| :: pool[i].doc.url
  }

  predicate DistinctDocs(pool: seq<Cand>) { forall i, j | 0 <= i < j < |pool| :: pool[i].doc.url != pool[j].doc.url }

  /** `url` was retrieved, not seen before, found in the store and let through the filter. */
  ghost predicate Earned(env: Env, pass: nat, subs: seq<string>, seen: set<string>, c: Cand) {
    && (exists h :: h in Offered(env, pass, subs) && h.url == c.doc.url)
    && c.doc.url !in seen
    && env.lookup(pass, c.doc.url) == Some(c.doc) && env.allow(c.doc)
    && Utf8.IsContext(c.doc.text, 1, c.body)
  }

  lemma FoundIsEarned(env: Env, req: Request, pass: nat, subs: seq<string>, seen: set<string>, st: Stages,
      added: seq<Cand>, i: nat)
    requires Faithful(env) && IsPass(env, req, pass, subs, seen, st, added) && i < |st.found|
    ensures Earned(env, pass, subs, seen, st.found[i])
  {
    KeptIsUsablePart(env, pass, st.pooled);
    var kept := Kept(env, pass, st.pooled);
    assert FromHit(env, pass, kept[i], st.found[i]);
    assert kept[i] in kept && kept[i] in st.pooled;
    assert st.best[kept[i].url].hit in Offered(env, pass, subs);
  }

  lemma FoundIsDistinct(env: Env, pass: nat, pooled: Fusion.Ranked, found: seq<Cand>)
    requires Faithful(env) && Fusion.Descending(pooled) && Fusion.DistinctUrls(pooled)
        && Materialised(env, pass, pooled, found)
    ensures DistinctDocs(found)
  {
    KeptIsUsablePart(env, pass, pooled);
    var kept := Kept(env, pass, pooled);
    forall i | 0 <= i < |found| ensures found[i].doc.url == kept[i].url {
      assert FromHit(env, pass, kept[i], found[i]);
    }
  }

  /** A pass adds at most `k` documents, all different, all earned in this pass. */
  lemma PassAddsNewDocuments(env: Env, req: Request, pass: nat, subs: seq<string>, seen: set<string>, st: Stages,
      added: seq<Cand>)
    requires Faithful(env) && IsPass(env, req, pass, subs, seen, st, added)
    ensures |added| == (if |st.found| < req.k then |st.found| else req.k) && DistinctDocs(added)
    ensures forall i | 0 <= i < |added| :: Earned(env, pass, subs, seen, added[i])
  {
    var order := StagesOnlyPermute(env, req, pass, subs, seen, st, added);
    FoundIsDistinct(env, pass, st.pooled, st.found);
    forall i | 0 <= i < |st.found| ensures Earned(env, pass, subs, seen, st.found[i]) {
      FoundIsEarned(env, req, pass, subs, seen, st, added, i);
    }
    forall i | 0 <= i < |added|
      ensures added[i].doc == st.found[order[i]].doc && Earned(env, pass, subs, seen, added[i])
    {
      assert Earned(env, pass, subs, seen, st.found[order[i]]);
    }
  }

  /** Found candidates carry their merged scores, best first, and include all usable pooled hits. */
  lemma FoundMirrorsPool(env: Env, pass: nat, best: map<string, Fusion.Fused>, pooled: Fusion.Ranked, cap: nat,
      found: seq<Cand>)
    requires Faithful(env) && IsPool(pooled, best, cap) && Materialised(env, pass, pooled, found)
    ensures forall i | 0 <= i < |found| :: found[i].doc.url in best && found[i].score == best[found[i].doc.url].score
    ensures forall i | 0 <= i < |found| :: Fusion.InList(pooled, found[i].doc.url)
    ensures forall i, j | 0 <= i < j < |found| :: found[i].score >= found[j].score
    ensures forall u | Fusion.InList(pooled, u) && Usable(env, pass, u) :: u in UrlsOf(found)
  {
    KeptIsUsablePart(env, pass, pooled);
    var kept := Kept(env, pass, pooled);
    forall i | 0 <= i < |found|
      ensures found[i].doc.url == kept[i].url && found[i].score == kept[i].score
      ensures Fusion.InList(pooled, kept[i].url) && kept[i].url in best && kept[i].score == best[kept[i].url].score
    {
      assert FromHit(env, pass, kept[i], found[i]);
      assert kept[i] in pooled;
    }
    forall u | Fusion.InList(pooled, u) && Usable(env, pass, u) ensures u in UrlsOf(found) {
      var j :| 0 <= j < |pooled| && pooled[j].url == u;
      assert pooled[j] in kept;
      var m :| 0 <= m < |kept| && kept[m] == pooled[j];
      assert found[m].doc.url == u;
    }
  }

  /** How many merged hits go on: all, or as many as asked for, or for a reranker as many as
      it may see. */
  lemma PoolSize(env: Env, req: Request, pass: nat, subs: seq<string>, seen: set<string>, st: Stages,
      added: seq<Cand>)
    requires IsPass(env, req, pass, subs, seen, st, added)
    ensures var cap := if env.rerank.None? || req.rerankCandK <= req.k then req.k else req.rerankCandK;
            |st.pooled| == if |st.best| < cap then |st.best| else cap
  {
  }

  predicate Plain(env: Env) { env.decay.None? && env.rerank.None? && env.diversify.None? }

  /** A URL in `best` that is not among the first `n` found scores no more than any of those. */
  lemma LeftOutScoresLess(best: map<string, Fusion.Fused>, pooled: Fusion.Ranked, cap: nat, found: seq<Cand>,
      u: string, n: nat, i: nat)
    requires IsPool(pooled, best, cap) && u in best && i < n <= |found|
    requires forall j | 0 <= j < |found| :: found[j].doc.url in best && found[j].score == best[found[j].doc.url].score
    requires forall a, b | 0 <= a < b < |found| :: found[a].score >= found[b].score
    requires Fusion.InList(pooled, found[i].doc.url)
    requires Fusion.InList(pooled, u) ==> u in UrlsOf(found)
    requires forall j | 0 <= j < n :: found[j].doc.url != u
    ensures best[u].score <= found[i].score
  {
    if Fusion.InList(pooled, u) {
      var m :| 0 <= m < |found| && found[m].doc.url == u;
      assert i < n <= m;
    } else {
      var at :| 0 <= at < |pooled| && pooled[at].url == found[i].doc.url;
      assert best[u].score <= pooled[at].score;
    }
  }

  /** With no reordering asked for, nothing usable that a pass leaves out beats anything it takes. */
  lemma PlainPassTakesTheBest(env: Env, req: Request, pass: nat, subs: seq<string>, seen: set<string>, st: Stages,
      added: seq<Cand>, h: Hit, i: nat)
    requires Faithful(env) && Plain(env) && IsPass(env, req, pass, subs, seen, st, added)
    requires h in Offered(env, pass, subs) && h.url !in seen && h.url !in UrlsOf(added) && i < |added|
    requires env.lookup(pass, h.url).Some? && env.allow(env.lookup(pass, h.url).value)
    ensures h.score <= added[i].score
  {
    assert added <= st.found;
    assert h.url in st.best && h.score <= st.best[h.url].score;
    LeftOutLosesToFound(env, pass, st.best, st.pooled, KeepCap(env, req), st.found, added, h.url, i);
  }

  lemma LeftOutLosesToFound(env: Env, pass: nat, best: map<string, Fusion.Fused>, pooled: Fusion.Ranked, cap: nat,
      found: seq<Cand>, added: seq<Cand>, u: string, i: nat)
    requires Faithful(env) && IsPool(pooled, best, cap) && Materialised(env, pass, pooled, found) && added <= found
        && i < |added|
    requires u in best && Usable(env, pass, u) && u !in UrlsOf(added)
    ensures best[u].score <= added[i].score
  {
    FoundMirrorsPool(env, pass, best, pooled, cap, found);
    LeftOutScoresLess(best, pooled, cap, found, u, |added|, i);
  }

  // ---------------------------------------------------------------- the loop

  /** What one pass published: its queries, the pool so far, the sources event, the evidence
      in the prompt, the running candidate total, and the answer (none when synthesis failed). */
  datatype Round = Round(subs: seq<string>, pool: seq<Cand>, sources: seq<Source>, prompt: seq<bytes>, total: nat,
      answer: Option<string>)

  datatype Stop =
    | PlanFailed | NothingFound | NothingNew | SynthFailed | LastPass
    | EvalFailed | EvalUnreadable | Sufficient | NoRefinement

  /** Sources numbered from one, in the order they were promoted. */
  method Stamp(pool: seq<Cand>) returns (sources: seq<Source>)
    ensures IsStamped(pool, sources)
  {
    sources := [];
    for i := 0 to |pool|
      invariant IsStamped(pool[..i], sources)
    {
      sources := sources + [Source(i + 1, pool[i].doc.url, pool[i].doc.title)];
    }
    assert pool[..|pool|] == pool;
  }

  predicate IsStamped(pool: seq<Cand>, sources: seq<Source>) {
    |sources| == |pool| && forall i | 0 <= i < |pool| :: sources[i] == Source(i + 1, pool[i].doc.url, pool[i].doc.title)
  }

  ghost predicate IsPrompt(pool: seq<Cand>, prompt: seq<bytes>) {
    |prompt| == |pool| && forall i | 0 <= i < |pool| :: Utf8.IsContext(pool[i].body, |pool|, prompt[i])
  }

  method Prompt(pool: seq<Cand>) returns (prompt: seq<bytes>)
    ensures IsPrompt(pool, prompt)
  {
    prompt := [];
    for i := 0 to |pool|
      invariant |prompt| == i && forall j | 0 <= j < i :: Utf8.IsContext(pool[j].body, |pool|, prompt[j])
    {
      var ex := Utf8.SynthesisContext(pool[i].body, |pool|);
      prompt := prompt + [ex];
    }
  }

  function PoolBefore(rounds: seq<Round>, i: nat): seq<Cand>
    requires i <= |rounds|
  {
    if i == 0 then [] else rounds[i - 1].pool
  }

  function TotalBefore(rounds: seq<Round>, i: nat): nat
    requires i <= |rounds|
  {
    if i == 0 then 0 else rounds[i - 1].total
  }

  /** The queries that drive pass `i + 1`. */
  function SubsOf(env: Env, req: Request, i: nat): seq<string>
    requires env.plan.Some? && (i > 0 ==> env.eval(i).Judged?)
  {
    if i == 0 then FirstSubs(env, req) else NextSubs(env.eval(i))
  }

  ghost predicate IsRound(env: Env, req: Request, pass: nat, before: seq<Cand>, total: nat, r: Round,
      added: seq<Cand>) {
    && Promotes(env, req, pass, r.subs, before, added, r.total - total)
    && added != []
    && r.pool == before + added
    && IsStamped(r.pool, r.sources) && IsPrompt(r.pool, r.prompt)
    && r.answer == env.synth(pass)
  }

  ghost predicate SomeRound(env: Env, req: Request, pass: nat, before: seq<Cand>, total: nat, r: Round) {
    exists added :: IsRound(env, req, pass, before, total, r, added)
  }

  ghost predicate RoundAt(env: Env, req: Request, rounds: seq<Round>, i: nat)
    requires i < |rounds| && env.plan.Some?
  {
    && (i > 0 ==> Escalates(env.eval(i)) && env.synth(i).Some?)
    && rounds[i].subs == SubsOf(env, req, i)
    && SomeRound(env, req, i + 1, PoolBefore(rounds, i), TotalBefore(rounds, i), rounds[i])
  }

  /** The rounds of a run, each explained by its pass, its predecessor and the self-evaluation. */
  ghost predicate IsRun(env: Env, req: Request, rounds: seq<Round>) {
    && |rounds| <= MaxPasses(req)
    && (rounds != [] ==> env.plan.Some?)
    && forall i | 0 <= i < |rounds| :: RoundAt(env, req, rounds, i)
  }

  ghost predicate FindsNothing(env: Env, req: Request, pass: nat, subs: seq<string>, before: seq<Cand>) {
    exists contributed :: Promotes(env, req, pass, subs, before, [], contributed)
  }

  /** Why the run ended after `rounds`. */
  ghost predicate StopsFor(env: Env, req: Request, rounds: seq<Round>, stop: Stop) {
    var n := |rounds|;
    match stop
    case PlanFailed => n == 0 && env.plan.None?
    case NothingFound => n == 0 && env.plan.Some? && FindsNothing(env, req, 1, FirstSubs(env, req), [])
    case NothingNew =>
      && 0 < n < MaxPasses(req) && env.plan.Some? && env.synth(n).Some? && Escalates(env.eval(n))
      && FindsNothing(env, req, n + 1, NextSubs(env.eval(n)), rounds[n - 1].pool)
    case SynthFailed => n > 0 && env.synth(n).None?
    case LastPass => n == MaxPasses(req) && env.synth(n).Some?
    case EvalFailed => 0 < n < MaxPasses(req) && env.synth(n).Some? && env.eval(n) == CallFailed
    case EvalUnreadable => 0 < n < MaxPasses(req) && env.synth(n).Some? && env.eval(n) == NotJson
    case Sufficient => 0 < n < MaxPasses(req) && env.synth(n).Some? && env.eval(n).Judged? && env.eval(n).sufficient
    case NoRefinement =>
      && 0 < n < MaxPasses(req) && env.synth(n).Some? && env.eval(n).Judged?
      && !env.eval(n).sufficient && env.eval(n).refine == []
  }

  /** Chat calls of a run: the plan, one synthesis a round, one self-evaluation between rounds
      and one more when the run stops after judging. */
  function ChatCalls(n: nat, stop: Stop): nat {
    1 + n + (if n == 0 then 0 else if stop.SynthFailed? || stop.LastPass? then n - 1 else n)
  }

  /** What the loop carries from pass to pass. */
  datatype Carry = Carry(rounds: seq<Round>, subs: seq<string>, seen: set<string>, calls: nat,
      lastAnswer: Option<string>)

  /** Ready for pass `i + 1`. */
  ghost predicate Ready(env: Env, req: Request, i: nat, c: Carry) {
    && env.plan.Some? && |c.rounds| == i < MaxPasses(req) && IsRun(env, req, c.rounds)
    && (i > 0 ==> Escalates(env.eval(i)) && env.synth(i).Some?)
    && c.subs == SubsOf(env, req, i)
    && c.seen == UrlsOf(PoolBefore(c.rounds, i))
    && c.calls == 1 + 2 * i
    && c.lastAnswer == if i == 0 then None else env.synth(i)
  }

  /** A finished run: its rounds, why it stopped, what it cost, and the last whole answer. */
  ghost predicate Finished(env: Env, req: Request, c: Carry, stop: Stop) {
    && IsRun(env, req, c.rounds)
    && StopsFor(env, req, c.rounds, stop)
    && c.calls == ChatCalls(|c.rounds|, stop)
    && c.lastAnswer == Delivered(env, |c.rounds|, stop)
  }

  /** The draft in hand: a failed synthesis leaves the one before it. */
  function Delivered(env: Env, n: nat, stop: Stop): Option<string> {
    if n == 0 || (stop.SynthFailed? && n == 1) then None
    else if stop.SynthFailed? then env.synth(n - 1)
    else env.synth(n)
  }

  method StreamResearch(env: Env, req: Request) returns (c: Carry, stop: Stop)
    ensures Finished(env, req, c, stop)
  {
    c := Carry([], [], {}, 1, None);
    if env.plan.None? {
      return c, PlanFailed;
    }
    c := c.(subs := FirstSubs(env, req));
    var maxPasses := MaxPasses(req);
    for pass := 1 to maxPasses + 1
      invariant Ready(env, req, pass - 1, c)
    {
      var halt;
      c, halt := OnePass(env, req, pass - 1, c);
      if halt.Some? {
        return c, halt.value;
      }
    }
    assert false;
  }

  /** The loop's body, for pass `i + 1`. */
  method OnePass(env: Env, req: Request, i: nat, c0: Carry) returns (c: Carry, halt: Option<Stop>)
    requires Ready(env, req, i, c0)
    ensures Stepped(env, req, i, c, halt)
  {
    var r, seen := Attempt(env, req, i, c0);
    c, halt := Decide(env, req, i, c0, r, seen);
  }

  method Attempt(env: Env, req: Request, i: nat, c0: Carry) returns (r: Option<Round>, seen: set<string>)
    requires i == |c0.rounds| && c0.seen == UrlsOf(PoolBefore(c0.rounds, i))
    ensures Attempted(env, req, i, c0, r, seen)
  {
    r, seen := RetrieveAndSynthesise(env, req, i + 1, c0.subs, PoolBefore(c0.rounds, i), c0.seen,
        TotalBefore(c0.rounds, i));
  }

  ghost predicate Attempted(env: Env, req: Request, i: nat, c0: Carry, r: Option<Round>, seen: set<string>)
    requires i == |c0.rounds|
  {
    PassResult(env, req, i + 1, c0.subs, PoolBefore(c0.rounds, i), TotalBefore(c0.rounds, i), r, seen)
  }

  method Decide(env: Env, req: Request, i: nat, c0: Carry, r: Option<Round>, seen: set<string>)
      returns (c: Carry, halt: Option<Stop>)
    requires Ready(env, req, i, c0) && Attempted(env, req, i, c0, r, seen)
    ensures Stepped(env, req, i, c, halt)
  {
    match r
    case None => c, halt := GiveUp(env, req, i, c0);
    case Some(round) => c, halt := RecordAndJudge(env, req, i, c0, round, seen);
  }

  /** A pass that promotes nothing ends the run, the first with nothing at all. */
  function EmptyStop(i: nat): Stop { if i == 0 then NothingFound else NothingNew }

  method GiveUp(env: Env, req: Request, i: nat, c0: Carry) returns (c: Carry, halt: Option<Stop>)
    requires Ready(env, req, i, c0)
    requires FindsNothing(env, req, i + 1, c0.subs, PoolBefore(c0.rounds, i))
    ensures Stepped(env, req, i, c, halt)
  {
    GivenUp(env, req, i, c0);
    c, halt := c0, Some(EmptyStop(i));
  }

  lemma GivenUp(env: Env, req: Request, i: nat, c: Carry)
    requires Ready(env, req, i, c)
    requires FindsNothing(env, req, i + 1, c.subs, PoolBefore(c.rounds, i))
    ensures StopsFor(env, req, c.rounds, EmptyStop(i))
    ensures c.calls == ChatCalls(|c.rounds|, EmptyStop(i))
    ensures c.lastAnswer == Delivered(env, |c.rounds|, EmptyStop(i))
  {
    if i == 0 {
      assert c.subs == FirstSubs(env, req);
    } else {
      assert c.subs == NextSubs(env.eval(i));
    }
  }

  method RecordAndJudge(env: Env, req: Request, i: nat, c0: Carry, r: Round, seen: set<string>)
      returns (c: Carry, halt: Option<Stop>)
    requires Ready(env, req, i, c0)
    requires SomeRound(env, req, i + 1, PoolBefore(c0.rounds, i), TotalBefore(c0.rounds, i), r)
    requires r.subs == c0.subs && seen == UrlsOf(r.pool) && r.answer == env.synth(i + 1)
    ensures Stepped(env, req, i, c, halt)
  {
    c := Record(env, req, i, c0, r, seen);
    c, halt := Judge(env, req, i + 1, c);
  }

  ghost predicate Stepped(env: Env, req: Request, i: nat, c: Carry, halt: Option<Stop>) {
    match halt
    case None => Ready(env, req, i + 1, c)
    case Some(stop) => Finished(env, req, c, stop)
  }

  method Record(env: Env, req: Request, i: nat, c0: Carry, r: Round, seen: set<string>) returns (c: Carry)
    requires Ready(env, req, i, c0)
    requires SomeRound(env, req, i + 1, PoolBefore(c0.rounds, i), TotalBefore(c0.rounds, i), r)
    requires r.subs == c0.subs && seen == UrlsOf(r.pool) && r.answer == env.synth(i + 1)
    ensures Drafted(env, req, i + 1, c)
  {
    RunExtends(env, req, i, c0.rounds, r);
    c := c0.(rounds := c0.rounds + [r], seen := seen, calls := c0.calls + 1);
  }

  /** Pass `n` has synthesised and not yet been judged. */
  ghost predicate Drafted(env: Env, req: Request, n: nat, c: Carry) {
    && env.plan.Some? && 0 < n == |c.rounds| && IsRun(env, req, c.rounds)
    && c.rounds[n - 1].answer == env.synth(n)
    && c.seen == UrlsOf(c.rounds[n - 1].pool)
    && c.calls == 2 * n && c.lastAnswer == (if n == 1 then None else env.synth(n - 1))
  }

  /** After synthesis of pass `n`: stop, or take the refined queries. */
  method Judge(env: Env, req: Request, n: nat, c0: Carry) returns (c: Carry, halt: Option<Stop>)
    requires Drafted(env, req, n, c0)
    ensures halt.None? ==> Ready(env, req, n, c)
    ensures halt.Some? ==> Finished(env, req, c, halt.value)
  {
    c := c0;
    var full := c.rounds[n - 1].answer;
    if full.None? {
      return c, Some(SynthFailed);
    }
    c := c.(lastAnswer := full);
    if n == MaxPasses(req) {
      return c, Some(LastPass);
    }
    var ev := env.eval(n);
    c := c.(calls := c.calls + 1);
    match ev
    case CallFailed => return c, Some(EvalFailed);
    case NotJson => return c, Some(EvalUnreadable);
    case Judged(sufficient, refine) =>
      if sufficient {
        return c, Some(Sufficient);
      }
      if |refine| == 0 {
        return c, Some(NoRefinement);
      }
      return c.(subs := NextSubs(ev)), None;
  }

  ghost predicate PassResult(env: Env, req: Request, pass: nat, subs: seq<string>, before: seq<Cand>, total: nat,
      r: Option<Round>, seen: set<string>) {
    match r
    case None => FindsNothing(env, req, pass, subs, before)
    case Some(round) =>
      && SomeRound(env, req, pass, before, total, round) && round.subs == subs
      && seen == UrlsOf(round.pool) && round.answer == env.synth(pass)
  }

  /** One pass up to its draft answer; none when it promotes nothing. */
  method RetrieveAndSynthesise(env: Env, req: Request, pass: nat, subs: seq<string>, before: seq<Cand>,
      seen0: set<string>, total: nat)
    returns (r: Option<Round>, seen: set<string>)
    requires seen0 == UrlsOf(before)
    ensures PassResult(env, req, pass, subs, before, total, r, seen)
  {
    var added, contributed := Pass(env, req, pass, subs, seen0, before);
    r, seen := None, seen0;
    if |added| > 0 {
      var round;
      round, seen := Publish(env, req, pass, subs, before, seen0, added, total, contributed);
      r := Some(round);
    }
  }

  /** The pass promotes, announces its sources, and synthesises. */
  method Publish(env: Env, req: Request, pass: nat, subs: seq<string>, before: seq<Cand>, seen0: set<string>,
      added: seq<Cand>, total: nat, contributed: nat)
    returns (r: Round, seen: set<string>)
    requires seen0 == UrlsOf(before) && added != [] && Promotes(env, req, pass, subs, before, added, contributed)
    ensures SomeRound(env, req, pass, before, total, r)
    ensures r.subs == subs && seen == UrlsOf(r.pool) && r.answer == env.synth(pass)
  {
    var pool;
    pool, seen := Promote(before, seen0, added);
    var sources := Stamp(pool);
    var prompt := Prompt(pool);
    r := Round(subs, pool, sources, prompt, total + contributed, env.synth(pass));
    assert IsRound(env, req, pass, before, total, r, added);
  }

  method Promote(pool0: seq<Cand>, seen0: set<string>, added: seq<Cand>) returns (pool: seq<Cand>, seen: set<string>)
    requires seen0 == UrlsOf(pool0)
    ensures pool == pool0 + added && seen == UrlsOf(pool)
  {
    pool, seen := pool0, seen0;
    for i := 0 to |added|
      invariant pool == pool0 + added[..i] && seen == UrlsOf(pool)
    {
      ghost var was := pool;
      seen, pool := seen + {added[i].doc.url}, pool + [added[i]];
      assert pool == was + [added[i]];
      assert UrlsOf(pool) == UrlsOf(was) + {added[i].doc.url} by { UrlsOfSnoc(was, added[i]); }
    }
  }

  lemma UrlsOfSnoc(pool: seq<Cand>, c: Cand)
    ensures UrlsOf(pool + [c]) == UrlsOf(pool) + {c.doc.url}
  {
    forall u ensures u in UrlsOf(pool + [c]) <==> u in UrlsOf(pool) + {c.doc.url} {
      if u in UrlsOf(pool) {
        var i :| 0 <= i < |pool| && pool[i].doc.url == u;
        assert (pool + [c])[i].doc.url == u;
      }
      assert (pool + [c])[|pool|] == c;
    }
  }

  lemma RunExtends(env: Env, req: Request, n: nat, rounds: seq<Round>, r: Round)
    requires IsRun(env, req, rounds) && |rounds| == n < MaxPasses(req) && env.plan.Some?
    requires n > 0 ==> Escalates(env.eval(n)) && env.synth(n).Some?
    requires r.subs == SubsOf(env, req, n)
    requires SomeRound(env, req, n + 1, PoolBefore(rounds, n), TotalBefore(rounds, n), r)
    ensures IsRun(env, req, rounds + [r])
  {
    forall i | 0 <= i < n + 1 ensures RoundAt(env, req, rounds + [r], i) {
      if i < n { OldRoundStays(env, req, rounds, r, i); } else { NewRoundFits(env, req, rounds, r); }
    }
  }

  lemma OldRoundStays(env: Env, req: Request, rounds: seq<Round>, r: Round, i: nat)
    requires env.plan.Some? && i < |rounds| && RoundAt(env, req, rounds, i)
    ensures RoundAt(env, req, rounds + [r], i)
  {
    assert PoolBefore(rounds + [r], i) == PoolBefore(rounds, i)
        && TotalBefore(rounds + [r], i) == TotalBefore(rounds, i);
  }

  lemma NewRoundFits(env: Env, req: Request, rounds: seq<Round>, r: Round)
    requires env.plan.Some? && (|rounds| > 0 ==> Escalates(env.eval(|rounds|)) && env.synth(|rounds|).Some?)
    requires r.subs == SubsOf(env, req, |rounds|)
    requires SomeRound(env, req, |rounds| + 1, PoolBefore(rounds, |rounds|), TotalBefore(rounds, |rounds|), r)
    ensures RoundAt(env, req, rounds + [r], |rounds|)
  {
    var n := |rounds|;
    assert PoolBefore(rounds + [r], n) == PoolBefore(rounds, n)
        && TotalBefore(rounds + [r], n) == TotalBefore(rounds, n);
  }

  // ---------------------------------------------------------------- what every run keeps

  lemma RoundGrows(env: Env, req: Request, rounds: seq<Round>, i: nat)
    requires IsRun(env, req, rounds) && i < |rounds|
    ensures PoolBefore(rounds, i) < rounds[i].pool
    ensures IsStamped(rounds[i].pool, rounds[i].sources) && IsPrompt(rounds[i].pool, rounds[i].prompt)
  {
    assert RoundAt(env, req, rounds, i);
  }

  /** Every round numbers its whole pool from one. */
  lemma SourcesCiteThePool(env: Env, req: Request, rounds: seq<Round>, i: nat, m: nat)
    requires IsRun(env, req, rounds) && i < |rounds|
    ensures |rounds[i].sources| == |rounds[i].pool|
    ensures m < |rounds[i].pool| ==>
      rounds[i].sources[m] == Source(m + 1, rounds[i].pool[m].doc.url, rounds[i].pool[m].doc.title)
  {
    RoundGrows(env, req, rounds, i);
  }

  lemma {:induction false} PoolsGrow(env: Env, req: Request, rounds: seq<Round>, i: nat, j: nat)
    requires IsRun(env, req, rounds) && i < j < |rounds|
    ensures rounds[i].pool < rounds[j].pool
    decreases j
  {
    RoundGrows(env, req, rounds, j);
    if i < j - 1 { PoolsGrow(env, req, rounds, i, j - 1); }
  }

  lemma StampsGrow(a: seq<Cand>, b: seq<Cand>, x: seq<Source>, y: seq<Source>)
    requires a < b && IsStamped(a, x) && IsStamped(b, y)
    ensures x < y
  {
    forall m | 0 <= m < |x| ensures x[m] == y[m] { assert a[m] == b[m]; }
  }

  /** Source [i] keeps naming the same document in every later round, and each round adds some. */
  lemma CitationsStayPut(env: Env, req: Request, rounds: seq<Round>, i: nat, j: nat)
    requires IsRun(env, req, rounds) && i < j < |rounds|
    ensures rounds[i].sources < rounds[j].sources
    ensures rounds[i].pool < rounds[j].pool
  {
    PoolsGrow(env, req, rounds, i, j);
    RoundGrows(env, req, rounds, i);
    RoundGrows(env, req, rounds, j);
    StampsGrow(rounds[i].pool, rounds[j].pool, rounds[i].sources, rounds[j].sources);
  }

  ghost predicate EarnedBy(env: Env, rounds: seq<Round>, p: nat, c: Cand)
    requires p < |rounds|
  {
    Earned(env, p + 1, rounds[p].subs, UrlsOf(PoolBefore(rounds, p)), c)
  }

  /** `pool` is `before` with one to `k` new documents, all different and earned in `pass`. */
  ghost predicate Adds(env: Env, req: Request, pass: nat, subs: seq<string>, before: seq<Cand>, pool: seq<Cand>,
      added: seq<Cand>) {
    && pool == before + added
    && 0 < |added| <= req.k && DistinctDocs(added)
    && forall m | 0 <= m < |added| :: Earned(env, pass, subs, UrlsOf(before), added[m])
  }

  lemma SomeRoundAdds(env: Env, req: Request, pass: nat, before: seq<Cand>, total: nat, r: Round)
      returns (added: seq<Cand>)
    requires Faithful(env) && SomeRound(env, req, pass, before, total, r)
    ensures Adds(env, req, pass, r.subs, before, r.pool, added)
  {
    var new' :| IsRound(env, req, pass, before, total, r, new');
    var st :| IsPass(env, req, pass, r.subs, UrlsOf(before), st, new');
    PassAddsNewDocuments(env, req, pass, r.subs, UrlsOf(before), st, new');
    added := new';
  }

  lemma RoundAdds(env: Env, req: Request, rounds: seq<Round>, i: nat) returns (added: seq<Cand>)
    requires Faithful(env) && IsRun(env, req, rounds) && i < |rounds|
    ensures Adds(env, req, i + 1, rounds[i].subs, PoolBefore(rounds, i), rounds[i].pool, added)
  {
    RoundIsSome(env, req, rounds, i);
    added := SomeRoundAdds(env, req, i + 1, PoolBefore(rounds, i), TotalBefore(rounds, i), rounds[i]);
  }

  lemma RoundIsSome(env: Env, req: Request, rounds: seq<Round>, i: nat)
    requires IsRun(env, req, rounds) && i < |rounds|
    ensures SomeRound(env, req, i + 1, PoolBefore(rounds, i), TotalBefore(rounds, i), rounds[i])
  {
    assert RoundAt(env, req, rounds, i);
  }

  /** The pool holds different documents, at most `k` for each pass so far. */
  lemma {:induction false} PoolIsDistinctAndBounded(env: Env, req: Request, rounds: seq<Round>, i: nat)
    requires Faithful(env) && IsRun(env, req, rounds) && i < |rounds|
    ensures DistinctDocs(rounds[i].pool) && 0 < |rounds[i].pool| <= req.k * (i + 1)
  {
    var added := RoundAdds(env, req, rounds, i);
    var before := PoolBefore(rounds, i);
    if i > 0 { PoolIsDistinctAndBounded(env, req, rounds, i - 1); }
    forall m | 0 <= m < |added| ensures added[m].doc.url !in UrlsOf(before) {
      assert Earned(env, i + 1, rounds[i].subs, UrlsOf(before), added[m]);
    }
    assert |before| <= req.k * i;
    assert req.k * (i + 1) == req.k * i + req.k;
  }

  /** Every pooled document was retrieved, unseen and let through in some pass so far. */
  lemma {:induction false} EverySourceWasEarned(env: Env, req: Request, rounds: seq<Round>, i: nat, m: nat)
      returns (p: nat)
    requires Faithful(env) && IsRun(env, req, rounds) && i < |rounds| && m < |rounds[i].pool|
    ensures p <= i && EarnedBy(env, rounds, p, rounds[i].pool[m])
    decreases i
  {
    var added := RoundAdds(env, req, rounds, i);
    var before := PoolBefore(rounds, i);
    if m < |before| {
      p := EverySourceWasEarned(env, req, rounds, i - 1, m);
    } else {
      p := i;
      assert rounds[i].pool[m] == added[m - |before|];
      assert Earned(env, i + 1, rounds[i].subs, UrlsOf(before), added[m - |before|]);
    }
  }

  /** Every prompt fits: 30,000 bytes of evidence, 10,000 a source, valid UTF-8 from valid text. */
  lemma {:induction false} PromptsFitTheBudget(env: Env, req: Request, rounds: seq<Round>, i: nat)
    requires Faithful(env) && IsRun(env, req, rounds) && i < |rounds|
    ensures Utf8.TotalLength(rounds[i].prompt) <= 30000
    ensures |rounds[i].prompt| == |rounds[i].pool| && forall s | 0 <= s < |rounds[i].prompt| ::
              |rounds[i].prompt[s]| <= 10000
                  && (Utf8.Valid(rounds[i].pool[s].doc.text) ==> Utf8.Valid(rounds[i].prompt[s]))
  {
    RoundGrows(env, req, rounds, i);
    var pool := rounds[i].pool;
    Utf8.ContextsFitTheBudget(Bodies(pool), rounds[i].prompt);
    forall s | 0 <= s < |pool| ensures Utf8.Valid(pool[s].doc.text) ==> Utf8.Valid(pool[s].body) {
      var p := EverySourceWasEarned(env, req, rounds, i, s);
    }
  }

  function Bodies(pool: seq<Cand>): (r: seq<bytes>)
    ensures |r| == |pool| && forall i | 0 <= i < |pool| :: r[i] == pool[i].body
  {
    if pool == [] then [] else Bodies(pool[..|pool| - 1]) + [pool[|pool| - 1].body]
  }

  /** A source whose text fits its share is quoted whole. */
  lemma ShortTextsAreQuotedWhole(env: Env, req: Request, rounds: seq<Round>, i: nat, m: nat)
    requires Faithful(env) && IsRun(env, req, rounds) && i < |rounds| && m < |rounds[i].pool|
    requires |rounds[i].pool[m].doc.text| <= 10000
    requires |rounds[i].pool[m].doc.text| * |rounds[i].pool| <= 30000
    ensures m < |rounds[i].prompt| && rounds[i].prompt[m] == rounds[i].pool[m].doc.text
  {
    RoundGrows(env, req, rounds, i);
    var c, n := rounds[i].pool[m], |rounds[i].pool|;
    var p := EverySourceWasEarned(env, req, rounds, i, m);
    Utf8.LimitIsLargestShare(1, |c.doc.text|);
    Utf8.LimitIsLargestShare(n, |c.doc.text|);
    assert c.body == c.doc.text;
    assert Utf8.IsContext(c.body, n, rounds[i].prompt[m]);
  }

  /** What the client has at the end is the last answer that was whole, if any was. */
  lemma DeliveredIsLastAnswer(env: Env, req: Request, rounds: seq<Round>, stop: Stop)
    requires IsRun(env, req, rounds) && StopsFor(env, req, rounds, stop)
    ensures Delivered(env, |rounds|, stop) == None <==> forall i | 0 <= i < |rounds| :: rounds[i].answer == None
    ensures forall i | 0 <= i < |rounds| && rounds[i].answer.Some?
              && (forall j | i < j < |rounds| :: rounds[j].answer == None) ::
              Delivered(env, |rounds|, stop) == rounds[i].answer
  {
    var n := |rounds|;
    forall i | 0 <= i < n ensures rounds[i].answer == env.synth(i + 1) && (i + 1 < n ==> rounds[i].answer.Some?) {
      RoundAnswers(env, req, rounds, i);
    }
    assert n > 0 ==> rounds[n - 1].answer == env.synth(n);
    assert n > 1 ==> rounds[n - 2].answer == env.synth(n - 1) && rounds[n - 2].answer.Some?;
    forall i | 0 <= i < n && rounds[i].answer.Some? && (forall j | i < j < n :: rounds[j].answer == None)
      ensures Delivered(env, n, stop) == rounds[i].answer
    {
      assert i + 1 < n ==> rounds[i + 1].answer == None && i + 2 == n;
    }
  }

  /** Only the last round can lack its answer. */
  lemma RoundAnswers(env: Env, req: Request, rounds: seq<Round>, i: nat)
    requires IsRun(env, req, rounds) && i < |rounds|
    ensures rounds[i].answer == env.synth(i + 1) && (i + 1 < |rounds| ==> rounds[i].answer.Some?)
  {
    assert RoundAt(env, req, rounds, i);
    if i + 1 < |rounds| { assert RoundAt(env, req, rounds, i + 1); }
  }

  /** The reason to stop is determined, and a run asked to go on before its last pass stops
      only when the next pass finds nothing new. */
  lemma StopIsDetermined(env: Env, req: Request, rounds: seq<Round>, a: Stop, b: Stop)
    requires StopsFor(env, req, rounds, a) && StopsFor(env, req, rounds, b)
    ensures a == b
    ensures var n := |rounds|;
      (0 < n < MaxPasses(req) && env.synth(n).Some? && env.eval(n).Judged?
       && !env.eval(n).sufficient && env.eval(n).refine != []) ==> a == NothingNew
  {
  }

  /** The URLs that a pass is offered and has not seen. */
  function NewUrls(env: Env, pass: nat, subs: seq<string>, seen: set<string>): set<string> {
    set h | h in Offered(env, pass, subs) && h.url !in seen :: h.url
  }

  /** The candidates counted are the new URLs that each pass was offered. */
  lemma TotalsCountNewUrls(env: Env, req: Request, rounds: seq<Round>, i: nat)
    requires IsRun(env, req, rounds) && i < |rounds|
    ensures rounds[i].total
        == TotalBefore(rounds, i) + |NewUrls(env, i + 1, rounds[i].subs, UrlsOf(PoolBefore(rounds, i)))|
  {
    RoundIsSome(env, req, rounds, i);
    PassCountsNewUrls(env, req, i + 1, PoolBefore(rounds, i), TotalBefore(rounds, i), rounds[i]);
  }

  lemma PassCountsNewUrls(env: Env, req: Request, pass: nat, before: seq<Cand>, total: nat, r: Round)
    requires SomeRound(env, req, pass, before, total, r)
    ensures r.total == total + |NewUrls(env, pass, r.subs, UrlsOf(before))|
  {
    var added :| IsRound(env, req, pass, before, total, r, added);
    var st :| IsPass(env, req, pass, r.subs, UrlsOf(before), st, added) && r.total - total == |st.best|;
    MergeMeans(st.best, Offered(env, pass, r.subs), UrlsOf(before), "");
    assert |st.best| == |st.best.Keys|;
  }

  /** A run costs at most two chat calls a pass, twenty in all. */
  lemma ChatCallsAreBounded(env: Env, req: Request, rounds: seq<Round>, stop: Stop)
    requires IsRun(env, req, rounds) && StopsFor(env, req, rounds, stop)
    ensures ChatCalls(|rounds|, stop) <= 2 * MaxPasses(req) <= 20
    ensures req.site ==> ChatCalls(|rounds|, stop) <= 2
    ensures ChatCalls(|rounds|, stop) ==
      if |rounds| == 0 then 1 else 2 * |rounds| + if stop.SynthFailed? || stop.LastPass? then 0 else 1
  {
  }

  /** The first pass runs the first three or five queries of the plan, or the question itself
      when the planner gave none; later passes run the first three the self-evaluation asked for. */
  lemma QueriesComeFromTheModel(env: Env, req: Request, rounds: seq<Round>, i: nat)
    requires IsRun(env, req, rounds) && i < |rounds|
    ensures env.plan.Some?
    ensures i == 0 && (env.plan.value == None || env.plan.value.value == []) ==> rounds[i].subs == [req.q]
    ensures i == 0 && env.plan.value.Some? && env.plan.value.value != [] ==>
      FirstOf(rounds[i].subs, env.plan.value.value, if req.site then 3 else 5)
    ensures i > 0 ==>
      && env.eval(i).Judged? && !env.eval(i).sufficient && env.eval(i).refine != []
      && FirstOf(rounds[i].subs, env.eval(i).refine, 3)
  {
    assert RoundAt(env, req, rounds, i);
  }

  /** `part` is the first `n` of `whole`, or all of it. */
  predicate FirstOf(part: seq<string>, whole: seq<string>, n: nat) {
    part <= whole && |part| == if |whole| < n then |whole| else n
  }
}
