/** The two passes of the duplicate census: count every key, then attribute every member
    of a duplicate group after the first to its host and keep a few samples. */
module DupCensus {
  import opened Bytes
  import opened Collections

  type Hash = nat

  /** One stored document: its URL, the hash of its normalised key when it parses, its host. */
  datatype Doc = Doc(url: string, key: Option<Hash>, host: string)

  const MAX_SAMPLES := 20
  const MAX_URLS := 3

  datatype Group = Group(count: nat, urls: seq<string>)

  datatype Dups = Dups(groups: nat, docsInGroups: nat, removable: int,
                       hostRemovable: map<string, nat>, samples: seq<Group>)

  /** The documents a sweep with `limit` visits; zero or less means all. */
  function Visited(docs: seq<Doc>, limit: int): (seen: seq<Doc>)
    ensures seen <= docs && (limit <= 0 || |docs| <= limit ==> seen == docs)
    ensures 0 < limit <= |docs| ==> |seen| == limit
  {
    if 0 < limit < |docs| then docs[..limit] else docs
  }

  // ---------------------------------------------------------------- plain counting

  function Count(docs: seq<Doc>, h: Hash): nat {
    if docs == [] then 0 else Count(docs[..|docs| - 1], h) + Bit(docs[|docs| - 1].key == Some(h))
  }

  /** The documents that hold `h`. */
  function Holders(docs: seq<Doc>, h: Hash): set<int> { set i | 0 <= i < |docs| && docs[i].key == Some(h) }

  lemma {:induction false} CountIsSize(docs: seq<Doc>, h: Hash)
    ensures Count(docs, h) == |Holders(docs, h)|
  {
    if docs == [] {
      assert Holders(docs, h) == {};
    } else {
      var n := |docs| - 1;
      CountIsSize(docs[..n], h);
      assert Holders(docs, h) == Holders(docs[..n], h) + if docs[n].key == Some(h) then {n} else {};
    }
  }

  function Unparseable(docs: seq<Doc>): nat {
    if docs == [] then 0 else Unparseable(docs[..|docs| - 1]) + Bit(docs[|docs| - 1].key == None)
  }

  function At<K>(m: map<K, nat>, k: K): nat { if k in m then m[k] else 0 }

  ghost predicate Counts(counts: map<Hash, nat>, docs: seq<Doc>) {
    forall h: Hash :: At(counts, h) == Count(docs, h) && (h in counts ==> counts[h] > 0)
  }

  /** Lines 160-169. */
  method CountPass(docs: seq<Doc>, limit: int) returns (counts: map<Hash, nat>, unparseable: nat)
    ensures Counts(counts, Visited(docs, limit))
    ensures unparseable == Unparseable(Visited(docs, limit))
  {
    counts, unparseable := map[], 0;
    var n := 0;
    while n < |docs|
      invariant n <= |docs| && (limit > 0 ==> n < limit || n == 0)
      invariant Counts(counts, docs[..n]) && unparseable == Unparseable(docs[..n])
    {
      assert docs[..n + 1][..n] == docs[..n];
      var d := docs[n];
      n := n + 1;
      match d.key {
        case Some(h) => counts := counts[h := At(counts, h) + 1];
        case None => unparseable := unparseable + 1;
      }
      if limit > 0 && n >= limit {
        assert docs[..n] == Visited(docs, limit);
        return;
      }
    }
    assert docs[..n] == docs;
  }

  // ---------------------------------------------------------------- sums over maps

  ghost function Sum<K>(m: map<K, nat>, keys: set<K>): nat
    requires keys <= m.Keys
  {
    if keys == {} then 0
    else
      var k :| k in keys;
      m[k] + Sum(m, keys - {k})
  }

  lemma {:induction false} SumRemove<K>(m: map<K, nat>, keys: set<K>, x: K)
    requires keys <= m.Keys && x in keys
    ensures Sum(m, keys) == m[x] + Sum(m, keys - {x})
    decreases |keys|
  {
    var k :| k in keys && Sum(m, keys) == m[k] + Sum(m, keys - {k});
    if k != x {
      SumRemove(m, keys - {k}, x);
      SumRemove(m, keys - {x}, k);
      assert keys - {k} - {x} == keys - {x} - {k};
    }
  }

  lemma {:induction false} SumSame<K>(m: map<K, nat>, w: map<K, nat>, keys: set<K>)
    requires keys <= m.Keys && keys <= w.Keys && forall k | k in keys :: m[k] == w[k]
    ensures Sum(m, keys) == Sum(w, keys)
    decreases |keys|
  {
    if keys != {} {
      var k :| k in keys;
      SumRemove(m, keys, k);
      SumRemove(w, keys, k);
      SumSame(m, w, keys - {k});
    }
  }

  lemma SumBump<K>(m: map<K, nat>, k: K)
    ensures var w := m[k := At(m, k) + 1]; Sum(w, w.Keys) == Sum(m, m.Keys) + 1
  {
    var w := m[k := At(m, k) + 1];
    assert w.Keys == m.Keys + {k};
    SumRemove(w, m.Keys + {k}, k);
    assert m.Keys + {k} - {k} == m.Keys - {k};
    SumSame(m, w, m.Keys - {k});
    if k in m { SumRemove(m, m.Keys, k); } else { assert m.Keys - {k} == m.Keys; }
  }

  // ---------------------------------------------------------------- groups

  function Duplicated(counts: map<Hash, nat>): set<Hash> { set h | h in counts && counts[h] > 1 }

  /** A group is a key that two documents share. */
  lemma PairsAreGroups(docs: seq<Doc>, counts: map<Hash, nat>, h: Hash)
    requires Counts(counts, docs)
    ensures h in Duplicated(counts) <==> exists i, j :: 0 <= i < j < |docs| && docs[i].key == docs[j].key == Some(h)
  {
    CountIsSize(docs, h);
    assert At(counts, h) == Count(docs, h);
    var held := Holders(docs, h);
    if |held| > 1 {
      var i: int := SomeOf(held);
      assert |held - {i}| == |held| - 1;
      var j: int := SomeOf(held - {i});
      assert docs[i].key == docs[j].key == Some(h) && (i < j || j < i);
    }
    if i, j :| 0 <= i < j < |docs| && docs[i].key == docs[j].key == Some(h) {
      SubsetSize({i, j}, held);
    }
  }

  /** Documents whose key is in `keys`. */
  function Members(docs: seq<Doc>, keys: set<Hash>): nat {
    if docs == [] then 0
    else Members(docs[..|docs| - 1], keys) + Bit(docs[|docs| - 1].key.Some? && docs[|docs| - 1].key.value in keys)
  }

  lemma {:induction false} MembersRemove(docs: seq<Doc>, keys: set<Hash>, h: Hash)
    requires h in keys
    ensures Members(docs, keys) == Count(docs, h) + Members(docs, keys - {h})
  {
    if docs != [] { MembersRemove(docs[..|docs| - 1], keys, h); }
  }

  lemma {:induction false} MembersNone(docs: seq<Doc>)
    ensures Members(docs, {}) == 0
  {
    if docs != [] { MembersNone(docs[..|docs| - 1]); }
  }

  /** The counts of a set of groups add up to the documents in them. */
  lemma {:induction false} CountsAddUp(docs: seq<Doc>, counts: map<Hash, nat>, keys: set<Hash>)
    requires Counts(counts, docs) && keys <= counts.Keys
    ensures Sum(counts, keys) == Members(docs, keys)
    decreases |keys|
  {
    if keys == {} {
      MembersNone(docs);
    } else {
      var h: Hash := SomeOf(keys);
      SumRemove(counts, keys, h);
      CountsAddUp(docs, counts, keys - {h});
      MembersRemove(docs, keys, h);
    }
  }

  /** No document is lost: each is counted under its key, or as unparseable. */
  lemma EveryDocumentCounts(docs: seq<Doc>, counts: map<Hash, nat>)
    requires Counts(counts, docs)
    ensures Sum(counts, counts.Keys) + Unparseable(docs) == |docs|
  {
    CountsAddUp(docs, counts, counts.Keys);
    forall i | 0 <= i < |docs| && docs[i].key.Some? ensures docs[i].key.value in counts {
      CountIsSize(docs, docs[i].key.value);
      assert i in Holders(docs, docs[i].key.value) && At(counts, docs[i].key.value) == Count(docs, docs[i].key.value);
    }
    MembersAndOthers(docs, counts.Keys);
  }

  lemma {:induction false} MembersAndOthers(docs: seq<Doc>, keys: set<Hash>)
    requires forall i | 0 <= i < |docs| && docs[i].key.Some? :: docs[i].key.value in keys
    ensures Members(docs, keys) + Unparseable(docs) == |docs|
  {
    if docs != [] { MembersAndOthers(docs[..|docs| - 1], keys); }
  }

  /** Members of groups after the first of each, per host and in all. */
  function Repeat(before: seq<Doc>, d: Doc, keys: set<Hash>): bool {
    d.key.Some? && d.key.value in keys && Count(before, d.key.value) > 0
  }

  function Repeats(docs: seq<Doc>, keys: set<Hash>): nat {
    if docs == [] then 0
    else Repeats(docs[..|docs| - 1], keys) + Bit(Repeat(docs[..|docs| - 1], docs[|docs| - 1], keys))
  }

  function HostRepeats(docs: seq<Doc>, keys: set<Hash>, host: string): nat {
    if docs == [] then 0
    else HostRepeats(docs[..|docs| - 1], keys, host)
         + Bit(Repeat(docs[..|docs| - 1], docs[|docs| - 1], keys) && docs[|docs| - 1].host == host)
  }

  /** The places at which a host holds a key of `keys` that an earlier document held. */
  function RepeatsAt(docs: seq<Doc>, keys: set<Hash>, host: string): set<int> {
    set i | 0 <= i < |docs| && docs[i].host == host && docs[i].key.Some? && docs[i].key.value in keys
      && exists j :: 0 <= j < i && docs[j].key == docs[i].key
  }

  lemma {:induction false} HostRepeatsAreSize(docs: seq<Doc>, keys: set<Hash>, host: string)
    ensures HostRepeats(docs, keys, host) == |RepeatsAt(docs, keys, host)|
  {
    if docs == [] {
      assert RepeatsAt(docs, keys, host) == {};
    } else {
      HostRepeatsAreSize(docs[..|docs| - 1], keys, host);
      LastRepeat(docs, keys, host);
    }
  }

  lemma LastRepeat(docs: seq<Doc>, keys: set<Hash>, host: string)
    requires docs != []
    ensures var n := |docs| - 1;
      RepeatsAt(docs, keys, host) == RepeatsAt(docs[..n], keys, host)
        + if Repeat(docs[..n], docs[n], keys) && docs[n].host == host then {n} else {}
  {
    var n := |docs| - 1;
    RepeatIs(docs, keys, n);
    forall i | 0 <= i < n ensures i in RepeatsAt(docs, keys, host) <==> i in RepeatsAt(docs[..n], keys, host) {
      EarlierRepeat(docs, keys, host, n, i);
    }
  }

  lemma EarlierRepeat(docs: seq<Doc>, keys: set<Hash>, host: string, n: nat, i: nat)
    requires i < n <= |docs|
    ensures i in RepeatsAt(docs, keys, host) <==> i in RepeatsAt(docs[..n], keys, host)
  {
    assert forall j | 0 <= j <= i :: docs[..n][j] == docs[j];
  }

  lemma RepeatIs(docs: seq<Doc>, keys: set<Hash>, n: nat)
    requires n < |docs|
    ensures Repeat(docs[..n], docs[n], keys) <==>
      docs[n].key.Some? && docs[n].key.value in keys && exists j :: 0 <= j < n && docs[j].key == docs[n].key
  {
    if docs[n].key.Some? {
      var h := docs[n].key.value;
      CountIsSize(docs[..n], h);
      if Holders(docs[..n], h) != {} { var j: int := SomeOf(Holders(docs[..n], h)); assert docs[j].key == Some(h); }
      if j :| 0 <= j < n && docs[j].key == docs[n].key { assert j in Holders(docs[..n], h); }
    }
  }

  /** The groups that have appeared. */
  function Started(docs: seq<Doc>, keys: set<Hash>): set<Hash> { set h | h in keys && Count(docs, h) > 0 }

  /** Every group gives up exactly one document, its first. */
  lemma {:induction false} AllButTheFirst(docs: seq<Doc>, keys: set<Hash>)
    ensures Repeats(docs, keys) + |Started(docs, keys)| == Members(docs, keys)
  {
    if docs == [] {
      assert Started(docs, keys) == {};
    } else {
      var n := |docs| - 1;
      AllButTheFirst(docs[..n], keys);
      var start := Started(docs[..n], keys);
      if docs[n].key.Some? && docs[n].key.value in keys {
        var h := docs[n].key.value;
        assert Started(docs, keys) == start + {h};
        if h in start { assert start + {h} == start; } else { assert |start + {h}| == |start| + 1; }
        assert Repeat(docs[..n], docs[n], keys) <==> h in start;
      } else {
        assert Started(docs, keys) == start;
      }
    }
  }

  // ---------------------------------------------------------------- samples

  /** The duplicated keys in order of first appearance. */
  function Order(docs: seq<Doc>, keys: set<Hash>): seq<Hash> {
    if docs == [] then []
    else
      var before, d := docs[..|docs| - 1], docs[|docs| - 1];
      var first := d.key.Some? && d.key.value in keys && Count(before, d.key.value) == 0;
      Order(before, keys) + if first then [d.key.value] else []
  }

  function UrlsOf(docs: seq<Doc>, h: Hash): seq<string> {
    if docs == [] then []
    else UrlsOf(docs[..|docs| - 1], h) + if docs[|docs| - 1].key == Some(h) then [docs[|docs| - 1].url] else []
  }

  lemma {:induction false} OrderHolds(docs: seq<Doc>, keys: set<Hash>, h: Hash)
    ensures h in Order(docs, keys) <==> h in keys && Count(docs, h) > 0
    ensures |UrlsOf(docs, h)| == Count(docs, h)
  {
    if docs != [] { OrderHolds(docs[..|docs| - 1], keys, h); }
  }

  /** The groups are listed by first appearance: where a later one appears, an earlier one
      has appeared. */
  lemma {:induction false} OrderIsByAppearance(docs: seq<Doc>, keys: set<Hash>, i: nat, j: nat)
    requires i < j < |Order(docs, keys)|
    ensures exists n :: 0 <= n <= |docs| && Count(docs[..n], Order(docs, keys)[i]) > 0
                        && Count(docs[..n], Order(docs, keys)[j]) == 0
  {
    var n, order := |docs| - 1, Order(docs, keys);
    var before := Order(docs[..n], keys);
    if j < |before| {
      OrderIsByAppearance(docs[..n], keys, i, j);
      var m :| 0 <= m <= n && Count(docs[..n][..m], before[i]) > 0 && Count(docs[..n][..m], before[j]) == 0;
      assert docs[..n][..m] == docs[..m];
    } else {
      OrderHolds(docs[..n], keys, before[i]);
      assert Count(docs[..n], order[i]) > 0 && Count(docs[..n], order[j]) == 0;
    }
  }

  /** A group's URLs are those of its documents, in the order scanned. */
  lemma {:induction false} UrlsAreInOrder(docs: seq<Doc>, h: Hash, k: nat)
    requires k < |docs| && docs[k].key == Some(h)
    ensures |UrlsOf(docs, h)| == Count(docs, h) > Count(docs[..k], h)
    ensures UrlsOf(docs, h)[Count(docs[..k], h)] == docs[k].url
  {
    var n := |docs| - 1;
    OrderHolds(docs[..n], {}, h);
    OrderHolds(docs, {}, h);
    if k < n {
      UrlsAreInOrder(docs[..n], h, k);
      assert docs[..n][..k] == docs[..k];
    }
  }

  ghost predicate Sampled(samples: map<Hash, Group>, order: seq<Hash>, counts: map<Hash, nat>, docs: seq<Doc>) {
    && order == Take(Order(docs, Duplicated(counts)), MAX_SAMPLES)
    && (forall h: Hash :: h in samples <==> h in order)
    && (forall h | h in samples :: Shown(samples[h], counts, docs, h))
  }

  predicate Shown(g: Group, counts: map<Hash, nat>, docs: seq<Doc>, h: Hash) {
    g == Group(At(counts, h), Take(UrlsOf(docs, h), MAX_URLS))
  }

  function SampleOne(samples: map<Hash, Group>, order: seq<Hash>, counts: map<Hash, nat>, h: Hash, url: string)
      : (map<Hash, Group>, seq<Hash>)
  {
    var isNew := h !in samples && |order| < MAX_SAMPLES;
    var samples', order' :=
      if isNew then samples[h := Group(At(counts, h), [])] else samples,
      if isNew then order + [h] else order;
    if h in samples' && |samples'[h].urls| < MAX_URLS
    then (samples'[h := samples'[h].(urls := samples'[h].urls + [url])], order')
    else (samples', order')
  }

  predicate Grouped(d: Doc, keys: set<Hash>) { d.key.Some? && d.key.value in keys }

  lemma SampleStep(samples: map<Hash, Group>, order: seq<Hash>, counts: map<Hash, nat>, docs: seq<Doc>, d: Doc)
    requires Sampled(samples, order, counts, docs) && Grouped(d, Duplicated(counts))
    ensures
      var (samples', order') := SampleOne(samples, order, counts, d.key.value, d.url);
      Sampled(samples', order', counts, docs + [d])
  {
    var h, docs', keys := d.key.value, docs + [d], Duplicated(counts);
    assert docs'[..|docs|] == docs;
    OrderHolds(docs, keys, h);
    var (samples', order') := SampleOne(samples, order, counts, h, d.url);
    SampleOrder(samples, order, counts, docs, d);
    forall g | g in samples' ensures Shown(samples'[g], counts, docs', g) {
      if g == h {
        SampleShown(samples, order, counts, docs, d);
      } else {
        assert Shown(samples[g], counts, docs, g);
      }
    }
  }

  lemma SampleShown(samples: map<Hash, Group>, order: seq<Hash>, counts: map<Hash, nat>, docs: seq<Doc>, d: Doc)
    requires Sampled(samples, order, counts, docs) && Grouped(d, Duplicated(counts))
    ensures var samples' := SampleOne(samples, order, counts, d.key.value, d.url).0;
            d.key.value in samples' ==> Shown(samples'[d.key.value], counts, docs + [d], d.key.value)
  {
    var h, urls := d.key.value, UrlsOf(docs, d.key.value);
    assert (docs + [d])[..|docs|] == docs;
    assert UrlsOf(docs + [d], h) == urls + [d.url];
    TakeSnoc(urls, d.url, MAX_URLS);
    if h in samples {
      assert Shown(samples[h], counts, docs, h);
    } else if |order| < MAX_SAMPLES {
      NewGroupHasNoUrls(samples, order, counts, docs, h);
    }
  }

  lemma NewGroupHasNoUrls(samples: map<Hash, Group>, order: seq<Hash>, counts: map<Hash, nat>, docs: seq<Doc>, h: Hash)
    requires Sampled(samples, order, counts, docs) && h in Duplicated(counts) && h !in samples && |order| < MAX_SAMPLES
    ensures UrlsOf(docs, h) == []
  {
    OrderHolds(docs, Duplicated(counts), h);
    assert h !in order;
  }

  lemma SampleOrder(samples: map<Hash, Group>, order: seq<Hash>, counts: map<Hash, nat>, docs: seq<Doc>, d: Doc)
    requires Sampled(samples, order, counts, docs) && Grouped(d, Duplicated(counts))
    ensures SampleOne(samples, order, counts, d.key.value, d.url).1
            == Take(Order(docs + [d], Duplicated(counts)), MAX_SAMPLES)
  {
    var h, docs', keys := d.key.value, docs + [d], Duplicated(counts);
    assert docs'[..|docs|] == docs;
    OrderHolds(docs, keys, h);
    assert Order(docs', keys) == Order(docs, keys) + if Count(docs, h) == 0 then [h] else [];
    TakeSnoc(Order(docs, keys), h, MAX_SAMPLES);
    if h in order { assert h in Order(docs, keys); }
  }

  lemma TakeSnoc<T>(s: seq<T>, x: T, n: nat)
    ensures Take(s + [x], n) == if |s| < n then Take(s, n) + [x] else Take(s, n)
  {
  }

  lemma SampleSkip(samples: map<Hash, Group>, order: seq<Hash>, counts: map<Hash, nat>, docs: seq<Doc>, d: Doc)
    requires Sampled(samples, order, counts, docs) && !Grouped(d, Duplicated(counts))
    ensures Sampled(samples, order, counts, docs + [d])
  {
    assert (docs + [d])[..|docs|] == docs;
    forall h | h in samples ensures Shown(samples[h], counts, docs + [d], h) {
      assert Shown(samples[h], counts, docs, h);
      OrderHolds(docs, Duplicated(counts), h);
    }
  }

  lemma {:induction false} NoGroups(docs: seq<Doc>, host: string)
    ensures HostRepeats(docs, {}, host) == 0 && Repeats(docs, {}) == 0 && Order(docs, {}) == []
  {
    if docs != [] { NoGroups(docs[..|docs| - 1], host); }
  }

  /** The sampled groups are different groups. */
  lemma {:induction false} OrderDistinct(docs: seq<Doc>, keys: set<Hash>)
    ensures forall i, j | 0 <= i < j < |Order(docs, keys)| :: Order(docs, keys)[i] != Order(docs, keys)[j]
  {
    if docs != [] {
      var before, d := docs[..|docs| - 1], docs[|docs| - 1];
      OrderDistinct(before, keys);
      if Grouped(d, keys) { OrderHolds(before, keys, d.key.value); }
    }
  }

  // ---------------------------------------------------------------- the second pass

  /** What the second pass has gathered over `docs`. */
  ghost predicate Attributed(seen: map<Hash, nat>, hosts: map<string, nat>, docs: seq<Doc>, keys: set<Hash>) {
    && (forall h | h in keys :: At(seen, h) == Count(docs, h))
    && (forall host :: At(hosts, host) == HostRepeats(docs, keys, host))
    && Sum(hosts, hosts.Keys) == Repeats(docs, keys)
  }

  lemma AttributeStep(seen: map<Hash, nat>, hosts: map<string, nat>, docs: seq<Doc>, keys: set<Hash>, d: Doc)
    requires Attributed(seen, hosts, docs, keys) && Grouped(d, keys)
    ensures
      var n := At(seen, d.key.value) + 1;
      var hosts' := if n > 1 then hosts[d.host := At(hosts, d.host) + 1] else hosts;
      Attributed(seen[d.key.value := n], hosts', docs + [d], keys)
  {
    assert (docs + [d])[..|docs|] == docs;
    var h, docs' := d.key.value, docs + [d];
    var seen' := seen[h := At(seen, h) + 1];
    SumBump(hosts, d.host);
    assert Repeat(docs, d, keys) <==> At(seen, h) > 0;
    forall g | g in keys ensures At(seen', g) == Count(docs', g) {
      assert At(seen, g) == Count(docs, g);
    }
    var hosts' := if seen'[h] > 1 then hosts[d.host := At(hosts, d.host) + 1] else hosts;
    forall host ensures At(hosts', host) == HostRepeats(docs', keys, host) {
      assert At(hosts, host) == HostRepeats(docs, keys, host);
    }
  }

  lemma AttributeSkip(seen: map<Hash, nat>, hosts: map<string, nat>, docs: seq<Doc>, keys: set<Hash>, d: Doc)
    requires Attributed(seen, hosts, docs, keys) && !Grouped(d, keys)
    ensures Attributed(seen, hosts, docs + [d], keys)
  {
    assert (docs + [d])[..|docs|] == docs;
  }

  method CountGroups(counts: map<Hash, nat>) returns (groups: nat, docsInGroups: nat)
    ensures groups == |Duplicated(counts)|
    ensures docsInGroups == Sum(counts, Duplicated(counts))
  {
    groups, docsInGroups := 0, 0;
    var todo := counts.Keys;
    ghost var dup := Duplicated(counts);
    assert dup * todo == dup;
    while todo != {}
      invariant todo <= counts.Keys
      invariant groups + |dup * todo| == |dup|
      invariant docsInGroups + Sum(counts, dup * todo) == Sum(counts, dup)
    {
      ghost var w: Hash := SomeOf(todo);
      var h: Hash :| h in todo;
      if counts[h] > 1 {
        groups, docsInGroups := groups + 1, docsInGroups + counts[h];
        SumRemove(counts, dup * todo, h);
        assert dup * (todo - {h}) == dup * todo - {h};
      } else {
        assert dup * (todo - {h}) == dup * todo;
      }
      todo := todo - {h};
    }
    assert dup * todo == {};
  }

  /** The counts may come from any earlier scan; `PassesAgree` says what follows when both
      passes saw the same documents. */
  method DupPass(docs: seq<Doc>, counts: map<Hash, nat>, limit: int) returns (dups: Dups, seen: map<Hash, nat>)
    ensures dups.groups == |Duplicated(counts)| && dups.docsInGroups == Sum(counts, Duplicated(counts))
    ensures dups.removable == dups.docsInGroups - dups.groups
    ensures Attributed(seen, dups.hostRemovable, Visited(docs, limit), Duplicated(counts))
    ensures ShowsSamples(dups.samples, Visited(docs, limit), counts)
  {
    ghost var keys := Duplicated(counts);
    var groups, docsInGroups := CountGroups(counts);
    var hosts: map<string, nat> := map[];
    seen := map[];
    if groups == 0 {
      assert keys == {};
      forall host
        ensures HostRepeats(Visited(docs, limit), {}, host) == 0 && Repeats(Visited(docs, limit), {}) == 0
        ensures Order(Visited(docs, limit), {}) == []
      {
        NoGroups(Visited(docs, limit), host);
      }
      NoGroups(Visited(docs, limit), "");
      return Dups(0, docsInGroups, docsInGroups as int - groups, hosts, []), seen;
    }
    var samples, order;
    seen, hosts, samples, order := Attribute(docs, counts, limit);
    var removable := docsInGroups as int - groups;
    dups := Dups(groups, docsInGroups, removable, hosts, InOrder(samples, order));
  }

  function InOrder(samples: map<Hash, Group>, order: seq<Hash>): (out: seq<Group>)
    requires forall i | 0 <= i < |order| :: order[i] in samples
    ensures |out| == |order| && forall i | 0 <= i < |order| :: out[i] == samples[order[i]]
  {
    if order == [] then [] else InOrder(samples, order[..|order| - 1]) + [samples[order[|order| - 1]]]
  }

  /** Starts a sample for a new group while there is room, and adds a URL while it is short. */
  method Sample(samples0: map<Hash, Group>, order0: seq<Hash>, counts: map<Hash, nat>, ghost before: seq<Doc>, d: Doc)
    returns (samples: map<Hash, Group>, order: seq<Hash>)
    requires Sampled(samples0, order0, counts, before) && Grouped(d, Duplicated(counts))
    ensures Sampled(samples, order, counts, before + [d])
  {
    samples, order := samples0, order0;
    var h := d.key.value;
    SampleStep(samples, order, counts, before, d);
    if h !in samples && |order| < MAX_SAMPLES {
      samples := samples[h := Group(counts[h], [])];
      order := order + [h];
    }
    if h in samples && |samples[h].urls| < MAX_URLS {
      samples := samples[h := samples[h].(urls := samples[h].urls + [d.url])];
    }
  }

  /** The second scan. */
  method Attribute(docs: seq<Doc>, counts: map<Hash, nat>, limit: int)
    returns (seen: map<Hash, nat>, hosts: map<string, nat>, samples: map<Hash, Group>, order: seq<Hash>)
    ensures Attributed(seen, hosts, Visited(docs, limit), Duplicated(counts))
    ensures Sampled(samples, order, counts, Visited(docs, limit))
  {
    ghost var keys := Duplicated(counts);
    seen, hosts, samples, order := map[], map[], map[], [];
    var scanned := 0;
    while scanned < |docs| && !(0 < limit <= scanned)
      invariant scanned <= |docs| && (limit > 0 ==> scanned <= limit)
      invariant Attributed(seen, hosts, docs[..scanned], keys)
      invariant Sampled(samples, order, counts, docs[..scanned])
    {
      var d := docs[scanned];
      ghost var before := docs[..scanned];
      assert docs[..scanned + 1] == before + [d];
      scanned := scanned + 1;
      if d.key.Some? && d.key.value in counts && counts[d.key.value] > 1 {
        var h := d.key.value;
        AttributeStep(seen, hosts, before, keys, d);
        seen := seen[h := At(seen, h) + 1];
        if seen[h] > 1 {
          hosts := hosts[d.host := At(hosts, d.host) + 1];
        }
        samples, order := Sample(samples, order, counts, before, d);
      } else {
        AttributeSkip(seen, hosts, before, keys, d);
        SampleSkip(samples, order, counts, before, d);
      }
    }
    assert docs[..scanned] == Visited(docs, limit);
  }

  /** The first twenty groups to appear, each with its size and its first three URLs. */
  ghost predicate ShowsSamples(samples: seq<Group>, docs: seq<Doc>, counts: map<Hash, nat>) {
    var order := Order(docs, Duplicated(counts));
    && |samples| == |Take(order, MAX_SAMPLES)|
    && forall i | 0 <= i < |samples| ::
        samples[i] == Group(At(counts, order[i]), Take(UrlsOf(docs, order[i]), MAX_URLS))
  }

  /** When both passes saw the same documents: the host counts add up to what is removable,
      each group's final `seen` is its first-pass count, removing them leaves one document
      a group, and the samples stay within bounds and report true sizes. */
  lemma PassesAgree(docs: seq<Doc>, counts: map<Hash, nat>, dups: Dups, seen: map<Hash, nat>)
    requires Counts(counts, docs)
    requires dups.groups == |Duplicated(counts)| && dups.docsInGroups == Sum(counts, Duplicated(counts))
    requires dups.removable == dups.docsInGroups - dups.groups
    requires Attributed(seen, dups.hostRemovable, docs, Duplicated(counts)) && ShowsSamples(dups.samples, docs, counts)
    ensures Sum(dups.hostRemovable, dups.hostRemovable.Keys) == dups.removable == Repeats(docs, Duplicated(counts))
    ensures dups.docsInGroups == Members(docs, Duplicated(counts))
    ensures forall h | h in Duplicated(counts) :: At(seen, h) == counts[h]
    ensures |dups.samples| == if dups.groups < 20 then dups.groups else 20
    ensures forall i | 0 <= i < |dups.samples| ::
              1 < dups.samples[i].count == Count(docs, Order(docs, Duplicated(counts))[i])
                  && |dups.samples[i].urls| == if dups.samples[i].count < 3 then 2 else 3
  {
    var keys := Duplicated(counts);
    CountsAddUp(docs, counts, keys);
    AllButTheFirst(docs, keys);
    forall h | h in keys ensures Count(docs, h) > 0 { assert At(counts, h) == Count(docs, h); }
    assert Started(docs, keys) == keys;
    var order := Order(docs, keys);
    forall i | 0 <= i < |order|
      ensures order[i] in keys && |UrlsOf(docs, order[i])| == Count(docs, order[i]) == counts[order[i]]
    {
      OrderHolds(docs, keys, order[i]);
      assert At(counts, order[i]) == Count(docs, order[i]);
    }
    OrderDistinct(docs, keys);
    forall h | h in keys ensures h in order { OrderHolds(docs, keys, h); }
    DistinctFill(order, keys);
  }

  lemma {:induction false} DistinctFill(order: seq<Hash>, keys: set<Hash>)
    requires forall i, j | 0 <= i < j < |order| :: order[i] != order[j]
    requires forall h: Hash :: h in order <==> h in keys
    ensures |order| == |keys|
  {
    if order == [] {
      assert keys == {};
    } else {
      var n := |order| - 1;
      forall h: Hash ensures h in order[..n] <==> h in keys - {order[n]} {
        assert h in order <==> h in order[..n] || h == order[n];
      }
      assert order[n] in keys;
      DistinctFill(order[..n], keys - {order[n]});
    }
  }

  /** The whole duplicate census over one store. */
  method Census(docs: seq<Doc>, limit: int) returns (dups: Dups, unparseable: nat)
    ensures var seen := Visited(docs, limit);
      exists counts :: Counts(counts, seen)
        && dups.groups == |Duplicated(counts)|
        && dups.docsInGroups == Members(seen, Duplicated(counts))
        && Sum(dups.hostRemovable, dups.hostRemovable.Keys) == dups.removable == Repeats(seen, Duplicated(counts))
    ensures |dups.samples| == if dups.groups < 20 then dups.groups else 20
    ensures forall i | 0 <= i < |dups.samples| ::
        2 <= dups.samples[i].count && |dups.samples[i].urls| == if dups.samples[i].count < 3 then 2 else 3
    ensures unparseable == Unparseable(Visited(docs, limit))
  {
    var counts, bad := CountPass(docs, limit);
    unparseable := bad;
    var seen;
    dups, seen := DupPass(docs, counts, limit);
    PassesAgree(Visited(docs, limit), counts, dups, seen);
  }
}
