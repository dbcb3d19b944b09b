/** Matching hosts against many domain suffixes, bucketed by last label. */
module SuffixMatcher {
  import opened Bytes
  import opened Text

  // ---------------------------------------------------------------- the linear scan

  predicate HasSuffix(s: string, suffix: string) {
    |suffix| <= |s| && s[|s| - |suffix|..] == suffix
  }

  /** The host is the domain itself or a subdomain of it. */
  predicate Under(host: string, domain: string) {
    host == domain || HasSuffix(host, "." + domain)
  }

  predicate LinearMatch(fold: Fold, host: string, patterns: seq<string>) {
    exists i :: 0 <= i < |patterns| && Under(Lower(fold, host), patterns[i])
  }

  /** Under a domain is the domain itself, and what ends in a dot and the domain. */
  lemma UnderMeans(host: string, domain: string)
    ensures Under(host, domain) <==> host == domain || exists sub :: host == sub + "." + domain
  {
    if HasSuffix(host, "." + domain) {
      var sub := host[..|host| - |domain| - 1];
      assert host == sub + ("." + domain) == sub + "." + domain;
    }
    forall sub | host == sub + "." + domain ensures HasSuffix(host, "." + domain) {
      assert host == sub + ("." + domain);
    }
  }

  method MatchesAnyDomain(fold: Fold, host: string, patterns: seq<string>) returns (ok: bool)
    ensures ok <==> LinearMatch(fold, host, patterns)
  {
    var folded := Lower(fold, host);
    for i := 0 to |patterns|
      invariant forall j | 0 <= j < i :: !Under(folded, patterns[j])
    {
      var p := patterns[i];
      if folded == p || HasSuffix(folded, "." + p) {
        assert Under(folded, patterns[i]);
        return true;
      }
    }
    return false;
  }

  // ---------------------------------------------------------------- buckets

  /** Position of the last dot, or -1. */
  function LastDot(s: string): (i: int)
    ensures -1 <= i < |s|
    ensures i >= 0 ==> s[i] == '.'
    ensures forall j | i < j < |s| :: s[j] != '.'
  {
    if s == "" then -1
    else if s[|s| - 1] == '.' then |s| - 1
    else LastDot(s[..|s| - 1])
  }

  function TldOfHost(fold: Fold, host: string): string {
    var i := LastDot(host);
    if i < 0 || i == |host| - 1 then "" else Lower(fold, host[i + 1..])
  }

  function SuffixBucket(fold: Fold, s: string): string {
    if '.' !in s then Lower(fold, s) else TldOfHost(fold, s)
  }

  /** Both branches at once: the folded text after the last dot. */
  lemma BucketIsLastLabel(fold: Fold, s: string)
    ensures SuffixBucket(fold, s) == Lower(fold, s[LastDot(s) + 1..])
  {
    if '.' in s {
      var k :| 0 <= k < |s| && s[k] == '.';
      assert LastDot(s) >= k;
    } else {
      assert s[0..] == s;
    }
  }

  lemma LastDotUnique(s: string, i: int)
    requires -1 <= i < |s| && (i >= 0 ==> s[i] == '.') && forall j | i < j < |s| :: s[j] != '.'
    ensures LastDot(s) == i
  {
    assert LastDot(s) == i || LastDot(s) < i || i < LastDot(s);
  }

  /** Folding moves no dots. */
  lemma LowerKeepsLastDot(fold: Fold, s: string)
    requires Folding(fold)
    ensures LastDot(Lower(fold, s)) == LastDot(s)
  {
    LastDotUnique(Lower(fold, s), LastDot(s));
  }

  lemma BucketFoldsCase(fold: Fold, s: string)
    requires Folding(fold)
    ensures SuffixBucket(fold, Lower(fold, s)) == SuffixBucket(fold, s)
  {
    BucketIsLastLabel(fold, s);
    BucketIsLastLabel(fold, Lower(fold, s));
    LowerKeepsLastDot(fold, s);
    var i := LastDot(s) + 1;
    var a, b := Lower(fold, Lower(fold, s)[i..]), Lower(fold, s[i..]);
    assert |a| == |b|;
    forall j | 0 <= j < |a| ensures a[j] == b[j] {
      assert Lower(fold, s)[i..][j] == fold(s[i + j]);
    }
  }

  lemma SuffixPosition(host: string, domain: string)
    requires HasSuffix(host, "." + domain)
    ensures |host| > |domain| && host[|host| - |domain| - 1] == '.' && host[|host| - |domain|..] == domain
  {
    var k := |host| - |domain|;
    var tail := host[k - 1..];
    assert tail == "." + domain;
    assert tail[0] == '.' && tail[1..] == domain;
    assert tail[1..] == host[k..];
  }

  lemma LastDotOfSuffix(host: string, k: nat)
    requires 0 < k <= |host| && host[k - 1] == '.'
    ensures LastDot(host) == k + LastDot(host[k..])
  {
    var domain := host[k..];
    forall j | k + LastDot(domain) < j < |host| ensures host[j] != '.' {
      assert host[j] == domain[j - k];
    }
    LastDotUnique(host, k + LastDot(domain));
  }

  lemma TailSharesBucket(fold: Fold, host: string, k: nat)
    requires 0 < k <= |host| && host[k - 1] == '.'
    ensures SuffixBucket(fold, host) == SuffixBucket(fold, host[k..])
  {
    LastDotOfSuffix(host, k);
    BucketIsLastLabel(fold, host);
    BucketIsLastLabel(fold, host[k..]);
    SliceOfSlice(host, k, LastDot(host[k..]) + 1);
  }

  lemma SliceOfSlice(s: string, k: nat, m: nat)
    requires k + m <= |s|
    ensures s[k..][m..] == s[k + m..]
  {
  }

  /** A subdomain has the last label of its domain. */
  lemma UnderSharesBucket(fold: Fold, host: string, domain: string)
    requires Under(host, domain)
    ensures SuffixBucket(fold, host) == SuffixBucket(fold, domain)
  {
    if host != domain {
      SuffixPosition(host, domain);
      var k := |host| - |domain|;
      TailSharesBucket(fold, host, k);
      assert host[k..] == domain;
    }
  }

  // ---------------------------------------------------------------- the matcher

  const BUCKET_THRESHOLD := 500

  datatype Matcher = Matcher(linear: seq<string>, buckets: Option<map<string, seq<string>>>)

  /** The suffixes of one bucket, in list order. */
  function InBucket(fold: Fold, suffixes: seq<string>, key: string): seq<string> {
    if suffixes == [] then []
    else
      var last := suffixes[|suffixes| - 1];
      InBucket(fold, suffixes[..|suffixes| - 1], key) + if SuffixBucket(fold, last) == key then [last] else []
  }

  function Get(buckets: map<string, seq<string>>, key: string): seq<string> {
    if key in buckets then buckets[key] else []
  }

  /** A bucket lists its suffixes as the whole list does. */
  lemma {:induction false} InBucketConcat(fold: Fold, a: seq<string>, b: seq<string>, key: string)
    ensures InBucket(fold, a + b, key) == InBucket(fold, a, key) + InBucket(fold, b, key)
    ensures |b| == 1 ==> InBucket(fold, b, key) == if SuffixBucket(fold, b[0]) == key then b else []
    decreases |b|
  {
    if b == [] {
      assert a + b == a;
    } else {
      var n := |b| - 1;
      assert (a + b)[..|a + b| - 1] == a + b[..n];
      InBucketConcat(fold, a, b[..n], key);
    }
  }

  ghost predicate Built(fold: Fold, m: Matcher, suffixes: seq<string>) {
    && m.linear == suffixes
    && (m.buckets.Some? <==> |suffixes| > BUCKET_THRESHOLD)
    && (m.buckets.Some? ==> forall key :: Get(m.buckets.value, key) == InBucket(fold, suffixes, key))
  }

  method NewSuffixMatcher(fold: Fold, suffixes: seq<string>) returns (m: Matcher)
    ensures Built(fold, m, suffixes)
    ensures m.buckets.Some? <==> |suffixes| > 500
  {
    if |suffixes| <= BUCKET_THRESHOLD {
      return Matcher(suffixes, None);
    }
    var buckets: map<string, seq<string>> := map[];
    for i := 0 to |suffixes|
      invariant forall key :: Get(buckets, key) == InBucket(fold, suffixes[..i], key)
    {
      assert suffixes[..i + 1][..i] == suffixes[..i];
      var k := SuffixBucket(fold, suffixes[i]);
      buckets := buckets[k := (if k in buckets then buckets[k] else []) + [suffixes[i]]];
    }
    assert suffixes[..|suffixes|] == suffixes;
    return Matcher(suffixes, Some(buckets));
  }

  lemma {:induction false} InBucketMembers(fold: Fold, suffixes: seq<string>, key: string, p: string)
    ensures p in InBucket(fold, suffixes, key) <==> p in suffixes && SuffixBucket(fold, p) == key
  {
    if suffixes != [] {
      var n := |suffixes| - 1;
      InBucketMembers(fold, suffixes[..n], key, p);
      assert suffixes == suffixes[..n] + [suffixes[n]];
    }
  }

  /** Scanning one bucket finds a match exactly when scanning the whole list does, for
      every host and every list: empty strings, stray dots and mixed case included. */
  lemma BucketScanIsExact(fold: Fold, host: string, suffixes: seq<string>)
    requires Folding(fold)
    ensures LinearMatch(fold, host, InBucket(fold, suffixes, SuffixBucket(fold, host))) <==>
        LinearMatch(fold, host, suffixes)
  {
    var folded, key := Lower(fold, host), SuffixBucket(fold, host);
    var bucket := InBucket(fold, suffixes, key);
    if LinearMatch(fold, host, bucket) {
      var i :| 0 <= i < |bucket| && Under(folded, bucket[i]);
      InBucketMembers(fold, suffixes, key, bucket[i]);
      var j :| 0 <= j < |suffixes| && suffixes[j] == bucket[i];
      assert Under(folded, suffixes[j]);
    }
    if LinearMatch(fold, host, suffixes) {
      var i :| 0 <= i < |suffixes| && Under(folded, suffixes[i]);
      UnderSharesBucket(fold, folded, suffixes[i]);
      BucketFoldsCase(fold, host);
      InBucketMembers(fold, suffixes, key, suffixes[i]);
      var j :| 0 <= j < |bucket| && bucket[j] == suffixes[i];
      assert Under(folded, bucket[j]);
    }
  }

  method Matches(fold: Fold, m: Matcher, host: string, ghost suffixes: seq<string>) returns (ok: bool)
    requires Folding(fold) && Built(fold, m, suffixes)
    ensures ok <==> LinearMatch(fold, host, suffixes)
  {
    if m.buckets == None {
      ok := MatchesAnyDomain(fold, host, m.linear);
    } else {
      BucketScanIsExact(fold, host, suffixes);
      var k := SuffixBucket(fold, host);
      ok := MatchesAnyDomain(fold, host, if k in m.buckets.value then m.buckets.value[k] else []);
    }
  }
}
