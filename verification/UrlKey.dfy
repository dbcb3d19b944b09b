/** The duplicate census key of a URL: parsed parts, normalised and joined into a string. */
module UrlKey {
  import opened Bytes
  import opened Lex
  import opened Text

  /** A URL as the parser splits it. `query` maps a name to its values in order. */
  datatype Url = Url(scheme: string, host: string, port: string, path: string, query: map<string, seq<string>>)

  /** Lower-casing of one character, and query escaping. */
  datatype Conv = Conv(fold: Fold, escape: string -> string)

  predicate NoChar(s: string, c: char) { c !in s }

  /** Escaping is injective and hides the separators. */
  ghost predicate Escaping(escape: string -> string) {
    && (forall a, b | escape(a) == escape(b) :: a == b)
    && (forall a :: NoChar(escape(a), '&') && NoChar(escape(a), '='))
  }

  /** Percent-encoding of the marks is such an escape. */
  function PercentEncoded(s: string): string {
    if s == "" then "" else PercentCode(s[0]) + PercentEncoded(s[1..])
  }

  function PercentCode(c: char): (r: string)
    ensures r != "" && '&' !in r && '=' !in r
  {
    if c == '%' then "%25" else if c == '&' then "%26" else if c == '=' then "%3D" else [c]
  }

  lemma {:induction false} PercentHidesMarks(s: string)
    ensures NoChar(PercentEncoded(s), '&') && NoChar(PercentEncoded(s), '=')
  {
    if s != "" { PercentHidesMarks(s[1..]); }
  }

  lemma {:induction false} PercentIsInjective(a: string, b: string)
    requires PercentEncoded(a) == PercentEncoded(b)
    ensures a == b
  {
    if a != "" && b != "" {
      var x, y, z := PercentCode(a[0]), PercentCode(b[0]), PercentEncoded(a);
      assert z[..|x|] == x && z[..|y|] == y;
      assert z[0] == x[0] == y[0] && |x| == |y|;
      assert a[0] == b[0] by { if |x| == 3 { assert x[2] == y[2]; } }
      assert z[|x|..] == PercentEncoded(a[1..]) == PercentEncoded(b[1..]);
      PercentIsInjective(a[1..], b[1..]);
      assert a == [a[0]] + a[1..] && b == [b[0]] + b[1..];
    }
  }

  lemma PercentEncodingEscapes()
    ensures Escaping(PercentEncoded)
  {
    forall a, b | PercentEncoded(a) == PercentEncoded(b) ensures a == b { PercentIsInjective(a, b); }
    forall a ensures NoChar(PercentEncoded(a), '&') && NoChar(PercentEncoded(a), '=') { PercentHidesMarks(a); }
  }

  /** What the parser guarantees of an absolute URL it accepts. */
  predicate Parsed(u: Url) {
    && NoChar(u.scheme, ':')
    && NoChar(u.host, '/') && NoChar(u.host, '?')
    && NoChar(u.port, '/') && NoChar(u.port, '?') && NoChar(u.port, ':')
    && (u.path == "" || u.path[0] == '/') && NoChar(u.path, '?')
    && forall k | k in u.query :: u.query[k] != []
  }

  // ---------------------------------------------------------------- normal forms of the parts

  function NormScheme(c: Conv, u: Url): string {
    var s := Lower(c.fold, u.scheme);
    if s == "http" then "https" else s
  }

  function TrimWww(host: string): string {
    if |host| >= 4 && host[..4] == "www." then host[4..] else host
  }

  function NormHost(c: Conv, u: Url): string { TrimWww(Lower(c.fold, u.host)) }

  function NormPort(u: Url): string { if u.port == "80" || u.port == "443" then "" else u.port }

  function TrimSlashes(p: string): string
    decreases |p|
  {
    if p == "" || p[|p| - 1] != '/' then p else TrimSlashes(p[..|p| - 1])
  }

  function NormPath(p: string): string {
    if p == "" then "/"
    else if |p| > 1 then (if TrimSlashes(p) == "" then "/" else TrimSlashes(p))
    else p
  }

  const TRACKERS := {"ref", "ref_src", "fbclid", "gclid", "mc_cid", "mc_eid", "_ga"}

  predicate Tracker(name: string) { name in TRACKERS || "utm_" <= name }

  function NormQuery(q: map<string, seq<string>>): map<string, seq<string>> {
    map k | k in q && !Tracker(k) :: Sort(q[k])
  }

  // ---------------------------------------------------------------- encoding the query

  datatype Pair = Pair(name: string, value: string)

  ghost function Least(names: set<string>): (k: string)
    requires names != {}
    ensures IsLeast(names, k)
  {
    LeastExists(names);
    var k :| IsLeast(names, k);
    k
  }

  ghost predicate IsLeast(names: set<string>, k: string) { k in names && forall j | j in names :: LessEq(k, j) }

  lemma LeastOfTwo(names: set<string>, k: string, m: string) returns (least: string)
    requires k in names && IsLeast(names - {k}, m)
    ensures IsLeast(names, least)
  {
    Total(k, m);
    least := if LessEq(k, m) then k else m;
    forall j | j in names ensures LessEq(least, j) {
      if j != k && least == k { LessEqTransitive(k, m, j); }
    }
  }

  lemma {:induction false} LeastExists(names: set<string>)
    requires names != {}
    ensures exists k :: IsLeast(names, k)
    decreases |names|
  {
    var k :| k in names;
    if names == {k} {
      assert IsLeast(names, k);
    } else {
      LeastExists(names - {k});
      var m :| IsLeast(names - {k}, m);
      var least := LeastOfTwo(names, k, m);
    }
  }

  function PairsOf(name: string, values: seq<string>): seq<Pair> {
    if values == [] then [] else [Pair(name, values[0])] + PairsOf(name, values[1..])
  }

  /** The pairs in the order they are written: names sorted, values in list order. */
  ghost function Pairs(q: map<string, seq<string>>): seq<Pair>
    decreases |q|
  {
    if q == map[] then []
    else
      var k := Least(q.Keys);
      assert (q - {k}).Keys == q.Keys - {k};
      PairsOf(k, q[k]) + Pairs(q - {k})
  }

  function Token(c: Conv, p: Pair): string { c.escape(p.name) + "=" + c.escape(p.value) }

  function Join(c: Conv, ps: seq<Pair>): string {
    if ps == [] then "" else if |ps| == 1 then Token(c, ps[0]) else Token(c, ps[0]) + "&" + Join(c, ps[1..])
  }

  ghost function Encode(c: Conv, q: map<string, seq<string>>): string { Join(c, Pairs(q)) }

  function HostPort(c: Conv, u: Url): string {
    if NormPort(u) != "" then NormHost(c, u) + ":" + NormPort(u) else NormHost(c, u)
  }

  function Tail(enc: string): string { if enc == "" then "" else "?" + enc }

  /** The key up to the query. */
  function Stem(c: Conv, u: Url): string { NormScheme(c, u) + "://" + HostPort(c, u) + NormPath(u.path) }

  /** The key; None when the URL has no host. */
  ghost function Key(c: Conv, u: Url): Option<string> {
    if u.host == "" then None else Some(Stem(c, u) + Tail(Encode(c, NormQuery(u.query))))
  }

  // ---------------------------------------------------------------- what a page is

  /** `site` is the host less one leading "www.". */
  predicate IsSite(host: string, site: string) {
    host == "www." + site || (host == site && !("www." <= host))
  }

  /** `p` is `base` followed by slashes only, and `base` ends in none. */
  predicate IsBase(p: string, base: string) {
    && base <= p && (forall i | |base| <= i < |p| :: p[i] == '/')
    && (base == "" || base[|base| - 1] != '/')
  }

  predicate DefaultPort(port: string) { port in {"", "80", "443"} }

  predicate SameScheme(s: string, t: string) { s == t || {s, t} <= {"http", "https"} }

  ghost predicate SameSite(h: string, k: string) { exists site :: IsSite(h, site) && IsSite(k, site) }

  predicate SamePort(p: string, q: string) { p == q || (DefaultPort(p) && DefaultPort(q)) }

  ghost predicate SamePath(p: string, r: string) { exists base :: IsBase(p, base) && IsBase(r, base) }

  lemma SiteIsTrimmed(host: string, site: string)
    ensures IsSite(host, site) <==> site == TrimWww(host)
  {
    if host == "www." + site { assert host[..4] == "www." && host[4..] == site; }
    if "www." <= host { assert host == "www." + host[4..]; }
  }

  lemma {:induction false} BaseIsTrimmed(p: string, base: string)
    ensures IsBase(p, base) <==> base == TrimSlashes(p)
    decreases |p|
  {
    if p != "" && p[|p| - 1] == '/' {
      var q := p[..|p| - 1];
      BaseIsTrimmed(q, base);
      assert IsBase(p, base) ==> base <= q;
      assert IsBase(q, base) ==> base <= p && forall i | |base| <= i < |q| :: p[i] == q[i];
    } else {
      assert IsBase(p, base) ==> base == p;
    }
  }

  // ---------------------------------------------------------------- the key as the code builds it

  method NormalizeQuery(q: map<string, seq<string>>) returns (r: map<string, seq<string>>)
    ensures r == NormQuery(q)
    ensures forall k :: k in r <==> k in q && !Tracker(k)
    ensures forall k | k in r :: Sorted(r[k]) && multiset(r[k]) == multiset(q[k])
  {
    r := q;
    var todo := q.Keys;
    while todo != {}
      invariant todo <= q.Keys
      invariant r == map k | k in q && (k in todo || !Tracker(k)) :: q[k]
    {
      var k :| k in todo;
      if Tracker(k) { r := r - {k}; }
      todo := todo - {k};
    }
    ghost var kept := r;
    todo := r.Keys;
    while todo != {}
      invariant todo <= kept.Keys && r.Keys == kept.Keys
      invariant forall k | k in kept :: r[k] == if k in todo then kept[k] else Sort(kept[k])
    {
      var k :| k in todo;
      r := r[k := Sort(r[k])];
      todo := todo - {k};
    }
    forall k | k in r ensures Sorted(r[k]) && multiset(r[k]) == multiset(q[k]) { SortSorts(q[k]); }
  }

  lemma PairsUnfold(q: map<string, seq<string>>, k: string)
    requires k in q && k == Least(q.Keys)
    ensures Pairs(q) == PairsOf(k, q[k]) + Pairs(q - {k}) && |q - {k}| < |q|
  {
    assert (q - {k}).Keys == q.Keys - {k};
    assert |q - {k}| == |(q - {k}).Keys| && |q| == |q.Keys|;
  }

  lemma PairsStep(pairs: seq<Pair>, rest: map<string, seq<string>>, k: string)
    requires k in rest && k == Least(rest.Keys)
    ensures pairs + Pairs(rest) == pairs + PairsOf(k, rest[k]) + Pairs(rest - {k}) && |rest - {k}| < |rest|
  {
    PairsUnfold(rest, k);
  }

  method EncodeQuery(c: Conv, q: map<string, seq<string>>) returns (enc: string)
    ensures enc == Encode(c, q)
  {
    var pairs: seq<Pair> := [];
    var rest := q;
    while rest != map[]
      invariant pairs + Pairs(rest) == Pairs(q)
      decreases |rest|
    {
      ghost var least := Least(rest.Keys);
      var k :| k in rest && forall j | j in rest :: LessEq(k, j);
      LessEqAntisymmetric(k, least);
      PairsStep(pairs, rest, k);
      pairs := pairs + PairsOf(k, rest[k]);
      rest := rest - {k};
    }
    assert pairs + [] == pairs;
    enc := Join(c, pairs);
  }

  method CutPath(p: string) returns (path: string)
    ensures path == NormPath(p)
  {
    path := p;
    if path == "" {
      path := "/";
    }
    if |path| > 1 {
      path := TrimSlashes(path);
      if path == "" {
        path := "/";
      }
    }
  }

  method KeyStem(c: Conv, u: Url) returns (key: string, host: string)
    ensures key == Stem(c, u) && IsSite(Lower(c.fold, u.host), host)
  {
    var scheme := Lower(c.fold, u.scheme);
    if scheme == "http" {
      scheme := "https";
    }
    host := TrimWww(Lower(c.fold, u.host));
    SiteIsTrimmed(Lower(c.fold, u.host), host);
    var hostPort := host;
    if u.port != "" && u.port != "80" && u.port != "443" {
      hostPort := host + ":" + u.port;
    }
    assert scheme == NormScheme(c, u) && hostPort == HostPort(c, u);
    var path := CutPath(u.path);
    key := scheme + "://" + hostPort + path;
  }

  lemma TailAfter(stem: string, enc: string)
    ensures stem + Tail(enc) == if enc == "" then stem else stem + "?" + enc
  {
    assert stem + ("?" + enc) == stem + "?" + enc;
  }

  method NormalizeUrlKey(c: Conv, u: Url) returns (key: string, host: string, ok: bool)
    ensures ok <==> u.host != ""
    ensures Key(c, u) == if ok then Some(key) else None
    ensures ok ==> IsSite(Lower(c.fold, u.host), host)
  {
    if u.host == "" {
      return "", "", false;
    }
    key, host := KeyStem(c, u);
    var q := NormalizeQuery(u.query);
    var enc := EncodeQuery(c, q);
    TailAfter(key, enc);
    if enc != "" {
      key := key + "?" + enc;
    }
    ok := true;
  }

  // ---------------------------------------------------------------- splitting strings apart

  lemma FirstChar(b: string, y: string)
    ensures b != "" ==> b + y != "" && (b + y)[0] == b[0]
  {
  }

  /** Two strings cut at the first occurrence of `c` agree exactly piece by piece. */
  lemma {:induction false} CutAtFirst(a: string, x: string, b: string, y: string, c: char)
    requires NoChar(a, c) && NoChar(b, c)
    requires (x == "" || x[0] == c) && (y == "" || y[0] == c)
    requires a + x == b + y
    ensures a == b && x == y
  {
    if a == "" {
      assert a + x == x;
      FirstChar(b, y);
      assert b + y == y;
    } else {
      assert (a + x)[0] == a[0] && (b == "" ==> b + y == y);
      assert (b + y)[0] == b[0];
      assert (a + x)[1..] == a[1..] + x && (b + y)[1..] == b[1..] + y;
      CutAtFirst(a[1..], x, b[1..], y, c);
      assert a == [a[0]] + a[1..] && b == [b[0]] + b[1..];
    }
  }

  // ---------------------------------------------------------------- encoding is injective

  lemma TokenInjective(c: Conv, p: Pair, r: Pair)
    requires Escaping(c.escape) && Token(c, p) == Token(c, r)
    ensures p == r
  {
    var x, y := "=" + c.escape(p.value), "=" + c.escape(r.value);
    assert c.escape(p.name) + x == Token(c, p) && c.escape(r.name) + y == Token(c, r);
    CutAtFirst(c.escape(p.name), x, c.escape(r.name), y, '=');
    assert x[1..] == c.escape(p.value) && y[1..] == c.escape(r.value);
  }

  function JoinRest(c: Conv, ps: seq<Pair>): string
    requires ps != []
  {
    if |ps| == 1 then "" else "&" + Join(c, ps[1..])
  }

  lemma JoinSplits(c: Conv, ps: seq<Pair>)
    requires ps != []
    ensures Join(c, ps) == Token(c, ps[0]) + JoinRest(c, ps) && Join(c, ps) != ""
  {
    if |ps| == 1 { assert Token(c, ps[0]) + "" == Token(c, ps[0]); }
  }

  lemma TokenHidesAnd(c: Conv, p: Pair)
    requires Escaping(c.escape)
    ensures NoChar(Token(c, p), '&')
  {
  }

  lemma {:induction false} JoinInjective(c: Conv, ps: seq<Pair>, rs: seq<Pair>)
    requires Escaping(c.escape) && Join(c, ps) == Join(c, rs)
    ensures ps == rs
    decreases |ps|
  {
    if ps != [] { JoinSplits(c, ps); }
    if rs != [] { JoinSplits(c, rs); }
    if ps != [] && rs != [] {
      TokenHidesAnd(c, ps[0]);
      TokenHidesAnd(c, rs[0]);
      CutAtFirst(Token(c, ps[0]), JoinRest(c, ps), Token(c, rs[0]), JoinRest(c, rs), '&');
      TokenInjective(c, ps[0], rs[0]);
      if |ps| > 1 {
        assert JoinRest(c, ps)[1..] == Join(c, ps[1..]) && JoinRest(c, rs)[1..] == Join(c, rs[1..]);
        JoinInjective(c, ps[1..], rs[1..]);
      }
      assert ps == [ps[0]] + ps[1..] && rs == [rs[0]] + rs[1..];
    }
  }

  function ValuesOf(ps: seq<Pair>, name: string): seq<string> {
    if ps == [] then []
    else if ps[0].name == name then [ps[0].value] + ValuesOf(ps[1..], name)
    else ValuesOf(ps[1..], name)
  }

  function Get(q: map<string, seq<string>>, name: string): seq<string> { if name in q then q[name] else [] }

  lemma {:induction false} ValuesOfConcat(ps: seq<Pair>, rs: seq<Pair>, name: string)
    ensures ValuesOf(ps + rs, name) == ValuesOf(ps, name) + ValuesOf(rs, name)
  {
    if ps == [] {
      assert ps + rs == rs;
    } else {
      assert (ps + rs)[1..] == ps[1..] + rs;
      ValuesOfConcat(ps[1..], rs, name);
    }
  }

  lemma {:induction false} ValuesOfOne(k: string, values: seq<string>, name: string)
    ensures ValuesOf(PairsOf(k, values), name) == if k == name then values else []
  {
    if values != [] {
      ValuesOfOne(k, values[1..], name);
      assert PairsOf(k, values)[1..] == PairsOf(k, values[1..]);
      assert values == [values[0]] + values[1..];
    }
  }

  /** The written pairs hold each name's values, in order. */
  lemma {:induction false} PairsHoldTheMap(q: map<string, seq<string>>, name: string)
    ensures ValuesOf(Pairs(q), name) == Get(q, name)
    decreases |q|
  {
    if q != map[] {
      var k := Least(q.Keys);
      assert (q - {k}).Keys == q.Keys - {k};
      assert |q - {k}| < |q|;
      PairsHoldTheMap(q - {k}, name);
      ValuesOfConcat(PairsOf(k, q[k]), Pairs(q - {k}), name);
      ValuesOfOne(k, q[k], name);
    }
  }

  // ---------------------------------------------------------------- equivalence of URLs

  /** The query arguments that count: per name that is no tracker, the multiset of values. */
  ghost predicate SameQuery(a: map<string, seq<string>>, b: map<string, seq<string>>) {
    forall name | !Tracker(name) :: multiset(Get(a, name)) == multiset(Get(b, name))
  }

  lemma NormQueryGet(q: map<string, seq<string>>, name: string)
    ensures Get(NormQuery(q), name) == if Tracker(name) then [] else Sort(Get(q, name))
  {
  }

  lemma NonEmptyNormQuery(q: map<string, seq<string>>, name: string)
    requires forall k | k in q :: q[k] != []
    ensures name in NormQuery(q) <==> Get(NormQuery(q), name) != []
  {
    if name in NormQuery(q) {
      SortSorts(q[name]);
      assert |multiset(q[name])| > 0 && |multiset(Sort(q[name]))| > 0;
    }
  }

  /** Equal encodings mean equal queries up to parameter order and trackers, and conversely. */
  lemma EncodingDecidesQuery(c: Conv, a: map<string, seq<string>>, b: map<string, seq<string>>)
    requires Escaping(c.escape)
    requires (forall k | k in a :: a[k] != []) && (forall k | k in b :: b[k] != [])
    ensures Encode(c, NormQuery(a)) == Encode(c, NormQuery(b)) <==> SameQuery(a, b)
  {
    if Encode(c, NormQuery(a)) == Encode(c, NormQuery(b)) {
      JoinInjective(c, Pairs(NormQuery(a)), Pairs(NormQuery(b)));
      forall name | !Tracker(name) ensures multiset(Get(a, name)) == multiset(Get(b, name)) {
        PairsHoldTheMap(NormQuery(a), name);
        PairsHoldTheMap(NormQuery(b), name);
        NormQueryGet(a, name);
        NormQueryGet(b, name);
        SortIsCanonical(Get(a, name), Get(b, name));
      }
    }
    if SameQuery(a, b) {
      SameQueryNormalises(a, b);
    }
  }

  lemma SameQueryNormalises(a: map<string, seq<string>>, b: map<string, seq<string>>)
    requires (forall k | k in a :: a[k] != []) && (forall k | k in b :: b[k] != [])
    requires SameQuery(a, b)
    ensures NormQuery(a) == NormQuery(b)
  {
    forall name ensures Get(NormQuery(a), name) == Get(NormQuery(b), name) {
      NormQueryGet(a, name);
      NormQueryGet(b, name);
      if !Tracker(name) { SortIsCanonical(Get(a, name), Get(b, name)); }
    }
    forall name ensures name in NormQuery(a) <==> name in NormQuery(b) {
      NonEmptyNormQuery(a, name);
      NonEmptyNormQuery(b, name);
      assert Get(NormQuery(a), name) == Get(NormQuery(b), name);
    }
    forall name | name in NormQuery(a) ensures NormQuery(a)[name] == NormQuery(b)[name] {
      assert Get(NormQuery(a), name) == Get(NormQuery(b), name);
    }
  }

  lemma NormPathDecides(p: string, r: string)
    requires (p == "" || p[0] == '/') && (r == "" || r[0] == '/')
    ensures NormPath(p) == NormPath(r) <==> TrimSlashes(p) == TrimSlashes(r)
    ensures NormPath(p) != "" && NormPath(p)[0] == '/'
    ensures NoChar(p, '?') ==> NoChar(NormPath(p), '?')
  {
    NormPathIs(p);
    NormPathIs(r);
    BaseIsTrimmed(p, TrimSlashes(p));
    BaseIsTrimmed(r, TrimSlashes(r));
  }

  lemma NormPathIs(p: string)
    requires p == "" || p[0] == '/'
    ensures NormPath(p) == if TrimSlashes(p) == "" then "/" else TrimSlashes(p)
  {
    if |p| == 1 { assert p == "/" && p[..0] == ""; }
  }

  /** Two strings cut at the last `m`. */
  lemma CutAtLast(a: string, p: string, b: string, q: string, m: char)
    requires NoChar(p, m) && NoChar(q, m) && a + [m] + p == b + [m] + q
    ensures a == b && p == q
  {
    var s, t := a + [m] + p, b + [m] + q;
    assert forall k | |a| < k < |s| :: s[k] == p[k - |a| - 1];
    assert forall k | |b| < k < |t| :: t[k] == q[k - |b| - 1];
    assert s[|a|] == m && t[|b|] == m;
    assert |a| == |b|;
    assert s[..|a|] == a && t[..|b|] == b && s[|a| + 1..] == p && t[|b| + 1..] == q;
  }

  predicate PortInHost(c: Conv, a: Url, b: Url) {
    NormPort(a) == "" && NormPort(b) != "" && NormHost(c, a) == NormHost(c, b) + ":" + NormPort(b)
  }

  lemma HostPortDecides(c: Conv, a: Url, b: Url)
    requires NoChar(a.port, ':') && NoChar(b.port, ':')
    ensures HostPort(c, a) == HostPort(c, b) <==>
      || (NormHost(c, a) == NormHost(c, b) && NormPort(a) == NormPort(b))
      || PortInHost(c, a, b) || PortInHost(c, b, a)
  {
    if HostPort(c, a) == HostPort(c, b) && NormPort(a) != "" && NormPort(b) != "" {
      CutAtLast(NormHost(c, a), NormPort(a), NormHost(c, b), NormPort(b), ':');
    }
  }

  lemma NormHostChars(c: Conv, u: Url, m: char)
    requires Keeps(c.fold, m) && NoChar(u.host, m)
    ensures NoChar(NormHost(c, u), m)
  {
    assert NoChar(Lower(c.fold, u.host), m);
  }

  lemma Reassociate(a: string, b: string, c: string, d: string, e: string)
    ensures a + b + c + d + e == a + (b + (c + (d + e)))
  {
  }

  /** The key read as nested pieces, each ended by a mark the piece before it cannot contain. */
  lemma KeyPieces(c: Conv, u: Url)
    requires Folding(c.fold) && Parsed(u) && u.host != ""
    ensures var path, tail := NormPath(u.path), Tail(Encode(c, NormQuery(u.query)));
            Key(c, u) == Some(NormScheme(c, u) + ("://" + (HostPort(c, u) + (path + tail))))
            && NoChar(NormScheme(c, u), ':') && NoChar(HostPort(c, u), '/') && NoChar(path, '?') && path != ""
                && path[0] == '/'
  {
    var path, tail := NormPath(u.path), Tail(Encode(c, NormQuery(u.query)));
    var s, h := NormScheme(c, u), HostPort(c, u);
    Reassociate(s, "://", h, path, tail);
    assert NoChar(Lower(c.fold, u.scheme), ':');
    NormHostChars(c, u, '/');
    NormPathDecides(u.path, u.path);
  }

  /** What two URLs must share to have one key, whatever their hosts and ports. */
  ghost predicate SameRest(c: Conv, a: Url, b: Url) {
    && SameScheme(Lower(c.fold, a.scheme), Lower(c.fold, b.scheme))
    && SamePath(a.path, b.path)
    && SameQuery(a.query, b.query)
  }

  ghost predicate SamePage(c: Conv, a: Url, b: Url) {
    && SameRest(c, a, b)
    && SameSite(Lower(c.fold, a.host), Lower(c.fold, b.host)) && SamePort(a.port, b.port)
  }

  /** `a` has no port of its own, and its host is that of `b` with the port of `b` after a
      colon: with the brackets gone, the port reads as one more group of the address. */
  ghost predicate PortReadsAsHost(c: Conv, a: Url, b: Url) {
    && DefaultPort(a.port) && !DefaultPort(b.port)
    && exists site :: IsSite(Lower(c.fold, b.host), site) && IsSite(Lower(c.fold, a.host), site + ":" + b.port)
  }

  /** The parts of the key say what they should of the parts of the URLs. */
  lemma PartsDecide(c: Conv, a: Url, b: Url)
    ensures NormScheme(c, a) == NormScheme(c, b) <==> SameScheme(Lower(c.fold, a.scheme), Lower(c.fold, b.scheme))
    ensures NormPort(a) == NormPort(b) <==> SamePort(a.port, b.port)
    ensures NormHost(c, a) == NormHost(c, b) <==> SameSite(Lower(c.fold, a.host), Lower(c.fold, b.host))
    ensures TrimSlashes(a.path) == TrimSlashes(b.path) <==> SamePath(a.path, b.path)
    ensures PortInHost(c, a, b) <==> PortReadsAsHost(c, a, b)
  {
    SitesDecide(c, a, b);
    BaseIsTrimmed(a.path, TrimSlashes(a.path));
    BaseIsTrimmed(b.path, TrimSlashes(a.path));
    forall base ensures IsBase(a.path, base) && IsBase(b.path, base) ==> TrimSlashes(a.path) == TrimSlashes(b.path) {
      BaseIsTrimmed(a.path, base);
      BaseIsTrimmed(b.path, base);
    }
  }

  lemma SitesDecide(c: Conv, a: Url, b: Url)
    ensures NormHost(c, a) == NormHost(c, b) <==> SameSite(Lower(c.fold, a.host), Lower(c.fold, b.host))
    ensures PortInHost(c, a, b) <==> PortReadsAsHost(c, a, b)
  {
    var h, k := Lower(c.fold, a.host), Lower(c.fold, b.host);
    forall site ensures IsSite(h, site) <==> site == TrimWww(h) { SiteIsTrimmed(h, site); }
    forall site ensures IsSite(k, site) <==> site == TrimWww(k) { SiteIsTrimmed(k, site); }
    assert IsSite(h, TrimWww(h)) && IsSite(k, TrimWww(k));
  }

  lemma KeyDecidesPieces(c: Conv, a: Url, b: Url)
    requires Folding(c.fold) && Escaping(c.escape) && Parsed(a) && Parsed(b) && a.host != "" && b.host != ""
    ensures Key(c, a) == Key(c, b) <==>
      && NormScheme(c, a) == NormScheme(c, b) && HostPort(c, a) == HostPort(c, b)
      && NormPath(a.path) == NormPath(b.path) && Encode(c, NormQuery(a.query)) == Encode(c, NormQuery(b.query))
  {
    KeyPieces(c, a);
    KeyPieces(c, b);
    if Key(c, a) == Key(c, b) {
      var ta, tb := Tail(Encode(c, NormQuery(a.query))), Tail(Encode(c, NormQuery(b.query)));
      var pa, pb := NormPath(a.path), NormPath(b.path);
      var ha, hb := HostPort(c, a), HostPort(c, b);
      CutAtFirst(NormScheme(c, a), "://" + (ha + (pa + ta)), NormScheme(c, b), "://" + (hb + (pb + tb)), ':');
      assert ("://" + (ha + (pa + ta)))[3..] == ha + (pa + ta) && ("://" + (hb + (pb + tb)))[3..] == hb + (pb + tb);
      CutAtFirst(ha, pa + ta, hb, pb + tb, '/');
      CutAtFirst(pa, ta, pb, tb, '?');
      TailInjective(Encode(c, NormQuery(a.query)), Encode(c, NormQuery(b.query)));
    }
  }

  lemma TailInjective(x: string, y: string)
    requires Tail(x) == Tail(y)
    ensures x == y
  {
    if x != "" && y != "" { assert Tail(x)[1..] == x && Tail(y)[1..] == y; }
  }

  /** What one key means, for all hosts: the same page, or two pages of which one has the
      other's host and port as its host. The two cases exclude each other. */
  lemma KeyEqualityIff(c: Conv, a: Url, b: Url)
    requires Folding(c.fold) && Escaping(c.escape) && Parsed(a) && Parsed(b) && a.host != "" && b.host != ""
    ensures Key(c, a) == Key(c, b) <==>
      || SamePage(c, a, b)
      || (SameRest(c, a, b) && (PortReadsAsHost(c, a, b) || PortReadsAsHost(c, b, a)))
    ensures SamePage(c, a, b) ==> !PortReadsAsHost(c, a, b) && !PortReadsAsHost(c, b, a)
  {
    KeyDecidesPieces(c, a, b);
    HostPortDecides(c, a, b);
    NormPathDecides(a.path, b.path);
    EncodingDecidesQuery(c, a.query, b.query);
    PartsDecide(c, a, b);
    PartsDecide(c, b, a);
  }

  /** Only a host with a colon can hold another's port. */
  lemma NamesHoldNoPorts(c: Conv, a: Url, b: Url)
    requires Folding(c.fold) && NoChar(a.host, ':')
    ensures !PortReadsAsHost(c, a, b)
  {
    SitesDecide(c, a, b);
    NormHostChars(c, a, ':');
    assert ':' in NormHost(c, b) + ":" + NormPort(b) by {
      assert (NormHost(c, b) + ":" + NormPort(b))[|NormHost(c, b)|] == ':';
    }
  }

  /** Without IPv6 hosts the key is a complete invariant: two URLs get the same key exactly
      when they agree on folded scheme, host less one leading "www.", non-default port, path
      less trailing slashes, and the values of every non-tracker parameter in any order. */
  lemma KeyIsCompleteInvariant(c: Conv, a: Url, b: Url)
    requires Folding(c.fold) && Escaping(c.escape) && Parsed(a) && Parsed(b) && a.host != "" && b.host != ""
    requires NoChar(a.host, ':') && NoChar(b.host, ':')
    ensures Key(c, a) == Key(c, b) <==> SamePage(c, a, b)
  {
    KeyEqualityIff(c, a, b);
    NamesHoldNoPorts(c, a, b);
    NamesHoldNoPorts(c, b, a);
  }

  /** Which parameters are trackers: those that can be added without changing the key. */
  lemma TrackersLeaveTheKey(c: Conv, u: Url, name: string, values: seq<string>)
    requires Folding(c.fold) && Escaping(c.escape) && Parsed(u) && u.host != ""
    requires name !in u.query && values != []
    ensures Key(c, u.(query := u.query[name := values])) == Key(c, u) <==>
      "utm_" <= name || name in {"ref", "ref_src", "fbclid", "gclid", "mc_cid", "mc_eid", "_ga"}
  {
    var v := u.(query := u.query[name := values]);
    AddedParameter(u.query, name, values);
    EncodingDecidesQuery(c, v.query, u.query);
    KeyOfQuery(c, v, u);
    TrackersAre(name);
  }

  lemma TrackersAre(name: string)
    ensures Tracker(name) <==>
      "utm_" <= name || name in {"ref", "ref_src", "fbclid", "gclid", "mc_cid", "mc_eid", "_ga"}
  {
  }

  lemma AddedParameter(q: map<string, seq<string>>, name: string, values: seq<string>)
    requires name !in q && values != []
    ensures SameQuery(q[name := values], q) <==> Tracker(name)
  {
    var r := q[name := values];
    assert forall n | n != name :: Get(r, n) == Get(q, n);
    assert |multiset(Get(r, name))| > 0 && |multiset(Get(q, name))| == 0;
  }

  /** URLs that differ in the query only share a key exactly when their queries encode alike. */
  lemma KeyOfQuery(c: Conv, a: Url, b: Url)
    requires Folding(c.fold) && Escaping(c.escape) && Parsed(a) && Parsed(b) && a.host != ""
    requires a == b.(query := a.query)
    ensures Key(c, a) == Key(c, b) <==> Encode(c, NormQuery(a.query)) == Encode(c, NormQuery(b.query))
  {
    KeyDecidesPieces(c, a, b);
  }

  /** A URL already in normal form, without a query, is its own key. */
  lemma NormalFormIsItsOwnKey(c: Conv, u: Url)
    requires Lower(c.fold, u.scheme) == u.scheme != "http" && Lower(c.fold, u.host) == u.host != ""
    requires !("www." <= u.host) && u.port !in {"80", "443"} && u.query == map[]
    requires u.path == "/" || (u.path != "" && u.path[|u.path| - 1] != '/')
    ensures Key(c, u) == Some(u.scheme + "://" + u.host + (if u.port == "" then "" else ":" + u.port) + u.path)
  {
    SiteIsTrimmed(u.host, u.host);
    BaseIsTrimmed(u.path, u.path);
    assert NormQuery(u.query) == map[];
    var start := u.scheme + "://";
    assert start + (u.host + ":" + u.port) == start + u.host + (":" + u.port) && start + u.host + "" == start + u.host;
    assert HostPort(c, u) == if u.port == "" then u.host else u.host + ":" + u.port;
    var key := start + HostPort(c, u) + u.path;
    assert key + "" == key;
  }

  lemma OneParameterEncodes(c: Conv, name: string, value: string)
    requires !Tracker(name)
    ensures Encode(c, NormQuery(map[name := [value]])) == c.escape(name) + "=" + c.escape(value)
  {
    var q: map<string, seq<string>> := map[name := [value]];
    assert Sort([value]) == [value];
    assert NormQuery(q) == q;
    assert Least(q.Keys) == name && q - {name} == map[];
    PairsUnfold(q, name);
    assert PairsOf(name, [value]) == [Pair(name, value)];
  }

  /** A parameter that is no tracker is written after a question mark, name first. */
  lemma OneParameter(c: Conv, u: Url, bare: string, name: string, value: string)
    requires u.host != "" && u.query == map[] && Key(c, u) == Some(bare) && !Tracker(name)
    ensures Key(c, u.(query := map[name := [value]])) == Some(bare + "?" + c.escape(name) + "=" + c.escape(value))
  {
    OneParameterEncodes(c, name, value);
    var enc := c.escape(name) + "=" + c.escape(value);
    assert NormQuery(u.query) == map[];
    TailAfter(Stem(c, u), "");
    TailAfter(bare, enc);
    assert bare + "?" + enc == bare + "?" + c.escape(name) + "=" + c.escape(value);
    assert Stem(c, u.(query := map[name := [value]])) == Stem(c, u);
  }

  /** The pairs are written by name. */
  lemma {:induction false} PairsAreSorted(q: map<string, seq<string>>)
    ensures forall i, j | 0 <= i < j < |Pairs(q)| :: LessEq(Pairs(q)[i].name, Pairs(q)[j].name)
    ensures forall i | 0 <= i < |Pairs(q)| :: Pairs(q)[i].name in q
    decreases |q|
  {
    if q != map[] {
      var k := Least(q.Keys);
      PairsUnfold(q, k);
      PairsAreSorted(q - {k});
      PairsOfIs(k, q[k]);
    }
  }

  lemma {:induction false} PairsOfIs(name: string, values: seq<string>)
    ensures |PairsOf(name, values)| == |values|
    ensures forall i | 0 <= i < |values| :: PairsOf(name, values)[i] == Pair(name, values[i])
  {
    if values != [] { PairsOfIs(name, values[1..]); }
  }

  predicate NoCapitals(s: string) { forall i | 0 <= i < |s| :: s[i] < 'A' || 'Z' < s[i] }

  lemma Ipv6Host(c: Conv, u: Url)
    requires c.fold == AsciiLower && u.host != "" && u.host[0] == ':' && NoCapitals(u.host)
    ensures Lower(c.fold, u.host) == u.host && NormHost(c, u) == u.host
  {
    assert "www."[0] != ':';
  }

  /** With IPv6 hosts the key merges different pages: brackets are gone, so a port reads as one
      more group of the address. This is so for every address that begins with a colon and
      every port of its own. */
  lemma Ipv6PortsCollide(c: Conv, a: Url, b: Url)
    requires c.fold == AsciiLower && a.host != "" && a.host[0] == ':' && NoCapitals(a.host) && NoCapitals(a.port)
    requires a.port !in {"", "80", "443"} && b == a.(host := a.host + ":" + a.port, port := "")
    ensures Key(c, a) == Key(c, b) && !SamePage(c, a, b)
  {
    Ipv6Host(c, a);
    assert NoCapitals(":" + a.port);
    Ipv6Host(c, b);
    SitesDecide(c, a, b);
  }
}
