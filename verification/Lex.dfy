/** Byte order on strings, the order of `bytes.Compare`, `sort.Strings` and the store's keys. */
module Lex {

  predicate Less(a: string, b: string) {
    if b == [] then false
    else if a == [] then true
    else a[0] < b[0] || (a[0] == b[0] && Less(a[1..], b[1..]))
  }

  predicate LessEq(a: string, b: string) { a == b || Less(a, b) }

  lemma {:induction false} Irreflexive(a: string)
    ensures !Less(a, a)
  {
    if a != [] { Irreflexive(a[1..]); }
  }

  lemma {:induction false} Transitive(a: string, b: string, c: string)
    requires Less(a, b) && Less(b, c)
    ensures Less(a, c)
  {
    if a != [] && a[0] == b[0] && b[0] == c[0] { Transitive(a[1..], b[1..], c[1..]); }
  }

  lemma {:induction false} Total(a: string, b: string)
    ensures Less(a, b) || a == b || Less(b, a)
  {
    if a != [] && b != [] && a[0] == b[0] {
      Total(a[1..], b[1..]);
      assert a == [a[0]] + a[1..] && b == [b[0]] + b[1..];
    }
  }

  lemma Asymmetric(a: string, b: string)
    requires Less(a, b)
    ensures !Less(b, a) && a != b
  {
    Irreflexive(a);
    if Less(b, a) { Transitive(a, b, a); }
  }

  /** A common prefix does not matter. */
  lemma {:induction false} SamePrefix(p: string, a: string, b: string)
    ensures Less(p + a, p + b) <==> Less(a, b)
  {
    if p == [] {
      assert p + a == a && p + b == b;
    } else {
      assert (p + a)[1..] == p[1..] + a && (p + b)[1..] == p[1..] + b;
      SamePrefix(p[1..], a, b);
    }
  }

  /** The strings between `p` and `p + [top]` are those that continue `p` below `top`. */
  lemma {:induction false} Between(p: string, top: char, k: string)
    ensures LessEq(p, k) && Less(k, p + [top]) <==> p <= k && (k == p || k[|p|] < top)
  {
    if p == [] {
      assert p + [top] == [top];
    } else {
      assert (p + [top])[1..] == p[1..] + [top];
      if k != [] && k[0] == p[0] {
        Between(p[1..], top, k[1..]);
        assert k == [k[0]] + k[1..] && p == [p[0]] + p[1..];
        assert p <= k <==> p[1..] <= k[1..];
      }
    }
  }
}
