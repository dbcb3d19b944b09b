/** Small facts about sets, sequences and counting that several modules share. */
module Collections {

  /** Some member of a set, no particular one. */
  ghost function SomeOf<T>(s: set<T>): (x: T)
    requires s != {}
    ensures x in s
  {
    var x :| x in s;
    x
  }

  lemma {:induction false} SubsetSize<T>(a: set<T>, b: set<T>)
    requires a <= b
    ensures |a| <= |b|
    decreases |a|
  {
    if a != {} {
      var x := SomeOf(a);
      SubsetSize(a - {x}, b - {x});
    }
  }

  function Bit(b: bool): nat { if b then 1 else 0 }

  /** The first `n` elements, or all of them. */
  function Take<T>(s: seq<T>, n: nat): (r: seq<T>)
    ensures r <= s && |r| == if |s| < n then |s| else n
  {
    if |s| <= n then s else s[..n]
  }

  function Without<T>(s: seq<T>, k: nat): seq<T>
    requires k < |s|
  {
    s[..k] + s[k + 1..]
  }

  lemma SplitAt<T>(s: seq<T>, k: nat)
    requires k < |s|
    ensures s == s[..k] + [s[k]] + s[k + 1..]
    ensures multiset(s) == multiset(Without(s, k)) + multiset{s[k]}
  {
    assert s == s[..k] + [s[k]] + s[k + 1..];
  }

  lemma Cancel<T>(m: multiset<T>, k: multiset<T>, x: T)
    requires m + multiset{x} == k + multiset{x}
    ensures m == k
  {
    assert m == m + multiset{x} - multiset{x} && k == k + multiset{x} - multiset{x};
  }

  /** A place in `b` of the last element of `a`; without the two the lists still hold the
      same elements. */
  lemma MatchLast<T>(a: seq<T>, b: seq<T>) returns (l: nat)
    requires multiset(a) == multiset(b) && a != []
    ensures l < |b| && b[l] == a[|a| - 1]
    ensures multiset(a[..|a| - 1]) == multiset(Without(b, l))
  {
    var n := |a| - 1;
    assert a[n] in multiset(b);
    l :| 0 <= l < |b| && b[l] == a[n];
    SplitAt(b, l);
    SplitAt(a, n);
    assert Without(a, n) == a[..n];
    Cancel(multiset(a[..n]), multiset(Without(b, l)), a[n]);
  }
}
