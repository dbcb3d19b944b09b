/** Lower-casing and sorting of strings.

    `fold` is the lower-casing of one character. The theorems that use it hold for any
    folding that is idempotent and leaves the marks that structure hosts and URLs alone. */
module Text {
  import opened Lex

  type Fold = char -> char

  ghost predicate Keeps(fold: Fold, mark: char) { forall c :: fold(c) == mark <==> c == mark }

  ghost predicate Folding(fold: Fold) {
    && Keeps(fold, '.') && Keeps(fold, '/') && Keeps(fold, ':') && Keeps(fold, '?')
    && (forall c :: fold(fold(c)) == fold(c))
  }

  function AsciiLower(c: char): char {
    if 'A' <= c <= 'Z' then (c as int + 32) as char else c
  }

  lemma AsciiIsFolding()
    ensures Folding(AsciiLower)
    ensures forall i | 0 <= i < 26 ::
      AsciiLower("ABCDEFGHIJKLMNOPQRSTUVWXYZ"[i]) == "abcdefghijklmnopqrstuvwxyz"[i]
    ensures forall c | c !in "ABCDEFGHIJKLMNOPQRSTUVWXYZ" :: AsciiLower(c) == c
  {
    var upper := "ABCDEFGHIJKLMNOPQRSTUVWXYZ";
    forall c | 'A' <= c <= 'Z' ensures c in upper { assert upper[c as int - 65] == c; }
  }

  function Lower(fold: Fold, s: string): (r: string)
    ensures |r| == |s| && forall i | 0 <= i < |s| :: r[i] == fold(s[i])
  {
    if s == "" then "" else [fold(s[0])] + Lower(fold, s[1..])
  }

  // ---------------------------------------------------------------- sort.Strings

  predicate Sorted(s: seq<string>) { forall i, j | 0 <= i < j < |s| :: LessEq(s[i], s[j]) }

  function Insert(x: string, s: seq<string>): seq<string> {
    if s == [] then [x] else if LessEq(x, s[0]) then [x] + s else [s[0]] + Insert(x, s[1..])
  }

  function Sort(s: seq<string>): seq<string> {
    if s == [] then [] else Insert(s[0], Sort(s[1..]))
  }

  lemma LessEqTransitive(a: string, b: string, c: string)
    requires LessEq(a, b) && LessEq(b, c)
    ensures LessEq(a, c)
  {
    if a != b && b != c { Transitive(a, b, c); }
  }

  lemma LessEqAntisymmetric(a: string, b: string)
    requires LessEq(a, b) && LessEq(b, a)
    ensures a == b
  {
    if a != b { Asymmetric(a, b); }
  }

  lemma {:induction false} InsertSorts(x: string, s: seq<string>)
    requires Sorted(s)
    ensures Sorted(Insert(x, s)) && multiset(Insert(x, s)) == multiset(s) + multiset{x}
  {
    if s == [] {
    } else if LessEq(x, s[0]) {
      forall i | 0 < i < |s| ensures LessEq(x, s[i]) { LessEqTransitive(x, s[0], s[i]); }
    } else {
      Total(x, s[0]);
      assert s == [s[0]] + s[1..];
      InsertSorts(x, s[1..]);
      var r := Insert(x, s[1..]);
      forall i | 0 <= i < |r| ensures LessEq(s[0], r[i]) {
        assert r[i] in multiset(r);
        if r[i] != x { assert r[i] in s[1..]; }
      }
    }
  }

  lemma {:induction false} SortSorts(s: seq<string>)
    ensures Sorted(Sort(s)) && multiset(Sort(s)) == multiset(s)
  {
    if s != [] {
      SortSorts(s[1..]);
      InsertSorts(s[0], Sort(s[1..]));
      assert s == [s[0]] + s[1..];
    }
  }

  lemma {:induction false} SortedIsUnique(a: seq<string>, b: seq<string>)
    requires Sorted(a) && Sorted(b) && multiset(a) == multiset(b)
    ensures a == b
  {
    if a == [] {
      assert |multiset(b)| == 0;
    } else {
      assert |multiset(a)| == |a| && |multiset(b)| == |b|;
      HeadIsLeast(a, b);
      HeadIsLeast(b, a);
      LessEqAntisymmetric(a[0], b[0]);
      assert a == [a[0]] + a[1..] && b == [b[0]] + b[1..];
      assert multiset(a[1..]) == multiset(a) - multiset{a[0]} == multiset(b[1..]);
      SortedIsUnique(a[1..], b[1..]);
    }
  }

  lemma HeadIsLeast(a: seq<string>, b: seq<string>)
    requires Sorted(a) && a != [] && b != [] && multiset(a) == multiset(b)
    ensures LessEq(a[0], b[0])
  {
    assert b[0] in multiset(b);
    assert b[0] in a;
  }

  /** Sorting forgets exactly the order. */
  lemma {:induction false} SortIsCanonical(a: seq<string>, b: seq<string>)
    ensures Sort(a) == Sort(b) <==> multiset(a) == multiset(b)
  {
    SortSorts(a);
    SortSorts(b);
    if multiset(a) == multiset(b) { SortedIsUnique(Sort(a), Sort(b)); }
  }
}
