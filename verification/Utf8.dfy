/** Cutting UTF-8 text on a character boundary, and bounding the evidence of each source. */
module Utf8 {
  import opened Bytes

  predicate In(b: byte, lo: int, hi: int) { lo <= b as int <= hi }

  /** A continuation byte. */
  predicate Tail(b: byte) { In(b, 0x80, 0xbf) }

  predicate RuneStart(b: byte) { !Tail(b) }

  /** Length of the well-formed character at the front of `s` (section 4 of RFC 3629), or 0. */
  function CharLen(s: bytes): nat {
    if |s| >= 1 && In(s[0], 0x00, 0x7f) then 1
    else if |s| >= 2 && In(s[0], 0xc2, 0xdf) && Tail(s[1]) then 2
    else if |s| >= 3 && ThreeLead(s[0], s[1]) && Tail(s[2]) then 3
    else if |s| >= 4 && FourLead(s[0], s[1]) && Tail(s[2]) && Tail(s[3]) then 4
    else 0
  }

  predicate ThreeLead(a: byte, b: byte) {
    || (In(a, 0xe0, 0xe0) && In(b, 0xa0, 0xbf))
    || (In(a, 0xe1, 0xec) && Tail(b))
    || (In(a, 0xed, 0xed) && In(b, 0x80, 0x9f))
    || (In(a, 0xee, 0xef) && Tail(b))
  }

  predicate FourLead(a: byte, b: byte) {
    || (In(a, 0xf0, 0xf0) && In(b, 0x90, 0xbf))
    || (In(a, 0xf1, 0xf3) && Tail(b))
    || (In(a, 0xf4, 0xf4) && In(b, 0x80, 0x8f))
  }

  predicate Valid(s: bytes) {
    s == [] || (0 < CharLen(s) <= |s| && Valid(s[CharLen(s)..]))
  }

  // ---------------------------------------------------------------- what characters are

  /** The code points a character can have: all but the surrogates. */
  predicate Scalar(cp: int) { 0 <= cp < 0xd800 || 0xe000 <= cp < 0x110000 }

  function B(n: int): byte
    requires 0 <= n < 256
  {
    n as char
  }

  /** Section 3 of RFC 3629: the bits of the code point, six to each continuation byte. */
  function Encoded(cp: int): (r: bytes)
    requires Scalar(cp)
    ensures 1 <= |r| <= 4
  {
    if cp < 0x80 then [B(cp)]
    else if cp < 0x800 then [B(0xc0 + cp / 64), B(0x80 + cp % 64)]
    else if cp < 0x10000 then [B(0xe0 + cp / 4096), B(0x80 + cp / 64 % 64), B(0x80 + cp % 64)]
    else [B(0xf0 + cp / 262144), B(0x80 + cp / 4096 % 64), B(0x80 + cp / 64 % 64), B(0x80 + cp % 64)]
  }

  lemma TwoBytes(s: bytes) returns (cp: int)
    requires CharLen(s) == 2
    ensures Scalar(cp) && s[..2] == Encoded(cp)
  {
    var x, y := s[0] as int - 0xc0, s[1] as int - 0x80;
    cp := x * 64 + y;
    assert cp / 64 == x && cp % 64 == y;
  }

  lemma ThreeBytes(s: bytes) returns (cp: int)
    requires CharLen(s) == 3
    ensures Scalar(cp) && s[..3] == Encoded(cp)
  {
    var x, y, z := s[0] as int - 0xe0, s[1] as int - 0x80, s[2] as int - 0x80;
    cp := (x * 64 + y) * 64 + z;
    assert cp / 64 == x * 64 + y && cp % 64 == z && cp / 4096 == x;
  }

  lemma FourBytes(s: bytes) returns (cp: int)
    requires CharLen(s) == 4
    ensures Scalar(cp) && s[..4] == Encoded(cp)
  {
    var w, x, y, z := s[0] as int - 0xf0, s[1] as int - 0x80, s[2] as int - 0x80, s[3] as int - 0x80;
    cp := ((w * 64 + x) * 64 + y) * 64 + z;
    assert cp / 64 == (w * 64 + x) * 64 + y && cp % 64 == z;
    assert cp / 4096 == w * 64 + x && cp / 262144 == w;
  }

  /** The table of well-formed characters lists exactly the encodings of code points. */
  lemma CharactersAreEncodings(s: bytes)
    ensures CharLen(s) > 0 <==> exists cp :: Scalar(cp) && Encoded(cp) <= s
    ensures forall cp | Scalar(cp) && Encoded(cp) <= s :: |Encoded(cp)| == CharLen(s)
  {
    forall cp | Scalar(cp) && Encoded(cp) <= s ensures |Encoded(cp)| == CharLen(s) {
      assert s == Encoded(cp) + s[|Encoded(cp)|..];
      EncodedIsChar(cp, s[|Encoded(cp)|..]);
    }
    if CharLen(s) > 0 { var cp := FirstCodePoint(s); }
  }

  lemma FirstCodePoint(s: bytes) returns (cp: int)
    requires CharLen(s) > 0
    ensures Scalar(cp) && Encoded(cp) <= s
  {
    match CharLen(s) {
      case 1 => cp := s[0] as int;
      case 2 => cp := TwoBytes(s);
      case 3 => cp := ThreeBytes(s);
      case _ => cp := FourBytes(s);
    }
  }

  lemma EncodedIsChar(cp: int, rest: bytes)
    requires Scalar(cp)
    ensures CharLen(Encoded(cp) + rest) == |Encoded(cp)|
  {
  }

  predicate AllScalar(cps: seq<int>) { forall i | 0 <= i < |cps| :: Scalar(cps[i]) }

  function EncodedAll(cps: seq<int>): bytes
    requires AllScalar(cps)
  {
    if cps == [] then [] else Encoded(cps[0]) + EncodedAll(cps[1..])
  }

  lemma {:induction false} ValidIsEncoded(s: bytes) returns (cps: seq<int>)
    requires Valid(s)
    ensures AllScalar(cps) && EncodedAll(cps) == s
    decreases |s|
  {
    cps := [];
    if s != [] {
      var cp := FirstCodePoint(s);
      CharactersAreEncodings(s);
      var rest := ValidIsEncoded(s[CharLen(s)..]);
      cps := [cp] + rest;
      assert cps[1..] == rest;
    }
  }

  lemma {:induction false} EncodedIsValid(cps: seq<int>)
    requires AllScalar(cps)
    ensures Valid(EncodedAll(cps))
  {
    if cps != [] {
      var rest := EncodedAll(cps[1..]);
      EncodedIsValid(cps[1..]);
      EncodedIsChar(cps[0], rest);
      assert EncodedAll(cps)[|Encoded(cps[0])|..] == rest;
    }
  }

  /** Valid text is what encoding some code points gives. */
  lemma ValidMeansEncoded(s: bytes)
    ensures Valid(s) <==> exists cps :: AllScalar(cps) && EncodedAll(cps) == s
  {
    if Valid(s) { var cps := ValidIsEncoded(s); }
    forall cps | AllScalar(cps) && EncodedAll(cps) == s ensures Valid(s) { EncodedIsValid(cps); }
  }

  /** In valid text a position is a boundary exactly when its byte starts a character. */
  lemma {:induction false} BoundaryIffRuneStart(s: bytes, i: nat)
    requires Valid(s) && i < |s|
    ensures Valid(s[..i]) <==> RuneStart(s[i])
    decreases |s|
  {
    var c := CharLen(s);
    if 0 < i < c {
      assert CharLen(s[..i]) == 0;
    } else if i >= c {
      BoundaryIffRuneStart(s[c..], i - c);
      assert s[..i][c..] == s[c..][..i - c];
      assert CharLen(s[..i]) == c || i == 0;
      if i == c { assert s[..i][c..] == []; }
    }
  }

  lemma {:induction false} ValidConcat(a: bytes, b: bytes)
    requires Valid(a) && Valid(b)
    ensures Valid(a + b)
    decreases |a|
  {
    if a == [] {
      assert a + b == b;
    } else {
      var c := CharLen(a);
      assert CharLen(a + b) == c;
      assert (a + b)[c..] == a[c..] + b;
      ValidConcat(a[c..], b);
    }
  }

  /** Characters are at most four bytes long, so boundaries are at most three bytes away. */
  lemma {:induction false} NoLongTails(s: bytes, i: nat)
    requires Valid(s) && i + 4 <= |s|
    ensures RuneStart(s[i]) || RuneStart(s[i + 1]) || RuneStart(s[i + 2]) || RuneStart(s[i + 3])
    decreases |s|
  {
    var c := CharLen(s);
    if i >= c {
      NoLongTails(s[c..], i - c);
    } else if i + 3 >= c {
      assert RuneStart(s[c..][0]) by { assert CharLen(s[c..]) > 0; }
      assert s[c..][0] == s[c];
    }
  }

  // ---------------------------------------------------------------- cutting

  /** `m` is the last boundary of `s` at or before `n`. */
  ghost predicate IsCut(s: bytes, n: nat, m: nat)
    requires n < |s|
  {
    && m <= n
    && (m == 0 || RuneStart(s[m]))
    && forall j | m < j <= n :: Tail(s[j])
  }

  /** The loop of both functions below. */
  method BackUp(s: bytes, start: nat) returns (n: nat)
    requires start < |s|
    ensures IsCut(s, start, n)
  {
    n := start;
    while n > 0 && !RuneStart(s[n])
      invariant n <= start && forall j | n < j <= start :: Tail(s[j])
    {
      n := n - 1;
    }
  }

  /** A cut of valid text is the longest valid prefix within the limit, and at most three
      bytes short of it. */
  lemma CutIsLongest(s: bytes, n: nat, m: nat)
    requires n < |s| && IsCut(s, n, m) && Valid(s)
    ensures Valid(s[..m])
    ensures forall j | m < j <= n :: !Valid(s[..j])
    ensures n <= m + 3
  {
    BoundaryIffRuneStart(s, m);
    forall j | m < j <= n ensures !Valid(s[..j]) { BoundaryIffRuneStart(s, j); }
    if n >= m + 4 { NoLongTails(s, m + 1); }
  }

  method CutUtf8(s: bytes, n: nat) returns (r: bytes, cut: bool)
    ensures cut <==> |s| > n
    ensures !cut ==> r == s
    ensures |r| <= n && r <= s
    ensures cut ==> IsCut(s, n, |r|)
    ensures Valid(s) ==> Valid(r) && forall p: bytes | p <= s && Valid(p) && |p| <= n :: |p| <= |r|
  {
    if |s| <= n {
      return s, false;
    }
    var m := BackUp(s, n);
    r, cut := s[..m], true;
    if Valid(s) {
      CutIsLongest(s, n, m);
      forall p: bytes | p <= s && Valid(p) && |p| <= n ensures |p| <= m {
        assert p == s[..|p|];
      }
    }
  }

  // ---------------------------------------------------------------- white space

  /** Length of the Unicode white-space character at the front of `s`, or 0. */
  function SpaceLen(s: bytes): (k: nat)
    ensures k <= 3 && k <= |s|
  {
    if |s| >= 1 && (In(s[0], 0x09, 0x0d) || In(s[0], 0x20, 0x20)) then 1
    else if |s| >= 2 && In(s[0], 0xc2, 0xc2) && (In(s[1], 0x85, 0x85) || In(s[1], 0xa0, 0xa0)) then 2
    else if |s| >= 3 && ThreeByteSpace(s[0], s[1], s[2]) then 3
    else 0
  }

  predicate ThreeByteSpace(a: byte, b: byte, c: byte) {
    || (In(a, 0xe1, 0xe1) && In(b, 0x9a, 0x9a) && In(c, 0x80, 0x80))
    || (In(a, 0xe2, 0xe2) && In(b, 0x80, 0x80)
        && (In(c, 0x80, 0x8a) || In(c, 0xa8, 0xa9) || In(c, 0xaf, 0xaf)))
    || (In(a, 0xe2, 0xe2) && In(b, 0x81, 0x81) && In(c, 0x9f, 0x9f))
    || (In(a, 0xe3, 0xe3) && In(b, 0x80, 0x80) && In(c, 0x80, 0x80))
  }

  /** The White_Space property of Unicode. */
  predicate WhiteSpace(cp: int) {
    || 0x09 <= cp <= 0x0d || cp == 0x20 || cp == 0x85 || cp == 0xa0 || cp == 0x1680
    || 0x2000 <= cp <= 0x200a || cp == 0x2028 || cp == 0x2029 || cp == 0x202f || cp == 0x205f || cp == 0x3000
  }

  lemma SpacesAreEncodings(s: bytes)
    ensures SpaceLen(s) > 0 <==> exists cp :: WhiteSpace(cp) && Encoded(cp) <= s
    ensures forall cp | WhiteSpace(cp) && Encoded(cp) <= s :: |Encoded(cp)| == SpaceLen(s)
  {
    forall cp | WhiteSpace(cp) && Encoded(cp) <= s ensures |Encoded(cp)| == SpaceLen(s) {
      assert s == Encoded(cp) + s[|Encoded(cp)|..];
      WhiteIsSpace(cp, s[|Encoded(cp)|..]);
    }
    if SpaceLen(s) > 0 { var cp := FirstWhite(s); }
  }

  lemma WhiteIsSpace(cp: int, rest: bytes)
    requires WhiteSpace(cp)
    ensures SpaceLen(Encoded(cp) + rest) == |Encoded(cp)|
  {
  }

  lemma FirstWhite(s: bytes) returns (cp: int)
    requires SpaceLen(s) > 0
    ensures WhiteSpace(cp) && Encoded(cp) <= s
  {
    match SpaceLen(s) {
      case 1 => cp := s[0] as int;
      case 2 => cp := TwoBytes(s);
      case _ => cp := ThreeBytes(s);
    }
  }

  /** Length of the white-space character that ends `s`, or 0. */
  function LastSpaceLen(s: bytes): (k: nat)
    ensures k <= |s|
  {
    if |s| >= 1 && SpaceLen(s[|s| - 1..]) == 1 then 1
    else if |s| >= 2 && SpaceLen(s[|s| - 2..]) == 2 then 2
    else if |s| >= 3 && SpaceLen(s[|s| - 3..]) == 3 then 3
    else 0
  }

  function TrimLeft(s: bytes): bytes
    decreases |s|
  {
    if SpaceLen(s) == 0 then s else TrimLeft(s[SpaceLen(s)..])
  }

  function TrimRight(s: bytes): bytes
    decreases |s|
  {
    if LastSpaceLen(s) == 0 then s else TrimRight(s[..|s| - LastSpaceLen(s)])
  }

  function TrimSpace(s: bytes): bytes { TrimRight(TrimLeft(s)) }

  lemma {:induction false} TrimLeftKeeps(s: bytes)
    ensures |TrimLeft(s)| <= |s| && SpaceLen(TrimLeft(s)) == 0
    ensures Valid(s) ==> Valid(TrimLeft(s))
    decreases |s|
  {
    if SpaceLen(s) != 0 {
      TrimLeftKeeps(s[SpaceLen(s)..]);
      if Valid(s) { assert SpaceLen(s) == CharLen(s); }
    }
  }

  /** A space is a whole character, so dropping it leaves whole characters. */
  lemma {:induction false} SpaceStartsCharacter(s: bytes, i: nat)
    requires Valid(s) && i < |s| && SpaceLen(s[i..]) > 0
    ensures Valid(s[..i])
  {
    assert s[i..][0] == s[i];
    BoundaryIffRuneStart(s, i);
  }

  lemma {:induction false} LastSpaceLeavesValid(s: bytes)
    requires Valid(s)
    ensures Valid(s[..|s| - LastSpaceLen(s)])
  {
    var k := LastSpaceLen(s);
    if k == 0 {
      assert s[..|s|] == s;
    } else {
      SpaceStartsCharacter(s, |s| - k);
    }
  }

  lemma {:induction false} TrimRightKeeps(s: bytes)
    ensures Valid(s) ==> Valid(TrimRight(s))
    decreases |s|
  {
    if LastSpaceLen(s) != 0 {
      if Valid(s) { LastSpaceLeavesValid(s); }
      TrimRightKeeps(s[..|s| - LastSpaceLen(s)]);
    }
  }

  lemma {:induction false} TrimRightEnds(s: bytes)
    ensures |TrimRight(s)| <= |s| && LastSpaceLen(TrimRight(s)) == 0
    decreases |s|
  {
    if LastSpaceLen(s) != 0 { TrimRightEnds(s[..|s| - LastSpaceLen(s)]); }
  }

  /** Trimming never breaks a character. */
  lemma {:induction false} TrimKeeps(s: bytes)
    ensures Valid(s) ==> Valid(TrimSpace(s))
  {
    TrimLeftKeeps(s);
    TrimRightKeeps(TrimLeft(s));
  }

  /** White-space characters and nothing else. */
  predicate Blank(s: bytes)
    decreases |s|
  {
    s == [] || (SpaceLen(s) > 0 && Blank(s[SpaceLen(s)..]))
  }

  lemma LongerStartsWithSpace(s: bytes, n: nat)
    requires n <= |s| && SpaceLen(s[..n]) > 0
    ensures SpaceLen(s) == SpaceLen(s[..n])
  {
  }

  lemma ShorterStartsWithSpace(s: bytes, n: nat)
    requires 0 < SpaceLen(s) <= n <= |s|
    ensures SpaceLen(s[..n]) == SpaceLen(s)
  {
  }

  lemma Slices<T>(s: seq<T>, k: nat, i: nat)
    requires k + i <= |s|
    ensures s[k..][i..] == s[k + i..] && s[k..][..i] == s[..k + i][k..]
  {
  }

  lemma {:induction false} TrimLeftDropsBlanks(s: bytes) returns (i: nat)
    ensures i <= |s| && TrimLeft(s) == s[i..] && Blank(s[..i])
    decreases |s|
  {
    var k := SpaceLen(s);
    i := 0;
    if k > 0 {
      i := TrimLeftDropsBlanks(s[k..]);
      Slices(s, k, i);
      ShorterStartsWithSpace(s, k + i);
      i := k + i;
    }
  }

  lemma {:induction false} BlankSnoc(s: bytes, n: nat)
    requires n < |s| && Blank(s[..n]) && SpaceLen(s[n..]) == |s| - n
    ensures Blank(s)
    decreases n
  {
    if n == 0 {
      assert s[0..] == s && s[|s|..] == [];
    } else {
      var k := SpaceLen(s[..n]);
      LongerStartsWithSpace(s, n);
      Slices(s, k, n - k);
      BlankSnoc(s[k..], n - k);
    }
  }

  lemma {:induction false} TrimRightDropsBlanks(s: bytes) returns (j: nat)
    ensures j <= |s| && TrimRight(s) == s[..j] && Blank(s[j..])
    decreases |s|
  {
    var k := LastSpaceLen(s);
    if k == 0 {
      j := |s|;
    } else {
      var n := |s| - k;
      j := TrimRightDropsBlanks(s[..n]);
      LastSpaceIsSpace(s);
      Slices(s, j, n - j);
      BlankSnoc(s[j..], n - j);
    }
  }

  lemma LastSpaceIsSpace(s: bytes)
    requires LastSpaceLen(s) > 0
    ensures SpaceLen(s[|s| - LastSpaceLen(s)..]) == LastSpaceLen(s)
  {
  }

  lemma NoLastSpace(s: bytes, j: nat)
    requires LastSpaceLen(s) == 0 && j < |s|
    ensures SpaceLen(s[j..]) != |s| - j
  {
  }

  /** Trimming takes white space off both ends and nothing else, and all of it. */
  lemma TrimEnds(s: bytes) returns (i: nat, j: nat)
    ensures i <= j <= |s| && TrimSpace(s) == s[i..j] && Blank(s[..i]) && Blank(s[j..])
    ensures SpaceLen(TrimSpace(s)) == 0
    ensures forall m | 0 <= m < |TrimSpace(s)| :: SpaceLen(TrimSpace(s)[m..]) != |TrimSpace(s)| - m
  {
    var l := TrimLeft(s);
    i := TrimLeftDropsBlanks(s);
    var n := TrimRightDropsBlanks(l);
    j := i + n;
    Slices(s, i, n);
    TrimSpaceEnds(s);
  }

  lemma TrimSpaceEnds(s: bytes)
    ensures SpaceLen(TrimSpace(s)) == 0
    ensures forall m | 0 <= m < |TrimSpace(s)| :: SpaceLen(TrimSpace(s)[m..]) != |TrimSpace(s)| - m
  {
    var l, t := TrimLeft(s), TrimSpace(s);
    TrimLeftKeeps(s);
    TrimRightEnds(l);
    forall m | 0 <= m < |t| ensures SpaceLen(t[m..]) != |t| - m { NoLastSpace(t, m); }
    var n := TrimRightDropsBlanks(l);
    if SpaceLen(t) > 0 { LongerStartsWithSpace(l, n); }
  }

  // ---------------------------------------------------------------- synthesis context

  const SOURCE_LIMIT := 10000
  const TOTAL_LIMIT := 30000

  /** U+2026, horizontal ellipsis. */
  const ELLIPSIS: bytes := [0xe2 as char, 0x80 as char, 0xa6 as char]

  function Limit(sourceCount: int): nat {
    var share := TOTAL_LIMIT / (if sourceCount > 1 then sourceCount else 1);
    if share < SOURCE_LIMIT then share else SOURCE_LIMIT
  }

  /** The share is the largest number of bytes that is at most 10,000 and that every source
      can have without all of them having more than 30,000. */
  lemma LimitIsLargestShare(sourceCount: int, m: nat)
    ensures m <= Limit(sourceCount) <==>
      m <= 10000 && m * (if sourceCount > 1 then sourceCount else 1) <= 30000
  {
    Quotient(m, if sourceCount > 1 then sourceCount else 1, 30000);
  }

  lemma Quotient(m: nat, n: nat, total: nat)
    requires n > 0
    ensures m <= total / n <==> m * n <= total
  {
    var q := total / n;
    assert q * n <= total < q * n + n;
    if m <= q { Grows(m, q, n); } else { Grows(q + 1, m, n); }
  }

  lemma Grows(a: nat, b: nat, n: nat)
    requires a <= b
    ensures a * n <= b * n
  {
  }

  lemma LimitFits(sourceCount: nat)
    ensures sourceCount * Limit(sourceCount) <= TOTAL_LIMIT
  {
    if sourceCount > 1 {
      assert sourceCount * (TOTAL_LIMIT / sourceCount) <= TOTAL_LIMIT;
      assert sourceCount * Limit(sourceCount) <= sourceCount * (TOTAL_LIMIT / sourceCount);
    }
  }

  /** Bounded, still valid, and either the text itself or a trimmed cut of it with an ellipsis. */
  ghost predicate IsContext(text: bytes, sourceCount: int, r: bytes) {
    var limit := Limit(sourceCount);
    && |r| <= limit
    && (Valid(text) ==> Valid(r))
    && (|text| <= limit ==> r == text)
    && (|text| > limit && limit < 3 ==> r == [])
    && (|text| > limit >= 3 ==> exists m: nat :: IsCut(text, limit - 3, m) && r == TrimSpace(text[..m]) + ELLIPSIS)
  }

  method SynthesisContext(text: bytes, sourceCount: int) returns (r: bytes)
    ensures |r| <= Limit(sourceCount)
    ensures IsContext(text, sourceCount, r)
  {
    var limit := Limit(sourceCount);
    if |text| <= limit {
      return text;
    }
    if limit < 3 {
      return [];
    }
    var cut := BackUp(text, limit - 3);
    r := TrimSpace(text[..cut]) + ELLIPSIS;
    ContextOk(text, limit - 3, cut);
  }

  lemma ContextOk(text: bytes, n: nat, cut: nat)
    requires n < |text| && IsCut(text, n, cut)
    ensures |TrimSpace(text[..cut])| <= n
    ensures Valid(text) ==> Valid(TrimSpace(text[..cut]) + ELLIPSIS)
  {
    TrimKeeps(text[..cut]);
    TrimLeftKeeps(text[..cut]);
    TrimRightEnds(TrimLeft(text[..cut]));
    if Valid(text) {
      BoundaryIffRuneStart(text, cut);
      assert CharLen(ELLIPSIS) == 3 && ELLIPSIS[3..] == [];
      ValidConcat(TrimSpace(text[..cut]), ELLIPSIS);
    }
  }

  /** What a long text loses: at most six bytes of the share go unused before trimming. */
  lemma LongTextsFillTheShare(text: bytes, sourceCount: int, r: bytes) returns (m: nat)
    requires IsContext(text, sourceCount, r) && Valid(text) && |text| > Limit(sourceCount) >= 3
    ensures m < |text| && Limit(sourceCount) - 6 <= m <= Limit(sourceCount) - 3
    ensures Valid(text[..m]) && r == TrimSpace(text[..m]) + Encoded(0x2026)
  {
    var n := Limit(sourceCount) - 3;
    m :| IsCut(text, n, m) && r == TrimSpace(text[..m]) + ELLIPSIS;
    CutIsLongest(text, n, m);
    EllipsisIs();
  }

  lemma EllipsisIs()
    ensures ELLIPSIS == Encoded(0x2026)
  {
  }

  lemma {:induction false} TotalLengthConcat(a: seq<bytes>, b: seq<bytes>)
    ensures TotalLength(a + b) == TotalLength(a) + TotalLength(b)
    ensures |b| == 1 ==> TotalLength(b) == |b[0]|
    decreases |b|
  {
    if b == [] {
      assert a + b == a;
    } else {
      var n := |b| - 1;
      assert (a + b)[..|a + b| - 1] == a + b[..n];
      TotalLengthConcat(a, b[..n]);
    }
  }

  function TotalLength(rs: seq<bytes>): nat {
    if rs == [] then 0 else TotalLength(rs[..|rs| - 1]) + |rs[|rs| - 1]|
  }

  lemma {:induction false} TotalAtMost(rs: seq<bytes>, limit: nat)
    requires forall i | 0 <= i < |rs| :: |rs[i]| <= limit
    ensures TotalLength(rs) <= |rs| * limit
  {
    if rs != [] { TotalAtMost(rs[..|rs| - 1], limit); }
  }

  /** All sources of one prompt together take at most 30,000 bytes, and none more than 10,000. */
  lemma ContextsFitTheBudget(texts: seq<bytes>, rs: seq<bytes>)
    requires |texts| == |rs| && forall i | 0 <= i < |rs| :: IsContext(texts[i], |texts|, rs[i])
    ensures TotalLength(rs) <= 30000
    ensures forall i | 0 <= i < |rs| :: |rs[i]| <= 10000 && (Valid(texts[i]) ==> Valid(rs[i]))
  {
    forall i | 0 <= i < |rs|
      ensures |rs[i]| <= Limit(|texts|) && |rs[i]| <= SOURCE_LIMIT && (Valid(texts[i]) ==> Valid(rs[i]))
    {
      assert IsContext(texts[i], |texts|, rs[i]);
    }
    TotalAtMost(rs, Limit(|texts|));
    LimitFits(|texts|);
  }
}
