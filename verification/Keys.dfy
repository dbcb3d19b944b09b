/** The key codec of the article family: builders, the parser, and the range of one
    article's versions. Keys are byte strings. */
module Keys {
  import opened Bytes
  import Lex

  const FAM_ARTICLES: byte := 'R'

  const SUB_RECORD: byte := 'a'
  const SUB_VERSION: byte := 'v'
  const SUB_SLUG: byte := 's'
  const SUB_TOPIC: byte := 't'
  const SUB_EMBEDDING: byte := 'e'
  const SUB_FINGERPRINT: byte := 'f'
  const SUB_COUNTERS: byte := 'c'
  const SUB_META: byte := 'm'

  const ID_LENGTH := 26

  // ---------------------------------------------------------------- patterns

  /** A character of a Crockford base-32 identifier. */
  predicate IdChar(c: char) {
    '0' <= c <= '9' || 'A' <= c <= 'H' || c == 'J' || c == 'K' || c == 'M' || c == 'N' || 'P' <= c <= 'T'
        || 'V' <= c <= 'Z'
  }

  predicate ValidId(id: bytes) { |id| == ID_LENGTH && forall i | 0 <= i < |id| :: IdChar(id[i]) }

  predicate ValidTopic(t: bytes) {
    |t| == 16 && forall i | 0 <= i < |t| :: '0' <= t[i] <= '9' || 'a' <= t[i] <= 'f'
  }

  // ---------------------------------------------------------------- big-endian numbers

  const TWO64 := 0x1_0000_0000_0000_0000
  const TWO63 := 0x8000_0000_0000_0000

  function ToByte(n: nat): byte
    requires n < 256
  {
    n as char
  }

  /** The last `k` bytes of `n`, most significant first. */
  function BigEndian(n: nat, k: nat): (r: bytes)
    ensures |r| == k
  {
    if k == 0 then [] else BigEndian(n / 256, k - 1) + [ToByte(n % 256)]
  }

  function FromBigEndian(b: bytes): nat {
    if b == [] then 0 else FromBigEndian(b[..|b| - 1]) * 256 + b[|b| - 1] as int
  }

  function Pow256(k: nat): nat { if k == 0 then 1 else 256 * Pow256(k - 1) }

  lemma {:induction false} BigEndianRoundTrip(n: nat, k: nat)
    requires n < Pow256(k)
    ensures FromBigEndian(BigEndian(n, k)) == n
  {
    if k > 0 {
      BigEndianRoundTrip(n / 256, k - 1);
      assert BigEndian(n, k)[..k - 1] == BigEndian(n / 256, k - 1);
    }
  }

  lemma {:induction false} FromBigEndianRoundTrip(b: bytes)
    ensures FromBigEndian(b) < Pow256(|b|) && BigEndian(FromBigEndian(b), |b|) == b
  {
    if b != [] {
      var n := |b| - 1;
      FromBigEndianRoundTrip(b[..n]);
      assert b == b[..n] + [b[n]];
      assert FromBigEndian(b) / 256 == FromBigEndian(b[..n]) && FromBigEndian(b) % 256 == b[n] as int;
    }
  }

  /** Byte order of equal-length big-endian numbers is numeric order. */
  lemma {:induction false} BigEndianOrder(m: nat, n: nat, k: nat)
    requires m < Pow256(k) && n < Pow256(k)
    ensures Lex.Less(BigEndian(m, k), BigEndian(n, k)) <==> m < n
  {
    if k > 0 {
      BigEndianOrder(m / 256, n / 256, k - 1);
      BigEndianRoundTrip(m / 256, k - 1);
      BigEndianRoundTrip(n / 256, k - 1);
      LastByteOrder(BigEndian(m / 256, k - 1), BigEndian(n / 256, k - 1), ToByte(m % 256), ToByte(n % 256));
      DigitOrder(m, n);
    }
  }

  lemma DigitOrder(m: nat, n: nat)
    ensures m < n <==> m / 256 < n / 256 || (m / 256 == n / 256 && ToByte(m % 256) < ToByte(n % 256))
  {
  }

  lemma {:induction false} LastByteOrder(a: bytes, b: bytes, x: byte, y: byte)
    requires |a| == |b|
    ensures Lex.Less(a + [x], b + [y]) <==> Lex.Less(a, b) || (a == b && x < y)
  {
    if a == [] {
      assert a + [x] == [x] && b + [y] == [y];
    } else {
      assert (a + [x])[1..] == a[1..] + [x] && (b + [y])[1..] == b[1..] + [y];
      LastByteOrder(a[1..], b[1..], x, y);
      assert a == [a[0]] + a[1..] && b == [b[0]] + b[1..];
    }
  }

  // ---------------------------------------------------------------- builders

  function Key(sub: byte, suffix: bytes): bytes { [FAM_ARTICLES, sub] + suffix }

  /** A Go `int` is 64 bits wide. */
  predicate IsInt64(v: int) { -TWO63 <= v < TWO63 }

  function ToUint64(v: int): nat { v % TWO64 }

  function ToInt64(u: nat): int
    requires u < TWO64
  {
    if u < TWO63 then u else u - TWO64
  }

  function VersionKey(id: bytes, version: int): bytes {
    Key(SUB_VERSION, id) + BigEndian(ToUint64(version), 8)
  }

  function VersionLower(id: bytes): bytes { Key(SUB_VERSION, id) }

  function VersionUpper(id: bytes): bytes { Key(SUB_VERSION, id) + [ToByte(0xff)] }

  // ---------------------------------------------------------------- parser

  datatype ParsedKey = ParsedKey(sub: byte, suffix: bytes, version: int)

  predicate IdSub(sub: byte) {
    sub == SUB_RECORD || sub == SUB_EMBEDDING || sub == SUB_FINGERPRINT || sub == SUB_COUNTERS
  }

  function ParseKey(k: bytes): Option<ParsedKey> {
    if |k| < 3 || k[0] != FAM_ARTICLES then None
    else
      var sub, rest := k[1], k[2..];
      if IdSub(sub) then
        if ValidId(rest) then Some(ParsedKey(sub, rest, 0)) else None
      else if sub == SUB_VERSION then
        if |rest| != ID_LENGTH + 8 then None
        else
          Pow256Eight(rest[ID_LENGTH..]);
          var version := ToInt64(FromBigEndian(rest[ID_LENGTH..]));
          if ValidId(rest[..ID_LENGTH]) then Some(ParsedKey(sub, rest[..ID_LENGTH], version)) else None
      else if sub == SUB_SLUG then Some(ParsedKey(sub, rest, 0))
      else if sub == SUB_TOPIC then
        if ValidTopic(rest) then Some(ParsedKey(sub, rest, 0)) else None
      else if sub == SUB_META then Some(ParsedKey(sub, rest, 0))
      else None
  }

  lemma Pow256Is()
    ensures Pow256(8) == TWO64
  {
    assert Pow256(4) == 0x1_0000_0000;
  }

  lemma Pow256Eight(b: bytes)
    requires |b| == 8
    ensures FromBigEndian(b) < TWO64
  {
    FromBigEndianRoundTrip(b);
    Pow256Is();
  }

  /** What a decoded key says to build. */
  function Rebuild(p: ParsedKey): bytes {
    if p.sub == SUB_VERSION then VersionKey(p.suffix, p.version) else Key(p.sub, p.suffix)
  }

  /** What the builders are given: identifiers, topics, and non-empty slugs and meta names. */
  predicate Buildable(p: ParsedKey) {
    if IdSub(p.sub) then ValidId(p.suffix) && p.version == 0
    else if p.sub == SUB_VERSION then ValidId(p.suffix) && IsInt64(p.version)
    else if p.sub == SUB_TOPIC then ValidTopic(p.suffix) && p.version == 0
    else if p.sub == SUB_SLUG || p.sub == SUB_META then p.suffix != [] && p.version == 0
    else false
  }

  lemma Int64RoundTrip(v: int)
    requires IsInt64(v)
    ensures ToUint64(v) < TWO64 && ToInt64(ToUint64(v)) == v
  {
  }

  lemma VersionKeyShape(id: bytes, v: int)
    requires ValidId(id)
    ensures var k := VersionKey(id, v);
            |k| == 2 + ID_LENGTH + 8 && k[0] == FAM_ARTICLES && k[1] == SUB_VERSION
            && k[2..][..ID_LENGTH] == id && k[2..][ID_LENGTH..] == BigEndian(ToUint64(v), 8)
  {
    var k := VersionKey(id, v);
    assert k[2..] == id + BigEndian(ToUint64(v), 8);
  }

  /** The parser undoes every builder, over the whole 64-bit range of versions. */
  lemma ParseUndoesBuild(p: ParsedKey)
    requires Buildable(p)
    ensures ParseKey(Rebuild(p)) == Some(p)
  {
    if p.sub == SUB_VERSION {
      VersionKeyShape(p.suffix, p.version);
      Pow256Is();
      BigEndianRoundTrip(ToUint64(p.version), 8);
      Int64RoundTrip(p.version);
    } else {
      assert Rebuild(p)[2..] == p.suffix;
    }
  }

  /** A key is accepted only if it is what some builder makes, and then parsing loses nothing. */
  lemma BuildUndoesParse(k: bytes)
    requires ParseKey(k).Some?
    ensures Buildable(ParseKey(k).value) && Rebuild(ParseKey(k).value) == k
  {
    var p, rest := ParseKey(k).value, k[2..];
    assert k == [k[0], k[1]] + rest;
    if p.sub == SUB_VERSION { VersionBytes(rest); }
  }

  /** The last eight bytes of a version key, decoded and built again. */
  lemma VersionBytes(rest: bytes)
    requires |rest| == ID_LENGTH + 8
    ensures FromBigEndian(rest[ID_LENGTH..]) < TWO64
    ensures var v := ToInt64(FromBigEndian(rest[ID_LENGTH..]));
            IsInt64(v) && rest[..ID_LENGTH] + BigEndian(ToUint64(v), 8) == rest
  {
    var tail := rest[ID_LENGTH..];
    FromBigEndianRoundTrip(tail);
    Pow256Eight(tail);
    assert ToUint64(ToInt64(FromBigEndian(tail))) == FromBigEndian(tail);
    assert rest == rest[..ID_LENGTH] + tail;
  }

  /** The keys the parser accepts, byte by byte: "R", a sub-family and its suffix, which is an
      identifier of 26 Crockford base-32 characters, one with eight more bytes, sixteen hex
      digits, or anything not empty. */
  lemma AcceptedKeys(k: bytes)
    ensures ParseKey(k).Some? <==>
      && |k| >= 3 && k[0] == 'R'
      && match k[1] {
           case 'v' => |k| == 36 && AllIn(k[2..28], "0123456789ABCDEFGHJKMNPQRSTVWXYZ")
           case 't' => |k| == 18 && AllIn(k[2..], "0123456789abcdef")
           case 's' => true
           case 'm' => true
           case c => c in "aefc" && |k| == 28 && AllIn(k[2..], "0123456789ABCDEFGHJKMNPQRSTVWXYZ")
         }
  {
    if |k| >= 3 {
      var rest := k[2..];
      IdsAreCrockford(rest);
      HexDigits(rest);
      if |k| == 36 {
        assert k[2..28] == rest[..26];
        IdsAreCrockford(rest[..26]);
      }
    }
  }

  lemma IdsAreCrockford(id: bytes)
    ensures ValidId(id) <==> |id| == 26 && AllIn(id, "0123456789ABCDEFGHJKMNPQRSTVWXYZ")
  {
    forall c: char ensures IdChar(c) <==> c in "0123456789ABCDEFGHJKMNPQRSTVWXYZ" { CrockfordChar(c); }
    forall i | 0 <= i < |id| ensures id[i] in id { }
  }

  lemma CrockfordChar(c: char)
    ensures IdChar(c) <==> c in "0123456789ABCDEFGHJKMNPQRSTVWXYZ"
  {
    var a, b := "0123456789" + "ABCDEFGH", "JK" + "MN" + "PQRST" + "VWXYZ";
    assert a + b == "0123456789ABCDEFGHJKMNPQRSTVWXYZ";
    DigitsAndLettersToH(c);
    LettersFromJ(c);
  }

  lemma DigitsAndLettersToH(c: char)
    ensures c in "0123456789" + "ABCDEFGH" <==> '0' <= c <= '9' || 'A' <= c <= 'H'
  {
    var n := c as int;
    if '0' <= c <= '9' { assert "0123456789"[n - 48] == c; }
    if 'A' <= c <= 'H' { assert "ABCDEFGH"[n - 65] == c; }
  }

  lemma LettersFromJ(c: char)
    ensures c in "JK" + "MN" + "PQRST" + "VWXYZ" <==>
      c == 'J' || c == 'K' || c == 'M' || c == 'N' || 'P' <= c <= 'T' || 'V' <= c <= 'Z'
  {
    var n := c as int;
    assert "JK"[0] == 'J' && "JK"[1] == 'K' && "MN"[0] == 'M' && "MN"[1] == 'N';
    if 'P' <= c <= 'T' { assert "PQRST"[n - 80] == c; }
    if 'V' <= c <= 'Z' { assert "VWXYZ"[n - 86] == c; }
  }

  // ---------------------------------------------------------------- order and ranges

  /** Among one article's version keys, byte order is numeric order of non-negative versions. */
  lemma VersionOrder(id: bytes, v: int, w: int)
    requires 0 <= v < TWO63 && 0 <= w < TWO63
    ensures Lex.Less(VersionKey(id, v), VersionKey(id, w)) <==> v < w
  {
    assert ToUint64(v) == v && ToUint64(w) == w;
    Pow256Is();
    SuffixOrder(Key(SUB_VERSION, id), v, w, 8);
  }

  lemma SuffixOrder(prefix: bytes, v: nat, w: nat, k: nat)
    requires v < Pow256(k) && w < Pow256(k)
    ensures Lex.Less(prefix + BigEndian(v, k), prefix + BigEndian(w, k)) <==> v < w
  {
    Lex.SamePrefix(prefix, BigEndian(v, k), BigEndian(w, k));
    BigEndianOrder(v, w, k);
  }

  predicate InVersionRange(id: bytes, k: bytes) {
    Lex.LessEq(VersionLower(id), k) && Lex.Less(k, VersionUpper(id))
  }

  /** Where a number lies, given its most significant byte. */
  lemma {:induction false} TopByte(n: nat, k: nat)
    requires n < Pow256(k + 1)
    ensures BigEndian(n, k + 1)[0] as int * Pow256(k) <= n < (BigEndian(n, k + 1)[0] as int + 1) * Pow256(k)
  {
    if k > 0 {
      TopByte(n / 256, k - 1);
      var top := BigEndian(n / 256, k)[0] as int;
      assert BigEndian(n, k + 1)[0] as int == top;
      ScaleBounds(n, top, Pow256(k - 1));
    }
  }

  lemma ScaleBounds(n: nat, top: int, p: nat)
    requires top * p <= n / 256 < (top + 1) * p
    ensures top * (256 * p) <= n < (top + 1) * (256 * p)
  {
    var lo, hi := top * p, (top + 1) * p;
    assert top * (256 * p) == 256 * lo && (top + 1) * (256 * p) == 256 * hi;
    assert n == 256 * (n / 256) + n % 256;
  }

  /** The range of one article holds, of all keys the parser accepts, exactly the version
      keys of that article whose top byte is below 0xff: every non-negative version, no
      other article and no other sub-family. */
  lemma RangeIsOneArticle(id: bytes, k: bytes)
    requires ValidId(id) && ParseKey(k).Some?
    ensures InVersionRange(id, k) <==>
      ParseKey(k).value.sub == 'v' && ParseKey(k).value.suffix == id
      && ToUint64(ParseKey(k).value.version) < 0xff00_0000_0000_0000
  {
    var p := ParseKey(k).value;
    BuildUndoesParse(k);
    Lex.Between(VersionLower(id), ToByte(0xff), k);
    if p.sub == SUB_VERSION {
      var u := ToUint64(p.version);
      VersionKeyShape(p.suffix, p.version);
      Pow256Is();
      TopByte(u, 7);
      assert Pow256(7) == 0x100_0000_0000_0000;
      assert k[|VersionLower(id)|] == BigEndian(u, 8)[0];
      assert VersionLower(id) <= k <==> p.suffix == id by {
        assert k[..2 + ID_LENGTH] == Key(SUB_VERSION, p.suffix);
        if VersionLower(id) <= k { assert VersionLower(id)[2..] == p.suffix; }
      }
    } else if VersionLower(id) <= k {
      assert VersionLower(id)[1] == k[1];
    }
  }

  /** A negative version can leave its own article's range. */
  lemma NegativeVersionEscapes(id: bytes)
    requires ValidId(id)
    ensures ParseKey(VersionKey(id, -1)).Some? && !InVersionRange(id, VersionKey(id, -1))
  {
    ParseUndoesBuild(ParsedKey(SUB_VERSION, id, -1));
    RangeIsOneArticle(id, VersionKey(id, -1));
  }
}
