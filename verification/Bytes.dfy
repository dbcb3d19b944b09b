/** Go strings and byte slices: sequences of bytes. A byte is a character with a
    code below 256, so that ASCII text can be written as a literal. */
module Bytes {

  type byte = c: char | c as int < 256 witness 'a'

  type bytes = seq<byte>

  datatype Option<+T> = None | Some(value: T)

  predicate AllIn(s: string, alphabet: string) { forall c | c in s :: c in alphabet }

  lemma HexDigits(s: string)
    ensures (forall i | 0 <= i < |s| :: '0' <= s[i] <= '9' || 'a' <= s[i] <= 'f') <==> AllIn(s, "0123456789abcdef")
  {
    forall c: char ensures '0' <= c <= '9' || 'a' <= c <= 'f' <==> c in "0123456789abcdef" { HexDigit(c); }
    forall i | 0 <= i < |s| ensures s[i] in s { }
  }

  lemma HexDigit(c: char)
    ensures '0' <= c <= '9' || 'a' <= c <= 'f' <==> c in "0123456789abcdef"
  {
    var digits := "0123456789abcdef";
    if '0' <= c <= '9' { assert digits[c as int - 48] == c; }
    if 'a' <= c <= 'f' { assert digits[c as int - 87] == c; }
  }
}
