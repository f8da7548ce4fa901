/** The 64-character alphabet shared by the Base64 encoder and the source-map decoder. */
module Alphabet {
  const UPPER := "ABCDEFGHIJKLMNOPQRSTUVWXYZ"
  const LOWER := "abcdefghijklmnopqrstuvwxyz"
  const DIGITS := "0123456789+/"
  const ALPHABET := UPPER + LOWER + DIGITS

  /** The character code at position `i`. */
  function Code(i: nat): int
    requires i < 64
  {
    if i < 26 then 65 + i else if i < 52 then 71 + i else if i < 62 then i - 4 else if i == 62 then 43 else 47
  }

  lemma UpperCode(i: nat)
    requires i < 26
    ensures UPPER[i] as int == 65 + i
  {
  }

  lemma LowerCode(i: nat)
    requires i < 26
    ensures LOWER[i] as int == 97 + i
  {
  }

  lemma DigitCode(i: nat)
    requires i < 12
    ensures DIGITS[i] as int == Code(52 + i)
  {
  }

  lemma CharCode(i: nat)
    requires i < 64
    ensures |ALPHABET| == 64 && ALPHABET[i] as int == Code(i)
  {
    if i < 26 { UpperCode(i); } else if i < 52 { LowerCode(i - 26); } else { DigitCode(i - 52); }
  }

  /** `ALPHABET.indexOf(c)` among the characters from position `from` on. */
  function IndexFrom(c: char, from: nat): (i: int)
    requires from <= |ALPHABET|
    ensures i == -1 || (from <= i < |ALPHABET| && ALPHABET[i] == c)
    ensures i == -1 <==> c !in ALPHABET[from..]
    decreases |ALPHABET| - from
  {
    if from == |ALPHABET| then -1
    else if ALPHABET[from] == c then from
    else IndexFrom(c, from + 1)
  }

  function IndexOf(c: char): (i: int)
    ensures -1 <= i < 64
  {
    IndexFrom(c, 0)
  }

  function CharOf(d: nat): (c: char)
    requires d < 64
  {
    ALPHABET[d]
  }

  lemma IndexOfChar(d: nat)
    requires d < 64
    ensures IndexOf(CharOf(d)) == d
  {
    hide IndexFrom;
    var i := IndexOf(CharOf(d));
    CharCode(d);
    CharCode(if i >= 0 then i else 0);
    assert ALPHABET[0..] == ALPHABET && ALPHABET[d] in ALPHABET;
  }

  predicate IsDigit(c: char) { c in ALPHABET }

  lemma CharIsDigit(d: nat)
    requires d < 64
    ensures IsDigit(CharOf(d))
  {
    CharCode(d);
  }

  lemma IndexOfIff(c: char)
    ensures IndexOf(c) == -1 <==> !IsDigit(c)
    ensures IsDigit(c) ==> IndexOf(c) >= 0 && CharOf(IndexOf(c)) == c
  {
    hide IndexFrom;
    assert ALPHABET[0..] == ALPHABET;
  }

  /** Separators and padding are not digits. */
  lemma NotDigits(c: char)
    requires c == ',' || c == ';' || c == '=' || c == '-' || c == '_'
    ensures !IsDigit(c)
  {
    if c in ALPHABET {
      var i :| 0 <= i < |ALPHABET| && ALPHABET[i] == c;
      CharCode(i);
    }
  }
}
