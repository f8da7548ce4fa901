/** The SDK's hand-written Base64 encoder, its decoder, and the debug adapter's base64url decoder. */
module Base64 {
  import opened Alphabet
  import opened Basics

  // ---------- Bit strings ----------

  function Bits8(b: bv8): (bits: seq<bool>)
    ensures |bits| == 8
  {
    [b & 128 != 0, b & 64 != 0, b & 32 != 0, b & 16 != 0, b & 8 != 0, b & 4 != 0, b & 2 != 0, b & 1 != 0]
  }

  function Bits6(s: bv6): (bits: seq<bool>)
    ensures |bits| == 6
  {
    [s & 32 != 0, s & 16 != 0, s & 8 != 0, s & 4 != 0, s & 2 != 0, s & 1 != 0]
  }

  function Sextet(x5: bool, x4: bool, x3: bool, x2: bool, x1: bool, x0: bool): bv6 {
    (if x5 then 32 else 0) | (if x4 then 16 else 0) | (if x3 then 8 else 0) |
    (if x2 then 4 else 0) | (if x1 then 2 else 0) | (if x0 then 1 else 0)
  }

  function FromBits6(b: seq<bool>): bv6
    requires |b| == 6
  {
    Sextet(b[0], b[1], b[2], b[3], b[4], b[5])
  }

  function FromBits8(b: seq<bool>): bv8
    requires |b| == 8
  {
    (if b[0] then 128 else 0) | (if b[1] then 64 else 0) | (if b[2] then 32 else 0) | (if b[3] then 16 else 0) |
    (if b[4] then 8 else 0) | (if b[5] then 4 else 0) | (if b[6] then 2 else 0) | (if b[7] then 1 else 0)
  }

  lemma ByteFromBits(b: bv8)
    ensures FromBits8(Bits8(b)) == b
  {
  }

  lemma SextetBits(b: seq<bool>)
    requires |b| == 6
    ensures Bits6(FromBits6(b)) == b
  {
    SextetBit(b[0], b[1], b[2], b[3], b[4], b[5]);
  }

  lemma SextetBit(x5: bool, x4: bool, x3: bool, x2: bool, x1: bool, x0: bool)
    ensures Bits6(Sextet(x5, x4, x3, x2, x1, x0)) == [x5, x4, x3, x2, x1, x0]
  {
    var s := Sextet(x5, x4, x3, x2, x1, x0);
    assert (s & 32 != 0) == x5;
    assert (s & 16 != 0) == x4;
    assert (s & 8 != 0) == x3;
    assert (s & 4 != 0) == x2;
    assert (s & 2 != 0) == x1;
    assert (s & 1 != 0) == x0;
  }

  function ByteBits(bytes: seq<bv8>): (bits: seq<bool>)
    ensures |bits| == 8 * |bytes|
  {
    if bytes == [] then [] else Bits8(bytes[0]) + ByteBits(bytes[1..])
  }

  function SextetsBits(ss: seq<bv6>): (bits: seq<bool>)
    ensures |bits| == 6 * |ss|
  {
    if ss == [] then [] else Bits6(ss[0]) + SextetsBits(ss[1..])
  }

  function Zeros(n: nat): (z: seq<bool>)
    ensures |z| == n
  {
    seq(n, _ => false)
  }

  // ---------- Base64 by section 4 of RFC 4648 ----------

  /** Six bits a group; the last group is filled up with zero bits. */
  function Sextets(bits: seq<bool>): seq<bv6> {
    if bits == [] then []
    else if |bits| < 6 then [FromBits6(bits + Zeros(6 - |bits|))]
    else [FromBits6(bits[..6])] + Sextets(bits[6..])
  }

  function SextetChar(s: bv6): char {
    CharOf(s as int)
  }

  function Chars(ss: seq<bv6>): (s: string)
    ensures |s| == |ss|
  {
    seq(|ss|, i requires 0 <= i < |ss| => SextetChar(ss[i]))
  }

  function Padding(n: nat): string {
    if n % 3 == 1 then "==" else if n % 3 == 2 then "=" else ""
  }

  /** The bit string cut into sextets, written in the alphabet and padded to a multiple of four. */
  function Encoded(bytes: seq<bv8>): string {
    Chars(Sextets(ByteBits(bytes))) + Padding(|bytes|)
  }

  // ---------- The encoder ----------

  lemma SextetsStep(bits: seq<bool>)
    requires |bits| >= 6
    ensures Sextets(bits) == [FromBits6(bits[..6])] + Sextets(bits[6..])
  {
    hide FromBits6;
  }

  /** 24 bits make four sextets. */
  lemma SextetsOfChunk(x: seq<bool>, rest: seq<bool>)
    requires |x| == 24
    ensures Sextets(x + rest)
            == [FromBits6(x[..6]), FromBits6(x[6..12]), FromBits6(x[12..18]), FromBits6(x[18..])] + Sextets(rest)
  {
    hide Sextets, FromBits6;
    var b := x + rest;
    SextetsStep(b);
    SextetsStep(b[6..]);
    SextetsStep(b[6..][6..]);
    SextetsStep(b[6..][6..][6..]);
    assert b[6..][6..][6..][6..] == rest;
    assert b[..6] == x[..6] && b[6..][..6] == x[6..12];
    assert b[6..][6..][..6] == x[12..18] && b[6..][6..][6..][..6] == x[18..];
  }

  lemma ByteBitsAt(bytes: seq<bv8>, i: nat)
    requires i < |bytes|
    ensures ByteBits(bytes[i..]) == Bits8(bytes[i]) + ByteBits(bytes[i + 1..])
  {
    hide Bits8;
    assert bytes[i..][0] == bytes[i] && bytes[i..][1..] == bytes[i + 1..];
  }

  /** The sextets of three bytes, of two last bytes and of one last byte. */
  function Sextets3(b0: bv8, b1: bv8, b2: bv8): seq<bv6> {
    [Sextet(b0 & 128 != 0, b0 & 64 != 0, b0 & 32 != 0, b0 & 16 != 0, b0 & 8 != 0, b0 & 4 != 0),
     Sextet(b0 & 2 != 0, b0 & 1 != 0, b1 & 128 != 0, b1 & 64 != 0, b1 & 32 != 0, b1 & 16 != 0),
     Sextet(b1 & 8 != 0, b1 & 4 != 0, b1 & 2 != 0, b1 & 1 != 0, b2 & 128 != 0, b2 & 64 != 0),
     Sextet(b2 & 32 != 0, b2 & 16 != 0, b2 & 8 != 0, b2 & 4 != 0, b2 & 2 != 0, b2 & 1 != 0)]
  }

  function Sextets2(b0: bv8, b1: bv8): seq<bv6> {
    [Sextet(b0 & 128 != 0, b0 & 64 != 0, b0 & 32 != 0, b0 & 16 != 0, b0 & 8 != 0, b0 & 4 != 0),
     Sextet(b0 & 2 != 0, b0 & 1 != 0, b1 & 128 != 0, b1 & 64 != 0, b1 & 32 != 0, b1 & 16 != 0),
     Sextet(b1 & 8 != 0, b1 & 4 != 0, b1 & 2 != 0, b1 & 1 != 0, false, false)]
  }

  function Sextets1(b0: bv8): seq<bv6> {
    [Sextet(b0 & 128 != 0, b0 & 64 != 0, b0 & 32 != 0, b0 & 16 != 0, b0 & 8 != 0, b0 & 4 != 0),
     Sextet(b0 & 2 != 0, b0 & 1 != 0, false, false, false, false)]
  }

  lemma Cut(x: seq<bool>, k: nat)
    requires k + 6 <= |x|
    ensures FromBits6(x[k..k + 6]) == Sextet(x[k], x[k + 1], x[k + 2], x[k + 3], x[k + 4], x[k + 5])
  {
    hide Sextet;
  }

  lemma SextetsAt(bytes: seq<bv8>, i: nat)
    requires i + 3 <= |bytes|
    ensures Sextets(ByteBits(bytes[i..]))
            == Sextets3(bytes[i], bytes[i + 1], bytes[i + 2]) + Sextets(ByteBits(bytes[i + 3..]))
  {
    hide Sextets, ByteBits, Sextet, FromBits6;
    ByteBitsAt(bytes, i);
    ByteBitsAt(bytes, i + 1);
    ByteBitsAt(bytes, i + 2);
    var x, rest := Bits8(bytes[i]) + Bits8(bytes[i + 1]) + Bits8(bytes[i + 2]), ByteBits(bytes[i + 3..]);
    assert ByteBits(bytes[i..]) == x + rest;
    SextetsOfChunk(x, rest);
    Cut(x, 0);
    Cut(x, 6);
    Cut(x, 12);
    Cut(x, 18);
    assert x[..6] == x[0..6] && x[18..] == x[18..24];
  }

  lemma SextetsOfOne(bytes: seq<bv8>, i: nat)
    requires i + 1 == |bytes|
    ensures Sextets(ByteBits(bytes[i..])) == Sextets1(bytes[i])
  {
    hide Sextet, ByteBits, FromBits6;
    ByteBitsAt(bytes, i);
    assert bytes[i + 1..] == [] && ByteBits([]) == [];
    var x := Bits8(bytes[i]);
    assert ByteBits(bytes[i..]) == x;
    SextetsStep(x);
    Cut(x, 0);
    var y := x[6..] + Zeros(4);
    assert y == [x[6], x[7], false, false, false, false] && y[0..6] == y;
    Cut(y, 0);
  }

  lemma SextetsOf16(x: seq<bool>)
    requires |x| == 16
    ensures Sextets(x) == [Sextet(x[0], x[1], x[2], x[3], x[4], x[5]), Sextet(x[6], x[7], x[8], x[9], x[10], x[11]),
                           Sextet(x[12], x[13], x[14], x[15], false, false)]
  {
    hide Sextet, FromBits6, Sextets;
    FirstSextet(x);
    FirstSextet(x[6..]);
    assert x[6..][6..] == x[12..];
    SextetsOf4(x[12..]);
  }

  lemma FirstSextet(x: seq<bool>)
    requires |x| >= 6
    ensures Sextets(x) == [Sextet(x[0], x[1], x[2], x[3], x[4], x[5])] + Sextets(x[6..])
  {
    hide Sextet, FromBits6, Sextets;
    SextetsStep(x);
    Cut(x, 0);
    assert x[..6] == x[0..6];
  }

  lemma SextetsOf4(x: seq<bool>)
    requires |x| == 4
    ensures Sextets(x) == [Sextet(x[0], x[1], x[2], x[3], false, false)]
  {
    hide Sextet, FromBits6, Sextets;
    LastSextet(x);
    var y := x + Zeros(2);
    assert y[0..6] == y;
    Cut(y, 0);
  }

  lemma SextetsOfTwo(bytes: seq<bv8>, i: nat)
    requires i + 2 == |bytes|
    ensures Sextets(ByteBits(bytes[i..])) == Sextets2(bytes[i], bytes[i + 1])
  {
    hide Sextet, ByteBits, Sextets;
    ByteBitsAt(bytes, i);
    ByteBitsAt(bytes, i + 1);
    assert bytes[i + 2..] == [] && ByteBits([]) == [];
    var x := Bits8(bytes[i]) + Bits8(bytes[i + 1]);
    assert ByteBits(bytes[i..]) == x;
    SextetsOf16(x);
  }

  lemma LastSextet(bits: seq<bool>)
    requires 0 < |bits| < 6
    ensures Sextets(bits) == [FromBits6(bits + Zeros(6 - |bits|))]
  {
    hide FromBits6;
  }

  lemma CharsConcat(a: seq<bv6>, b: seq<bv6>)
    ensures Chars(a + b) == Chars(a) + Chars(b)
  {
    hide SextetChar;
  }

  /** Three bytes: masks and shifts pick the four sextets. */
  method EncodeChunk(b0: bv8, b1: bv8, b2: bv8) returns (s: string)
    ensures s == Chars(Sextets3(b0, b1, b2))
  {
    hide SextetChar;
    var chunk: bv32 := ((b0 as bv32) << 16) | ((b1 as bv32) << 8) | (b2 as bv32);
    var a := ((chunk & 16515072) >> 18) as bv6;
    var b := ((chunk & 258048) >> 12) as bv6;
    var c := ((chunk & 4032) >> 6) as bv6;
    var d := (chunk & 63) as bv6;
    s := [SextetChar(a), SextetChar(b), SextetChar(c), SextetChar(d)];
  }

  method EncodeLast(b0: bv8) returns (s: string)
    ensures s == Chars(Sextets1(b0))
  {
    hide SextetChar;
    var chunk := b0 as bv32;
    var a := ((chunk & 252) >> 2) as bv6;
    var b := ((chunk & 3) << 4) as bv6;
    s := [SextetChar(a), SextetChar(b)];
  }

  method EncodeLastTwo(b0: bv8, b1: bv8) returns (s: string)
    ensures s == Chars(Sextets2(b0, b1))
  {
    hide SextetChar;
    var chunk: bv32 := ((b0 as bv32) << 8) | (b1 as bv32);
    var a := ((chunk & 64512) >> 10) as bv6;
    var b := ((chunk & 1008) >> 4) as bv6;
    var c := ((chunk & 15) << 2) as bv6;
    s := [SextetChar(a), SextetChar(b), SextetChar(c)];
  }

  /** The digits of the bytes from `i` on. */
  function DigitsFrom(bytes: seq<bv8>, i: nat): string
    requires i <= |bytes|
  {
    Chars(Sextets(ByteBits(bytes[i..])))
  }

  lemma DigitsStep(bytes: seq<bv8>, i: nat)
    requires i + 3 <= |bytes|
    ensures DigitsFrom(bytes, i) == Chars(Sextets3(bytes[i], bytes[i + 1], bytes[i + 2])) + DigitsFrom(bytes, i + 3)
  {
    hide Sextets, ByteBits, Chars, Sextets3;
    SextetsAt(bytes, i);
    CharsConcat(Sextets3(bytes[i], bytes[i + 1], bytes[i + 2]), Sextets(ByteBits(bytes[i + 3..])));
  }

  /** The three-byte loop with its special cases writes the encoding of the RFC. */
  method Uint8ArrayToBase64(bytes: seq<bv8>) returns (base64: string)
    ensures base64 == Encoded(bytes)
  {
    hide Sextets, ByteBits, Chars, Sextets1, Sextets2, Sextets3;
    base64 := "";
    var byteRemainder := |bytes| % 3;
    var mainLength := |bytes| - byteRemainder;
    assert bytes[0..] == bytes;
    ghost var all := DigitsFrom(bytes, 0);
    assert "" + all == all;
    var i := 0;
    while i < mainLength
      invariant 0 <= i <= mainLength && i % 3 == 0
      invariant base64 + DigitsFrom(bytes, i) == all
    {
      var chars := EncodeChunk(bytes[i], bytes[i + 1], bytes[i + 2]);
      DigitsStep(bytes, i);
      assert base64 + (chars + DigitsFrom(bytes, i + 3)) == (base64 + chars) + DigitsFrom(bytes, i + 3);
      base64 := base64 + chars;
      i := i + 3;
    }
    if byteRemainder == 1 {
      var chars := EncodeLast(bytes[mainLength]);
      SextetsOfOne(bytes, mainLength);
      base64 := base64 + chars + "==";
    } else if byteRemainder == 2 {
      var chars := EncodeLastTwo(bytes[mainLength], bytes[mainLength + 1]);
      SextetsOfTwo(bytes, mainLength);
      base64 := base64 + chars + "=";
    } else {
      assert bytes[i..] == [];
      NoBytes();
      assert base64 + "" == base64 && all + "" == all;
    }
  }

  lemma NoBytes()
    ensures Chars(Sextets(ByteBits([]))) == ""
  {
  }

  // ---------- Decoding ----------

  predicate IsSpace(c: char) {
    c == ' ' || c == '\t' || c == '\n' || c == '\r' || c as int == 12
  }

  function WithoutSpaces(s: string): string {
    if s == [] then [] else (if IsSpace(s[0]) then [] else [s[0]]) + WithoutSpaces(s[1..])
  }

  /** A string whose length is a multiple of four loses up to two padding characters. */
  function WithoutPadding(s: string): string {
    if |s| % 4 != 0 || s == [] || s[|s| - 1] != '=' then s
    else if |s| >= 2 && s[|s| - 2] == '=' then s[..|s| - 2]
    else s[..|s| - 1]
  }

  predicate AllDigits(s: string) {
    forall i :: 0 <= i < |s| ==> IsDigit(s[i])
  }

  function SextetOf(c: char): bv6
    requires IsDigit(c)
  {
    IndexOfIff(c);
    IndexOf(c) as bv6
  }

  function SextetsOf(s: string): (ss: seq<bv6>)
    requires AllDigits(s)
    ensures |ss| == |s|
  {
    seq(|s|, i requires 0 <= i < |s| => SextetOf(s[i]))
  }

  /** Eight bits a byte; what does not fill a byte is dropped. */
  function Octets(bits: seq<bool>): seq<bv8> {
    if |bits| < 8 then [] else [FromBits8(bits[..8])] + Octets(bits[8..])
  }

  /** `atob`: the forgiving-base64 decode of the Infra standard. */
  function Atob(s: string): Option<seq<bv8>> {
    var digits := WithoutPadding(WithoutSpaces(s));
    if |digits| % 4 == 1 || !AllDigits(digits) then None
    else Some(Octets(SextetsBits(SextetsOf(digits))))
  }

  /** How many zero bits fill the last sextet of `n` bits. */
  function Fill(n: nat): (z: nat)
    ensures z < 6
    ensures n >= 6 ==> z == (6 - (n - 6) % 6) % 6
    ensures 0 < n < 6 ==> z == 6 - n
  {
    (6 - n % 6) % 6
  }

  /** Cutting into sextets only adds zero bits at the end, fewer than six. */
  lemma {:induction false} SextetsKeepBits(bits: seq<bool>)
    ensures SextetsBits(Sextets(bits)) == bits + Zeros(Fill(|bits|))
    decreases |bits|
  {
    hide FromBits6, Bits6, Sextets;
    if bits == [] {
      NoBits();
    } else if |bits| < 6 {
      var b := bits + Zeros(6 - |bits|);
      SextetBits(b);
      LastSextet(bits);
      assert SextetsBits([FromBits6(b)]) == Bits6(FromBits6(b)) + SextetsBits([]);
    } else {
      var head, rest := FromBits6(bits[..6]), Sextets(bits[6..]);
      SextetBits(bits[..6]);
      SextetsKeepBits(bits[6..]);
      SextetsStep(bits);
      assert ([head] + rest)[1..] == rest;
      assert SextetsBits([head] + rest) == bits[..6] + (bits[6..] + Zeros(Fill(|bits|)));
    }
  }

  lemma NoBits()
    ensures Sextets([]) == [] && SextetsBits([]) == [] && Zeros(Fill(0)) == []
  {
  }

  lemma {:induction false} OctetsOfBits(bytes: seq<bv8>, extra: seq<bool>)
    requires |extra| < 8
    ensures Octets(ByteBits(bytes) + extra) == bytes
  {
    hide FromBits8, Bits8;
    if bytes == [] {
      assert ByteBits(bytes) + extra == extra;
    } else {
      var bits := ByteBits(bytes) + extra;
      OctetsOfBits(bytes[1..], extra);
      ByteFromBits(bytes[0]);
      assert bits[..8] == Bits8(bytes[0]) && bits[8..] == ByteBits(bytes[1..]) + extra;
      assert [bytes[0]] + bytes[1..] == bytes;
    }
  }

  lemma CharSextet(s: bv6)
    ensures IsDigit(SextetChar(s)) && SextetOf(SextetChar(s)) == s
  {
    hide CharOf, IsDigit, IndexOf;
    CharIsDigit(s as int);
    IndexOfChar(s as int);
  }

  lemma CharsBack(ss: seq<bv6>)
    ensures AllDigits(Chars(ss)) && SextetsOf(Chars(ss)) == ss
  {
    hide SextetChar, SextetOf, IsDigit;
    forall i | 0 <= i < |ss|
      ensures IsDigit(Chars(ss)[i]) && SextetOf(Chars(ss)[i]) == ss[i]
    {
      CharSextet(ss[i]);
    }
  }

  lemma {:induction false} NoSpaces(s: string)
    requires forall i :: 0 <= i < |s| ==> !IsSpace(s[i])
    ensures WithoutSpaces(s) == s
  {
    if s != [] {
      NoSpaces(s[1..]);
      assert [s[0]] + s[1..] == s;
    }
  }

  lemma DigitsNotSpaces(c: char)
    requires IsDigit(c)
    ensures !IsSpace(c) && c != '='
  {
    NotDigits('=');
    var i :| 0 <= i < |ALPHABET| && ALPHABET[i] == c;
    CharCode(i);
  }

  /** The encoding has 4 * ceil(n / 3) characters, of which the digits number ceil(8n / 6). */
  lemma {:induction false} SextetsLength(bits: seq<bool>)
    ensures |Sextets(bits)| == (|bits| + 5) / 6
    decreases |bits|
  {
    hide FromBits6;
    if |bits| >= 6 { SextetsLength(bits[6..]); }
  }

  /** How many digits follow the last full group of four. */
  function Tail(n: nat): (t: nat)
    ensures t < 4
  {
    if n % 3 == 0 then 0 else n % 3 + 1
  }

  lemma LengthCount(n: nat, d: nat)
    requires d == (8 * n + 5) / 6
    ensures d % 4 == Tail(n) && d + |Padding(n)| == 4 * ((n + 2) / 3)
  {
    var q, r := n / 3, n % 3;
    assert n == 3 * q + r;
    if r == 0 {
      assert d == 4 * q;
    } else if r == 1 {
      assert d == 4 * q + 2 && (n + 2) / 3 == q + 1;
    } else {
      assert d == 4 * q + 3 && (n + 2) / 3 == q + 1;
    }
  }

  lemma EncodedLength(bytes: seq<bv8>)
    ensures |Encoded(bytes)| == 4 * ((|bytes| + 2) / 3)
    ensures |Chars(Sextets(ByteBits(bytes)))| % 4 == Tail(|bytes|)
  {
    hide Sextets, ByteBits, Chars, Padding, Tail;
    SextetsLength(ByteBits(bytes));
    LengthCount(|bytes|, |Sextets(ByteBits(bytes))|);
  }

  lemma PaddingDropped(digits: string, n: nat)
    requires |digits| % 4 == Tail(n)
    requires digits != [] ==> digits[|digits| - 1] != '='
    ensures WithoutPadding(digits + Padding(n)) == digits
  {
    var s := digits + Padding(n);
    if n % 3 == 1 {
      assert s[|s| - 1] == '=' && s[|s| - 2] == '=' && s[..|s| - 2] == digits;
    } else if n % 3 == 2 {
      assert s[|s| - 1] == '=' && s[|s| - 2] == digits[|digits| - 1] && s[..|s| - 1] == digits;
    } else {
      assert s == digits;
    }
  }

  lemma PaddingRemoved(digits: string, n: nat)
    requires AllDigits(digits) && |digits| % 4 == Tail(n)
    ensures WithoutPadding(WithoutSpaces(digits + Padding(n))) == digits
  {
    hide WithoutSpaces, IsSpace, WithoutPadding, AllDigits;
    PlainDigits(digits);
    EqualsNotSpace();
    NoSpaces(digits + Padding(n));
    PaddingDropped(digits, n);
  }

  lemma PlainDigits(digits: string)
    requires AllDigits(digits)
    ensures forall i :: 0 <= i < |digits| ==> !IsSpace(digits[i]) && digits[i] != '='
  {
    hide IsDigit, IsSpace;
    forall i | 0 <= i < |digits|
      ensures !IsSpace(digits[i]) && digits[i] != '='
    {
      DigitsNotSpaces(digits[i]);
    }
  }

  lemma EqualsNotSpace()
    ensures !IsSpace('=')
  {
  }

  lemma DigitsDecode(bytes: seq<bv8>)
    ensures var digits := Chars(Sextets(ByteBits(bytes)));
            AllDigits(digits) && Octets(SextetsBits(SextetsOf(digits))) == bytes
  {
    hide Sextets, Octets, Bits8, AllDigits, SextetsOf, Chars;
    var bits := ByteBits(bytes);
    CharsBack(Sextets(bits));
    SextetsKeepBits(bits);
    OctetsOfBits(bytes, Zeros(Fill(|bits|)));
  }

  /** Decoding undoes encoding, for every byte array. */
  lemma DecodeEncode(bytes: seq<bv8>)
    ensures Atob(Encoded(bytes)) == Some(bytes)
  {
    hide Sextets, Octets, ByteBits, AllDigits, SextetsOf, Chars, WithoutPadding, WithoutSpaces, Padding, SextetsBits;
    assert Tail(|bytes|) != 1;
    var digits := Chars(Sextets(ByteBits(bytes)));
    EncodedLength(bytes);
    DigitsDecode(bytes);
    PaddingRemoved(digits, |bytes|);
  }

  // ---------- base64url ----------

  function ToUrl(c: char): char { if c == '+' then '-' else if c == '/' then '_' else c }

  function FromUrl(c: char): char { if c == '-' then '+' else if c == '_' then '/' else c }

  function MapChars(s: string, f: char -> char): (r: string)
    ensures |r| == |s|
  {
    seq(|s|, i requires 0 <= i < |s| => f(s[i]))
  }

  /** Section 5 of RFC 4648, without padding. */
  function EncodedUrl(bytes: seq<bv8>): string {
    MapChars(Chars(Sextets(ByteBits(bytes))), ToUrl)
  }

  function RepeatEquals(n: nat): string { seq(n, _ => '=') }

  /** The debug adapter pads to a multiple of four, restores the two characters and calls `atob`. */
  function Base64UrlDecode(s: string): Option<seq<bv8>> {
    Atob(MapChars(s, FromUrl) + RepeatEquals((4 - |s| % 4) % 4))
  }

  lemma UrlRoundTrip(digits: string)
    requires AllDigits(digits)
    ensures MapChars(MapChars(digits, ToUrl), FromUrl) == digits
  {
    hide IsDigit;
    NotDigits('-');
    NotDigits('_');
    forall i | 0 <= i < |digits|
      ensures FromUrl(ToUrl(digits[i])) == digits[i]
    {
      assert IsDigit(digits[i]);
    }
  }

  /** The padding rule undoes the unpadded URL-safe encoding, for every byte array. */
  lemma UrlDecodeEncode(bytes: seq<bv8>)
    ensures Base64UrlDecode(EncodedUrl(bytes)) == Some(bytes)
  {
    hide Sextets, Octets, ByteBits, AllDigits, SextetsOf, Chars, Atob, MapChars;
    var digits := Chars(Sextets(ByteBits(bytes)));
    DigitsDecode(bytes);
    UrlRoundTrip(digits);
    EncodedLength(bytes);
    assert RepeatEquals((4 - |digits| % 4) % 4) == Padding(|bytes|);
    DecodeEncode(bytes);
  }

  lemma {:induction false} SpacesBefore(s: string, t: string)
    ensures WithoutSpaces(s + t) == WithoutSpaces(s) + WithoutSpaces(t)
  {
    hide IsSpace, WithoutSpaces;
    if s == [] {
      assert s + t == t && WithoutSpaces(s) == [] by { NoSpaces([]); }
    } else {
      SpacesBefore(s[1..], t);
      assert (s + t)[0] == s[0] && (s + t)[1..] == s[1..] + t;
      FirstOfSpaces(s);
      FirstOfSpaces(s + t);
    }
  }

  lemma FirstOfSpaces(s: string)
    requires s != []
    ensures WithoutSpaces(s) == (if IsSpace(s[0]) then [] else [s[0]]) + WithoutSpaces(s[1..])
  {
    hide IsSpace;
  }

  /** A single digit left over is refused: it does not make a byte. */
  lemma LoneDigitRefused(digits: string)
    requires AllDigits(digits) && |digits| % 4 == 1
    ensures Atob(digits) == None
  {
    hide WithoutSpaces, AllDigits, SextetsOf, Octets, SextetsBits, IsSpace;
    PlainDigits(digits);
    NoSpaces(digits);
  }

  /** The URL-safe form has no plus, slash or padding. */
  lemma UrlSafe(bytes: seq<bv8>)
    ensures forall i :: 0 <= i < |EncodedUrl(bytes)| ==> EncodedUrl(bytes)[i] !in ['+', '/', '=']
  {
    hide Sextets, ByteBits, Chars, IsDigit, SextetsOf;
    var digits := Chars(Sextets(ByteBits(bytes)));
    CharsBack(Sextets(ByteBits(bytes)));
    NotDigits('=');
    forall i | 0 <= i < |digits| ensures ToUrl(digits[i]) !in ['+', '/', '='] {
      assert IsDigit(digits[i]);
    }
  }

  /** At most two of three padding characters are removed, with or without spaces before them. */
  lemma ThreePadsRefused(s: string)
    ensures Atob(s + RepeatEquals(3)) == None
  {
    hide IsDigit, WithoutSpaces, IsSpace, SextetsOf, Octets, SextetsBits;
    EqualsNotSpace();
    SpacesBefore(s, RepeatEquals(3));
    NoSpaces(RepeatEquals(3));
    NotDigits('=');
    var t := WithoutSpaces(s) + RepeatEquals(3);
    var digits := WithoutPadding(t);
    assert digits == t || digits == t[..|t| - 2];
    assert digits[|digits| - 1] == '=';
  }

  /** A length of 4k + 1 is refused, whatever the characters. */
  lemma UrlBadLength(s: string)
    requires |s| % 4 == 1
    ensures Base64UrlDecode(s) == None
  {
    hide Atob;
    ThreePadsRefused(MapChars(s, FromUrl));
  }
}
