/** The Base64 VLQ decoder of the debug adapter, with JavaScript's 32-bit shifts. */
module Vlq {
  import opened Alphabet

  const TWO30 := 0x4000_0000
  const TWO31 := 0x8000_0000
  const TWO32 := 0x1_0000_0000

  function Pow2(n: nat): (p: nat)
    ensures p >= 1
  {
    if n == 0 then 1 else 2 * Pow2(n - 1)
  }

  /** JavaScript's conversion of a number to a signed 32-bit integer. */
  function ToInt32(x: int): (r: int)
    ensures -TWO31 <= r < TWO31
    ensures -TWO31 <= x < TWO31 ==> r == x
  {
    var m := x % TWO32;
    if m >= TWO31 then m - TWO32 else m
  }

  /** `x << n`. */
  function Shl(x: int, n: nat): int {
    ToInt32(x * Pow2(n % 32))
  }

  /** Only the low five bits of the shift count, and the low 32 bits of the result. */
  lemma ShlWraps(x: int, n: nat)
    ensures Shl(x, n + 32) == Shl(x, n)
    ensures (x * Pow2(n % 32) - Shl(x, n)) % TWO32 == 0
  {
    hide Pow2;
    assert (n + 32) % 32 == n % 32;
    var y := x * Pow2(n % 32);
    assert y == y / TWO32 * TWO32 + y % TWO32;
    assert y - ToInt32(y) == y / TWO32 * TWO32 || y - ToInt32(y) == (y / TWO32 + 1) * TWO32;
  }

  /** The number pushed once a digit without continuation bit arrives: `value & 1` is the sign of `value >> 1`. */
  function Finish(value: int): (r: int)
    ensures -TWO30 <= r <= TWO30
  {
    var half := ToInt32(value) / 2;
    if value % 2 == 1 then -half else half
  }

  function DecodeFrom(s: string, shift: nat, value: int): seq<int> {
    if s == [] then []
    else
      var digit := IndexOf(s[0]);
      if digit == -1 then DecodeFrom(s[1..], shift, value)
      else
        var value' := value + Shl(digit % 32, shift);
        if digit >= 32 then DecodeFrom(s[1..], shift + 5, value')
        else [Finish(value')] + DecodeFrom(s[1..], 0, 0)
  }

  function Decode(s: string): seq<int> {
    DecodeFrom(s, 0, 0)
  }

  lemma DecodeStep(s: string, i: nat, shift: nat, value: int)
    requires i < |s|
    ensures var digit := IndexOf(s[i]);
            var value' := value + Shl(digit % 32, shift);
            DecodeFrom(s[i..], shift, value)
            == if digit == -1 then DecodeFrom(s[i + 1..], shift, value)
               else if digit >= 32 then DecodeFrom(s[i + 1..], shift + 5, value')
               else [Finish(value')] + DecodeFrom(s[i + 1..], 0, 0)
  {
    hide IndexOf, Shl, Finish;
    assert s[i..][0] == s[i] && s[i..][1..] == s[i + 1..];
  }

  method DecodeVlq(encoded: string) returns (values: seq<int>)
    ensures values == Decode(encoded)
  {
    hide Shl, IndexOf, DecodeFrom, ToInt32;
    values := [];
    var shift, value := 0, 0;
    assert encoded[0..] == encoded;
    for i := 0 to |encoded|
      invariant shift >= 0
      invariant values + DecodeFrom(encoded[i..], shift, value) == Decode(encoded)
    {
      DecodeStep(encoded, i, shift, value);
      var digit := IndexOf(encoded[i]);
      if digit == -1 { continue; }
      var hasContinuation := digit / 32 % 2 == 1;
      ghost var was := values;
      value := value + Shl(digit % 32, shift);
      if hasContinuation {
        shift := shift + 5;
      } else {
        ghost var number, rest := Finish(value), DecodeFrom(encoded[i + 1..], 0, 0);
        var isNegative := value % 2 == 1;
        value := ToInt32(value) / 2;
        values := values + [if isNegative then -value else value];
        value, shift := 0, 0;
        assert (was + [number]) + rest == was + ([number] + rest);
      }
    }
    assert encoded[|encoded|..] == [];
    DecodeEnd(shift, value);
  }

  lemma DecodeEnd(shift: nat, value: int)
    ensures DecodeFrom([], shift, value) == []
  {
  }

  // ---------- The encoding, as ECMA-426 defines it ----------

  /** Five bits a digit, least significant first, bit 32 set on all but the last. */
  function EncodeNat(v: nat): string {
    if v < 32 then [CharOf(v)] else [CharOf(32 + v % 32)] + EncodeNat(v / 32)
  }

  /** The sign is kept in the least significant bit. */
  function WithSign(x: int): nat {
    if x < 0 then -2 * x + 1 else 2 * x
  }

  function EncodeAll(xs: seq<int>): string {
    if xs == [] then [] else EncodeNat(WithSign(xs[0])) + EncodeAll(xs[1..])
  }

  // ---------- Decoding one number ----------

  /** What the decoder's additions and 32-bit shifts make of `v`. */
  function Accumulated(v: nat, shift: nat): int {
    Shl(v % 32, shift) + if v < 32 then 0 else Accumulated(v / 32, shift + 5)
  }

  lemma {:induction false} DecodeOne(v: nat, shift: nat, value: int, rest: string)
    ensures DecodeFrom(EncodeNat(v) + rest, shift, value) == [Finish(value + Accumulated(v, shift))] + Decode(rest)
    decreases v
  {
    hide IndexOf, Shl, Finish, CharOf;
    var s := EncodeNat(v) + rest;
    if v < 32 {
      IndexOfChar(v);
      assert s[0] == CharOf(v) && s[1..] == rest;
    } else {
      IndexOfChar(32 + v % 32);
      assert s[0] == CharOf(32 + v % 32) && s[1..] == EncodeNat(v / 32) + rest;
      DecodeOne(v / 32, shift + 5, value + Shl(v % 32, shift), rest);
    }
  }

  lemma {:induction false} Pow2Adds(m: nat, n: nat)
    ensures Pow2(m + n) == Pow2(m) * Pow2(n)
  {
    if m > 0 {
      Pow2Adds(m - 1, n);
      assert 2 * (Pow2(m - 1) * Pow2(n)) == (2 * Pow2(m - 1)) * Pow2(n);
    }
  }

  lemma Pow2Values()
    ensures Pow2(5) == 32 && Pow2(30) == TWO30 && Pow2(31) == TWO31
  {
    assert Pow2(5) == 32;
    Pow2Adds(5, 5);
    Pow2Adds(10, 10);
    Pow2Adds(20, 10);
    Pow2Adds(1, 30);
  }

  lemma Pow2Monotone(m: nat, n: nat)
    requires m <= n
    ensures Pow2(m) <= Pow2(n)
  {
    if m < n { Pow2Monotone(m, n - 1); }
  }

  lemma SplitProduct(v: nat, p: nat)
    ensures v * p == 32 * (v / 32 * p) + v % 32 * p
    ensures v / 32 * p >= 0 && v % 32 * p >= 0
  {
    var q, r := v / 32, v % 32;
    assert v == 32 * q + r;
    assert (32 * q + r) * p == 32 * (q * p) + r * p;
  }

  lemma NextShift(q: nat, shift: nat)
    requires q >= 1 && 32 * (q * Pow2(shift)) < TWO31
    ensures q * Pow2(shift + 5) == 32 * (q * Pow2(shift)) && shift + 5 < 32
  {
    hide Pow2;
    Pow2Values();
    Pow2Adds(5, shift);
    var p := Pow2(shift);
    assert q * (32 * p) == 32 * (q * p);
    assert q * Pow2(shift + 5) >= Pow2(shift + 5);
    if shift + 5 >= 32 { Pow2Monotone(31, shift + 5); }
  }

  /** As long as the value stays below 2^31 the shifts are exact. */
  lemma {:induction false} AccumulatedExact(v: nat, shift: nat)
    requires v * Pow2(shift) < TWO31 && shift < 32
    ensures Accumulated(v, shift) == v * Pow2(shift)
    decreases v
  {
    hide Pow2;
    SplitProduct(v, Pow2(shift));
    if v >= 32 {
      NextShift(v / 32, shift);
      AccumulatedExact(v / 32, shift + 5);
    } else {
      assert v % 32 == v;
    }
  }

  function Decoded(x: int): int {
    Finish(Accumulated(WithSign(x), 0))
  }

  /** At 2^31 the signed shift goes wrong. */
  lemma AccumulatedAtLimit(b: nat)
    requires b < 2
    ensures Accumulated(TWO31 + b, 0) == b - TWO31
  {
    hide Shl;
    Pow2Values();
    ShlSmall();
    var v := TWO31 + b;
    assert Accumulated(2, 30) == -TWO31;
    assert Accumulated(0x40, 25) == -TWO31;
    assert Accumulated(0x800, 20) == -TWO31;
    assert Accumulated(0x1_0000, 15) == -TWO31;
    assert Accumulated(0x20_0000, 10) == -TWO31;
    assert Accumulated(0x400_0000, 5) == -TWO31;
    assert v % 32 == b && v / 32 == 0x400_0000;
  }

  lemma ShlSmall()
    ensures forall n :: Shl(0, n) == 0
    ensures Shl(2, 30) == -TWO31 && Shl(1, 0) == 1
  {
    Pow2Values();
  }

  /** One number survives encoding and decoding exactly when its magnitude is below 2^30. */
  lemma DecodedIff(x: int)
    ensures Decoded(x) == x <==> -TWO30 < x < TWO30
  {
    hide Accumulated;
    if -TWO30 < x < TWO30 {
      AccumulatedExact(WithSign(x), 0);
    } else if x == TWO30 {
      AccumulatedAtLimit(0);
    } else if x == -TWO30 {
      AccumulatedAtLimit(1);
    }
  }

  // ---------- Decoding a list ----------

  lemma {:induction false} DecodeEncoded(xs: seq<int>)
    ensures Decode(EncodeAll(xs)) == seq(|xs|, i requires 0 <= i < |xs| => Decoded(xs[i]))
  {
    hide Decoded, Finish, Accumulated, DecodeFrom, EncodeNat, WithSign;
    if xs == [] {
      DecodeNothing();
    } else {
      DecodeOne(WithSign(xs[0]), 0, 0, EncodeAll(xs[1..]));
      DecodeEncoded(xs[1..]);
      DecodedIs(xs[0]);
    }
  }

  lemma DecodeNothing()
    ensures Decode("") == []
  {
  }

  lemma DecodedIs(x: int)
    ensures Decoded(x) == Finish(Accumulated(WithSign(x), 0))
  {
  }

  /** A list of numbers survives encoding and decoding exactly when all are of magnitude below 2^30. */
  lemma RoundTripIff(xs: seq<int>)
    ensures Decode(EncodeAll(xs)) == xs <==> forall i :: 0 <= i < |xs| ==> -TWO30 < xs[i] < TWO30
  {
    hide Decode, EncodeAll, Decoded;
    DecodeEncoded(xs);
    var d := Decode(EncodeAll(xs));
    forall i | 0 <= i < |xs|
      ensures d[i] == xs[i] <==> -TWO30 < xs[i] < TWO30
    {
      DecodedIff(xs[i]);
    }
    assert d == xs <==> forall i :: 0 <= i < |xs| ==> d[i] == xs[i];
  }

  // ---------- Other strings ----------

  function DigitsOf(s: string): string {
    if s == [] then [] else (if IsDigit(s[0]) then [s[0]] else []) + DigitsOf(s[1..])
  }

  lemma {:induction false} SkipOthers(s: string, shift: nat, value: int)
    ensures DecodeFrom(s, shift, value) == DecodeFrom(DigitsOf(s), shift, value)
  {
    hide IndexOf, IsDigit, Shl, Finish;
    if s != [] {
      var digit, d := IndexOf(s[0]), DigitsOf(s);
      IndexOfIff(s[0]);
      if IsDigit(s[0]) {
        assert d[0] == s[0] && d[1..] == DigitsOf(s[1..]);
        var value' := value + Shl(digit % 32, shift);
        if digit >= 32 { SkipOthers(s[1..], shift + 5, value'); } else { SkipOthers(s[1..], 0, 0); }
      } else {
        assert d == DigitsOf(s[1..]);
        SkipOthers(s[1..], shift, value);
      }
    }
  }

  /** Characters outside the alphabet change nothing, wherever they stand. */
  lemma OthersIgnored(s: string)
    ensures Decode(s) == Decode(DigitsOf(s))
  {
    SkipOthers(s, 0, 0);
  }

  lemma {:induction false} ContinuationsEnd(s: string, shift: nat, value: int)
    requires forall i :: 0 <= i < |s| ==> IndexOf(s[i]) >= 32
    ensures DecodeFrom(s, shift, value) == []
  {
    hide IndexOf, Shl, Finish;
    if s != [] {
      ContinuationsEnd(s[1..], shift + 5, value + Shl(IndexOf(s[0]) % 32, shift));
    }
  }

  /** A number whose last digit is missing is dropped; those before it are kept. */
  lemma {:induction false} UnfinishedDropped(xs: seq<int>, s: string)
    requires forall i :: 0 <= i < |s| ==> IndexOf(s[i]) >= 32
    ensures Decode(EncodeAll(xs) + s) == Decode(EncodeAll(xs))
  {
    hide IndexOf, DecodeFrom, EncodeNat, WithSign, Finish, Accumulated;
    if xs == [] {
      assert EncodeAll(xs) + s == s;
      ContinuationsEnd(s, 0, 0);
      DecodeNothing();
    } else {
      UnfinishedDropped(xs[1..], s);
      var first := EncodeNat(WithSign(xs[0]));
      assert EncodeAll(xs) + s == first + (EncodeAll(xs[1..]) + s);
      DecodeOne(WithSign(xs[0]), 0, 0, EncodeAll(xs[1..]) + s);
      DecodeOne(WithSign(xs[0]), 0, 0, EncodeAll(xs[1..]));
    }
  }

  lemma {:induction false} EncodedIsDigits(v: nat)
    ensures forall i :: 0 <= i < |EncodeNat(v)| ==> IsDigit(EncodeNat(v)[i])
    decreases v
  {
    hide CharOf, IsDigit;
    if v < 32 {
      CharIsDigit(v);
    } else {
      CharIsDigit(32 + v % 32);
      EncodedIsDigits(v / 32);
    }
  }

  lemma {:induction false} EncodedAllDigits(xs: seq<int>)
    ensures forall i :: 0 <= i < |EncodeAll(xs)| ==> IsDigit(EncodeAll(xs)[i])
  {
    hide EncodeNat, IsDigit;
    if xs != [] {
      EncodedIsDigits(WithSign(xs[0]));
      EncodedAllDigits(xs[1..]);
    }
  }
}
