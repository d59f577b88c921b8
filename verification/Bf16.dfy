// The bf16 transport encoding: the server keeps the upper half of each binary32
// pattern, the daemon shifts it back and fills the lower half with zeros.
module Bf16 {

  type Byte = b: int | 0 <= b < 0x100
  type Half = h: int | 0 <= h < 0x1_0000
  type Bits = u: int | 0 <= u < 0x1_0000_0000

  // (uint16_t)(u32 >> 16)
  function Truncate(f: Bits): Half {
    f / 0x1_0000
  }

  // (uint32_t)u16 << 16
  function Widen(h: Half): Bits {
    h * 0x1_0000
  }

  // What a value becomes after crossing the wire.
  function Quantize(f: Bits): Bits {
    Widen(Truncate(f))
  }

  function QuantizeRow(row: seq<Bits>): (r: seq<Bits>) {
    seq(|row|, i requires 0 <= i < |row| => Quantize(row[i]))
  }

  // Byte layout of a packed row, two little-endian bytes a value.
  function Pack(row: seq<Bits>): (bytes: seq<Byte>)
    ensures |bytes| == 2 * |row|
  {
    seq(2 * |row|, i requires 0 <= i < 2 * |row| =>
      if i % 2 == 0 then Truncate(row[i / 2]) % 0x100 else Truncate(row[i / 2]) / 0x100)
  }

  function Unpack(bytes: seq<Byte>, n: nat): (row: seq<Bits>)
    requires |bytes| >= 2 * n
    ensures |row| == n
  {
    seq(n, i requires 0 <= i < n =>
      var low: int, high: int := bytes[2 * i], bytes[2 * i + 1];
      Widen(low + 0x100 * high))
  }

  // Writing then reading a row quantizes each of its values, and nothing else.
  lemma UnpackPack(row: seq<Bits>)
    ensures Unpack(Pack(row), |row|) == QuantizeRow(row)
  {
    var bytes := Pack(row);
    forall i | 0 <= i < |row|
      ensures Unpack(bytes, |row|)[i] == Quantize(row[i])
    {
      assert bytes[2 * i] == Truncate(row[i]) % 0x100;
      assert bytes[2 * i + 1] == Truncate(row[i]) / 0x100;
    }
  }

  // The number that two bytes stand for, the lower one first.
  function LittleEndian(low: int, high: int): int {
    low + 0x100 * high
  }

  // The wire carries the upper half of each pattern, the lower byte first.
  lemma WireIsLittleEndian(row: seq<Bits>, i: nat)
    requires i < |row|
    ensures LittleEndian(Pack(row)[2 * i], Pack(row)[2 * i + 1]) == row[i] / 0x1_0000
    ensures Unpack(Pack(row), |row|)[i] == LittleEndian(Pack(row)[2 * i], Pack(row)[2 * i + 1]) * 0x1_0000
  {
    assert Pack(row)[2 * i] == Truncate(row[i]) % 0x100;
    assert Pack(row)[2 * i + 1] == Truncate(row[i]) / 0x100;
  }

  // The packing loop of process().
  method PackRow(row: seq<Bits>) returns (bytes: seq<Byte>)
    ensures bytes == Pack(row)
  {
    bytes := [];
    for v := 0 to |row|
      invariant |bytes| == 2 * v
      invariant forall i :: 0 <= i < 2 * v ==> bytes[i] == Pack(row)[i]
    {
      var u16 := Truncate(row[v]);
      bytes := bytes + [u16 % 0x100, u16 / 0x100];
    }
  }

  // bf16_to_f32: the daemon's inverse loop over one packet.
  method Bf16ToF32(data: seq<Byte>, n: nat) returns (out: array<Bits>)
    requires |data| >= 2 * n
    ensures fresh(out) && out.Length == n
    ensures out[..] == Unpack(data, n)
  {
    out := new Bits[n];
    for i := 0 to n
      invariant forall j :: 0 <= j < i ==> out[j] == Unpack(data, n)[j]
    {
      var low: int, high: int := data[2 * i], data[2 * i + 1];
      var u16: Half := low + 0x100 * high;
      out[i] := Widen(u16);
    }
  }

  // ----- binary32 values (IEEE 754-2008, section 3.4) -----

  function Sign(f: Bits): int { f / 0x8000_0000 }
  function Exponent(f: Bits): int { f / 0x80_0000 % 0x100 }
  function Fraction(f: Bits): int { f % 0x80_0000 }
  function Significand(f: Bits): int {
    if Exponent(f) == 0 then Fraction(f) else 0x80_0000 + Fraction(f)
  }
  predicate Finite(f: Bits) { Exponent(f) != 0xFF }
  predicate Normal(f: Bits) { 0 < Exponent(f) < 0xFF }

  function Pow2(n: nat): (r: nat)
    ensures r >= 1
  {
    if n == 0 then 1 else 2 * Pow2(n - 1)
  }

  // A significand at its exponent, counted in units of 2^-149 (the least positive
  // subnormal), so that every finite value is an integer.
  function Scale(significand: nat, exponent: nat): (r: nat)
    ensures exponent <= 1 ==> r == significand
  {
    significand * Pow2(if exponent == 0 then 0 else exponent - 1)
  }

  function Magnitude(f: Bits): nat {
    Scale(Significand(f), Exponent(f))
  }

  // The value in units of 2^-149.
  function Value(f: Bits): int
    requires Finite(f)
  {
    var m: int := Magnitude(f);
    if Sign(f) == 0 then m else -m
  }

  lemma QuantizeFields(f: Bits)
    ensures Sign(Quantize(f)) == Sign(f)
    ensures Exponent(Quantize(f)) == Exponent(f)
    ensures Fraction(Quantize(f)) == Fraction(f) - f % 0x1_0000
  {
  }

  lemma ProductGrows(a: nat, b: nat, x: nat, y: nat)
    requires a <= b && x <= y
    ensures a * x <= b * y
    ensures a < b && 0 < x ==> a * x < b * y
  {
    assert b * y - a * x == b * (y - x) + (b - a) * x;
  }

  lemma ScaleGrows(a: nat, b: nat, e: nat)
    requires a <= b
    ensures Scale(a, e) <= Scale(b, e)
    ensures a < b ==> Scale(a, e) < Scale(b, e)
  {
    var p := Pow2(if e == 0 then 0 else e - 1);
    ProductGrows(a, b, p, p);
  }

  lemma Pow2Grows(m: nat, n: nat)
    requires m <= n
    ensures Pow2(m) <= Pow2(n)
  {
    if m < n {
      Pow2Grows(m, n - 1);
    }
  }

  // A full significand is below the least normal one at any larger exponent.
  lemma ScaleSteps(d: nat, e: nat)
    requires d < e
    ensures Scale(if d == 0 then 0x80_0000 else 0x100_0000, d) <= Scale(0x80_0000, e)
  {
    Pow2Grows(d, e - 1);
  }

  lemma PatternFields(a: Bits, b: Bits)
    requires a < b < 0x7F80_0000
    ensures 0 <= Exponent(a) <= Exponent(b)
    ensures Exponent(a) == Exponent(b) ==> Significand(a) < Significand(b)
    ensures Significand(a) < if Exponent(a) == 0 then 0x80_0000 else 0x100_0000
    ensures 0 < Exponent(b) ==> 0x80_0000 <= Significand(b)
  {
  }

  // Below the sign bit, patterns order finite values strictly.
  lemma MagnitudeFollowsPattern(a: Bits, b: Bits)
    requires a < b < 0x7F80_0000
    ensures Magnitude(a) < Magnitude(b)
  {
    PatternFields(a, b);
    var d, e, s, t := Exponent(a), Exponent(b), Significand(a), Significand(b);
    if d == e {
      ScaleGrows(s, t, d);
    } else {
      ScaleGrows(s, if d == 0 then 0x80_0000 else 0x100_0000, d);
      ScaleSteps(d, e);
      ScaleGrows(0x80_0000, t, e);
    }
  }

  lemma ScaleLoses(s: nat, lost: nat, e: nat)
    requires lost < 0x1_0000 && lost <= s
    ensures Scale(s, e) == Scale(s - lost, e) + Scale(lost, e)
    ensures 0x80_0000 <= s ==> Scale(lost, e) * 128 < Scale(s, e)
  {
    var p := Pow2(if e == 0 then 0 else e - 1);
    assert s * p == (s - lost) * p + lost * p;
    if 0x80_0000 <= s {
      ProductGrows(lost * 128, s, p, p);
      assert lost * 128 * p == lost * p * 128;
    }
  }

  // Truncation keeps sign and exponent, is idempotent, and never grows the
  // magnitude. What it loses is below one part in 2^7 of a normal value, and below
  // 2^16 units, that is 2^-133, of a subnormal one.
  lemma TruncationBound(f: Bits)
    requires Finite(f)
    ensures Finite(Quantize(f)) && Sign(Quantize(f)) == Sign(f) && Exponent(Quantize(f)) == Exponent(f)
    ensures Quantize(Quantize(f)) == Quantize(f)
    ensures Magnitude(Quantize(f)) <= Magnitude(f)
    ensures Normal(f) ==> (Magnitude(f) - Magnitude(Quantize(f))) * 128 < Magnitude(f)
    ensures !Normal(f) ==> Magnitude(f) - Magnitude(Quantize(f)) < 0x1_0000
  {
    QuantizeFields(f);
    ScaleLoses(Significand(f), f % 0x1_0000, Exponent(f));
  }

  // Truncation never reverses two finite values.
  lemma TruncationKeepsOrder(f: Bits, g: Bits)
    requires Finite(f) && Finite(g) && Value(f) <= Value(g)
    ensures Finite(Quantize(f)) && Finite(Quantize(g))
    ensures Value(Quantize(f)) <= Value(Quantize(g))
  {
    QuantizeFields(f);
    QuantizeFields(g);
    LowBits(f);
    LowBits(g);
    LowBits(Quantize(f));
    LowBits(Quantize(g));
    var a, b := f % 0x8000_0000, g % 0x8000_0000;
    if Sign(f) == Sign(g) {
      if Sign(f) == 0 {
        MagnitudeOrder(a, b);
      } else {
        MagnitudeOrder(b, a);
      }
    } else if Sign(f) == 0 {
      assert Magnitude(f) == Magnitude(g) == 0;
      TruncationBound(f);
      TruncationBound(g);
    }
  }

  lemma LowFields(f: Bits)
    ensures Exponent(f % 0x8000_0000) == Exponent(f) && Fraction(f % 0x8000_0000) == Fraction(f)
    ensures Finite(f) ==> f % 0x8000_0000 < 0x7F80_0000
  {
  }

  lemma LowQuantize(f: Bits)
    ensures Quantize(f) % 0x8000_0000 == Quantize(f % 0x8000_0000)
  {
  }

  lemma LowBits(f: Bits)
    ensures Magnitude(f % 0x8000_0000) == Magnitude(f)
    ensures Quantize(f) % 0x8000_0000 == Quantize(f % 0x8000_0000)
    ensures Finite(f) ==> f % 0x8000_0000 < 0x7F80_0000
  {
    LowFields(f);
    LowQuantize(f);
  }

  lemma QuantizeBelow(a: Bits, b: Bits)
    ensures Quantize(b) <= b
    ensures a <= b ==> Quantize(a) <= Quantize(b)
  {
  }

  lemma MagnitudeOrder(a: Bits, b: Bits)
    requires a < 0x7F80_0000 && b < 0x7F80_0000 && Magnitude(a) <= Magnitude(b)
    ensures Magnitude(Quantize(a)) <= Magnitude(Quantize(b))
  {
    QuantizeBelow(a, b);
    if b < a {
      MagnitudeFollowsPattern(b, a);
    } else if Quantize(a) != Quantize(b) {
      MagnitudeFollowsPattern(Quantize(a), Quantize(b));
    }
  }

  // Outside the finite values the class, infinity or NaN, is kept exactly when the
  // payload is zero or reaches into the kept half: any other NaN arrives as an infinity.
  lemma NonFiniteClass(f: Bits)
    requires !Finite(f)
    ensures !Finite(Quantize(f)) && Sign(Quantize(f)) == Sign(f)
    ensures (Fraction(Quantize(f)) == 0 <==> Fraction(f) == 0) <==> (Fraction(f) == 0 || Fraction(f) >= 0x1_0000)
  {
    QuantizeFields(f);
  }

  // Such NaNs exist.
  lemma NanMayBecomeInfinity()
    ensures !Finite(0x7F80_0001) && Fraction(0x7F80_0001) != 0
    ensures !Finite(Quantize(0x7F80_0001)) && Fraction(Quantize(0x7F80_0001)) == 0
  {
    assert Quantize(0x7F80_0001) == 0x7F80_0000;
  }
}
