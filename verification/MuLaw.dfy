/**
 The G.711 mu-law codec: the encoder of the firmware and the decoder of the gateway,
 written in two languages, and what they promise each other (section 3, Tables 2a and 2b,
 of ITU-T G.711).
 */
module MuLaw {
  import opened Basics

  const BIAS: int := 0x84
  const CLIP: int := 32635

  function Pow2(e: nat): (p: nat)
    ensures p > 0
  {
    if e == 0 then 1 else 2 * Pow2(e - 1)
  }

  lemma {:induction false} Pow2Table()
    ensures Pow2(0) == 1 && Pow2(1) == 2 && Pow2(2) == 4 && Pow2(3) == 8 && Pow2(4) == 16 && Pow2(5) == 32
    ensures Pow2(6) == 64 && Pow2(7) == 128 && Pow2(8) == 256 && Pow2(9) == 512 && Pow2(10) == 1024
    ensures Pow2(11) == 2048 && Pow2(12) == 4096 && Pow2(13) == 8192 && Pow2(14) == 16384 && Pow2(15) == 32768
  {
    assert Pow2(4) == 16;
    assert Pow2(8) == 256;
    assert Pow2(12) == 4096;
  }

  /** The biased, clipped magnitude the encoder works on. */
  function Biased(pcm: int16): (x: nat)
    ensures BIAS <= x < 0x8000
  {
    var magnitude: int := pcm;
    Min(if magnitude < 0 then -magnitude else magnitude, CLIP) + BIAS
  }

  /** The segment of a biased magnitude: the only e with 2^(e+7) <= x < 2^(e+8). */
  ghost predicate InSegment(x: nat, e: nat) {
    e < 8 && Pow2(e + 7) <= x < Pow2(e + 8)
  }

  function Segment(x: nat): (e: nat)
    requires BIAS <= x < 0x8000
    ensures InSegment(x, e)
  {
    Pow2Table();
    if x >= 0x4000 then 7 else if x >= 0x2000 then 6 else if x >= 0x1000 then 5 else if x >= 0x800 then 4
    else if x >= 0x400 then 3 else if x >= 0x200 then 2 else if x >= 0x100 then 1 else 0
  }

  lemma {:induction false} SegmentUnique(x: nat, e: nat, f: nat)
    requires InSegment(x, e) && InSegment(x, f)
    ensures e == f
  {
    Pow2Table();
  }

  function Encode(pcm: int16): (code: byte) {
    var x := Biased(pcm);
    var e := Segment(x);
    255 - ((if pcm < 0 then 0x80 else 0) + 16 * e + (x / Pow2(e + 3)) % 16)
  }

  /** sample & mask, for a mask of one bit */
  predicate HasBit(sample: nat, mask: nat)
    requires mask > 0
  {
    (sample / mask) % 2 != 0
  }

  lemma {:induction false} TopBit(sample: nat, mask: nat)
    requires mask > 0 && sample < 2 * mask
    ensures HasBit(sample, mask) <==> sample >= mask
  {
  }

  lemma {:induction false} HalfMask(e: nat)
    ensures Pow2(e + 1) / 2 == Pow2(e)
  {
  }

  /** The encoder as the firmware runs it: a mask walks down from bit 14 to the leading one. */
  method LinearToMuLaw(pcm: int16) returns (code: byte)
    ensures code == Encode(pcm)
  {
    hide Segment, HasBit, Pow2;
    var sample: int := pcm;
    var sign := 0;
    if sample < 0 {
      sign := 0x80;
      sample := -sample;
    }
    if sample > CLIP {
      sample := CLIP;
    }
    sample := sample + BIAS;
    var exponent: nat := 7;
    var mask: nat := 0x4000;
    Pow2Table();
    TopBit(sample, mask);
    while exponent > 0 && !HasBit(sample, mask)
      invariant exponent <= 7 && mask == Pow2(exponent + 7)
      invariant sample == Biased(pcm) && sample < Pow2(exponent + 8)
      invariant HasBit(sample, mask) <==> sample >= mask
    {
      HalfMask(exponent + 6);
      exponent, mask := exponent - 1, mask / 2;
      assert Pow2(exponent + 8) == 2 * mask by { DoublePow2(exponent + 7); }
      TopBit(sample, mask);
    }
    SegmentUnique(sample, exponent, Segment(sample));
    var mantissa := (sample / Pow2(exponent + 3)) % 16;
    code := 255 - (sign + 16 * exponent + mantissa);
  }

  lemma {:induction false} DoublePow2(e: nat)
    ensures Pow2(e + 1) == 2 * Pow2(e)
  {
  }

  function Decode(code: byte): (pcm: int16)
    ensures -32124 <= pcm <= 32124
  {
    var value := 255 - code;
    var e := (value / 16) % 8;
    var m := value % 16;
    DecodeRange(m, e);
    var sample := Expanded(m, e);
    if value >= 0x80 then -sample else sample
  }

  function Expanded(m: nat, e: nat): int {
    (m * 8 + BIAS) * Pow2(e) - BIAS
  }

  lemma {:induction false} DecodeRange(m: nat, e: nat)
    requires m < 16 && e < 8
    ensures 0 <= Expanded(m, e) <= 32124
    ensures (m * 8 + BIAS) * Pow2(e) == (m + 16) * Pow2(e + 3) + Pow2(e + 2)
  {
    Pow2Table();
    if e == 0 {} else if e == 1 {} else if e == 2 {} else if e == 3 {}
    else if e == 4 {} else if e == 5 {} else if e == 6 {} else {}
  }

  /** The decoder's level for a biased magnitude: the midpoint of its quantisation step. */
  function Level(x: nat): nat
    requires BIAS <= x < 0x8000
  {
    var e := Segment(x);
    (x / Pow2(e + 3)) * Pow2(e + 3) + Pow2(e + 2)
  }

  lemma {:induction false} LeadingBit(x: nat)
    requires BIAS <= x < 0x8000
    ensures var q := x / Pow2(Segment(x) + 3); 16 <= q < 32 && q % 16 == q - 16
  {
    Pow2Table();
    var e := Segment(x);
    if e == 0 {} else if e == 1 {} else if e == 2 {} else if e == 3 {}
    else if e == 4 {} else if e == 5 {} else if e == 6 {} else {}
  }

  lemma {:induction false} CodeFields(sign: nat, e: nat, m: nat)
    requires (sign == 0 || sign == 0x80) && e < 8 && m < 16
    ensures var value := sign + 16 * e + m;
            (value / 16) % 8 == e && value % 16 == m && (value >= 0x80 <==> sign != 0)
  {
  }

  lemma {:induction false} DecodeEncode(pcm: int16)
    ensures Decode(Encode(pcm)) == (if pcm < 0 then -(Level(Biased(pcm)) - BIAS) else Level(Biased(pcm)) - BIAS)
  {
    var x := Biased(pcm);
    var e := Segment(x);
    LeadingBit(x);
    var m := (x / Pow2(e + 3)) % 16;
    CodeFields(if pcm < 0 then 0x80 else 0, e, m);
    DecodeRange(m, e);
    assert Expanded(m, e) == Level(x) - BIAS;
  }

  lemma {:induction false} LevelNear(x: nat)
    requires BIAS <= x < 0x8000
    ensures -(Pow2(Segment(x) + 2) as int) <= Level(x) - x <= Pow2(Segment(x) + 2)
  {
    Pow2Table();
    var e := Segment(x);
    if e == 0 {} else if e == 1 {} else if e == 2 {} else if e == 3 {}
    else if e == 4 {} else if e == 5 {} else if e == 6 {} else {}
  }

  lemma {:induction false} LevelInSegment(x: nat)
    requires BIAS <= x < 0x8000
    ensures Pow2(Segment(x) + 7) <= Level(x) < Pow2(Segment(x) + 8)
  {
    Pow2Table();
    LeadingBit(x);
    var e := Segment(x);
    if e == 0 {} else if e == 1 {} else if e == 2 {} else if e == 3 {}
    else if e == 4 {} else if e == 5 {} else if e == 6 {} else {}
  }

  /** Quantisation error: at most 2^(e+2) in segment e, for every sample that is not clipped. */
  lemma {:induction false} ErrorBound(pcm: int16)
    requires -CLIP <= pcm <= CLIP
    ensures var d := Decode(Encode(pcm)) - pcm; var bound: int := Pow2(Segment(Biased(pcm)) + 2); -bound <= d <= bound
  {
    DecodeEncode(pcm);
    LevelNear(Biased(pcm));
  }

  lemma {:induction false} Pow2Monotone(a: nat, b: nat)
    requires a <= b
    ensures Pow2(a) <= Pow2(b)
  {
    if a < b {
      Pow2Monotone(a, b - 1);
    }
  }

  lemma {:induction false} SegmentMonotone(x: nat, y: nat)
    requires BIAS <= x <= y < 0x8000
    ensures Segment(x) <= Segment(y)
  {
    hide Pow2, Segment;
    if Segment(y) < Segment(x) {
      Pow2Monotone(Segment(y) + 8, Segment(x) + 7);
    }
  }

  lemma {:induction false} LevelMonotone(x: nat, y: nat)
    requires BIAS <= x <= y < 0x8000
    ensures Level(x) <= Level(y)
  {
    SegmentMonotone(x, y);
    var e, f := Segment(x), Segment(y);
    hide Pow2, Segment, InSegment;
    if e == f {
      SteppedMonotone(x, y, Pow2(e + 3));
    } else {
      LevelsApart(x, y);
    }
  }

  lemma {:induction false} LevelsApart(x: nat, y: nat)
    requires BIAS <= x < 0x8000 && BIAS <= y < 0x8000 && Segment(x) < Segment(y)
    ensures Level(x) <= Level(y)
  {
    hide Pow2, Segment, InSegment, Level;
    LevelInSegment(x);
    LevelInSegment(y);
    Pow2Monotone(Segment(x) + 8, Segment(y) + 7);
  }

  lemma {:induction false} SteppedMonotone(x: nat, y: nat, p: nat)
    requires x <= y && p > 0
    ensures (x / p) * p <= (y / p) * p
  {
    DivMonotone(x, y, p);
    MulMonotone(x / p, y / p, p);
  }

  lemma {:induction false} DivMonotone(x: nat, y: nat, p: nat)
    requires x <= y && p > 0
    ensures x / p <= y / p
  {
    assert x == (x / p) * p + x % p;
    assert y == (y / p) * p + y % p;
    if x / p > y / p {
      MulMonotone(y / p + 1, x / p, p);
    }
  }

  lemma {:induction false} MulMonotone(a: nat, b: nat, p: nat)
    requires a <= b
    ensures a * p <= b * p
  {
    assert (b - a) * p >= 0;
  }

  /** Coding a louder sample never gives a quieter one. */
  lemma {:induction false} Monotone(p: int16, q: int16)
    requires p <= q
    ensures Decode(Encode(p)) <= Decode(Encode(q))
  {
    DecodeEncode(p);
    DecodeEncode(q);
    LevelInSegment(Biased(p));
    LevelInSegment(Biased(q));
    LevelNearBias(Biased(p));
    LevelNearBias(Biased(q));
    if p < 0 && q < 0 {
      LevelMonotone(Biased(q), Biased(p));
    } else if p >= 0 {
      LevelMonotone(Biased(p), Biased(q));
    }
  }

  lemma {:induction false} LevelNearBias(x: nat)
    requires BIAS <= x < 0x8000
    ensures Level(x) >= BIAS
  {
    LevelMonotone(BIAS, x);
    Pow2Table();
    assert Level(BIAS) == 132;
  }

  lemma {:induction false} BiasedDecode(code: byte)
    ensures var value := 255 - code; var e, m := (value / 16) % 8, value % 16;
            Biased(Decode(code)) == (m * 8 + BIAS) * Pow2(e)
            && Decode(code) == if value >= 0x80 then BIAS - (m * 8 + BIAS) * Pow2(e) else (m * 8 + BIAS) * Pow2(e) - BIAS
  {
    hide Pow2;
    DecodeRange((255 - code) % 16, ((255 - code) / 16) % 8);
  }

  // ---- the tables of the standard ----

  /**
   Tables 2a and 2b: segment e, step m stands for (2m + 33) * 2^e - 33, on a scale of 8159, here four times that.
   */
  lemma {:induction false} DecodeIsStandard(e: nat, m: nat)
    requires e < 8 && m < 16
    ensures Decode(255 - (16 * e + m)) == 4 * ((2 * m + 33) * Pow2(e) - 33)
    ensures Decode(127 - (16 * e + m)) == -4 * ((2 * m + 33) * Pow2(e) - 33)
  {
    DecodeRange(m, e);
    CodeFields(0, e, m);
    CodeFields(0x80, e, m);
    TimesFour(m, Pow2(e));
    hide Pow2;
  }

  lemma {:induction false} TimesFour(m: nat, p: nat)
    ensures (m * 8 + 132) * p - 132 == 4 * ((2 * m + 33) * p - 33)
  {
    assert m * 8 + 132 == 4 * (2 * m + 33);
  }

  /** The decision values: a sample gets segment e, step m exactly in that step's interval. */
  lemma {:induction false} EncodeIff(pcm: int16, e: nat, m: nat)
    requires e < 8 && m < 16
    ensures var magnitude: int := if pcm < 0 then -(pcm as int) else pcm;
            Encode(pcm) == (if pcm < 0 then 127 else 255) - (16 * e + m)
            <==> (m + 16) * Pow2(e + 3) <= Min(magnitude, 32635) + 132 < (m + 17) * Pow2(e + 3)
  {
    var x := Biased(pcm);
    LeadingBit(x);
    StepIff(x, e, m);
    hide Pow2, Segment, InSegment;
    var f := Segment(x);
    var n := (x / Pow2(f + 3)) % 16;
    assert 16 * e + m == 16 * f + n <==> e == f && m == n;
  }

  lemma {:induction false} StepIff(x: nat, e: nat, m: nat)
    requires BIAS <= x < 0x8000 && e < 8 && m < 16
    ensures Segment(x) == e && (x / Pow2(e + 3)) % 16 == m <==> (m + 16) * Pow2(e + 3) <= x < (m + 17) * Pow2(e + 3)
  {
    LeadingBit(x);
    var p := Pow2(e + 3);
    assert Pow2(e + 7) == 16 * p && Pow2(e + 8) == 32 * p by { SixteenTimes(e); }
    hide Segment, Pow2;
    if (m + 16) * p <= x < (m + 17) * p {
      MulMonotone(16, m + 16, p);
      MulMonotone(m + 17, 32, p);
      SegmentUnique(x, e, Segment(x));
      DivExact(m + 16, x - (m + 16) * p, p);
    }
    if Segment(x) == e {
      QuotientBounds(x, p);
    }
  }

  lemma {:induction false} SixteenTimes(e: nat)
    ensures Pow2(e + 7) == 16 * Pow2(e + 3) && Pow2(e + 8) == 32 * Pow2(e + 3)
  {
    DoublePow2(e + 3);
    DoublePow2(e + 4);
    DoublePow2(e + 5);
    DoublePow2(e + 6);
    DoublePow2(e + 7);
    hide Pow2;
  }

  lemma {:induction false} QuotientBounds(x: nat, p: nat)
    requires p > 0
    ensures (x / p) * p <= x < (x / p + 1) * p
  {
    assert x == (x / p) * p + x % p;
  }

  /** Clipped samples get the loudest code of their sign. */
  lemma {:induction false} LoudCodes(pcm: int16)
    ensures pcm >= 32635 ==> Encode(pcm) == 0x80
    ensures pcm <= -32635 ==> Encode(pcm) == 0x00
  {
    EncodeIff(pcm, 7, 15);
    Pow2Table();
    hide Encode;
  }

  /** Every code but 0x7F survives decoding and coding again; 0x7F ("minus zero") becomes 0xFF. */
  lemma {:induction false} EncodeDecode(code: byte)
    ensures Encode(Decode(code)) == (if code == 0x7F then 0xFF else code)
  {
    hide Segment, Pow2, InSegment;
    var value := 255 - code;
    var e, m := (value / 16) % 8, value % 16;
    BiasedDecode(code);
    EncodeLevel(m, e);
    hide Biased;
    assert value == (if value >= 0x80 then 0x80 else 0) + 16 * e + m;
    if value == 0x80 {
      Pow2Table();
      assert Decode(code) == 0;
    } else if value > 0x80 {
      LevelPositive(m, e);
    }
  }

  lemma {:induction false} LevelPositive(m: nat, e: nat)
    requires m < 16 && e < 8 && (m, e) != (0, 0)
    ensures (m * 8 + BIAS) * Pow2(e) > BIAS
  {
    if e == 0 {
      Pow2Table();
    } else {
      assert Pow2(e) >= 2;
      MulMonotone(2, Pow2(e), m * 8 + BIAS);
    }
  }

  lemma {:induction false} EncodeLevel(m: nat, e: nat)
    requires m < 16 && e < 8
    ensures var x := (m * 8 + BIAS) * Pow2(e);
            BIAS <= x < 0x8000 && Segment(x) == e && (x / Pow2(e + 3)) % 16 == m
  {
    hide Segment;
    DecodeRange(m, e);
    var x, p, r := (m * 8 + BIAS) * Pow2(e), Pow2(e + 3), Pow2(e + 2);
    assert p == 2 * r && r >= 4 * Pow2(e) && Pow2(e + 7) == 16 * p && Pow2(e + 8) == 32 * p && p <= 1024
    by { Pow2Table(); }
    var q := m + 16;
    assert x == q * p + r;
    StepBounds(q, p, r, x);
    assert x >= BIAS by { MulMonotone(1, Pow2(e), m * 8 + BIAS); }
    SegmentUnique(x, e, Segment(x));
  }

  lemma {:induction false} StepBounds(q: nat, p: nat, r: nat, x: nat)
    requires 16 <= q < 32 && r < p && x == q * p + r
    ensures 16 * p <= x < 32 * p && x / p == q
  {
    DivExact(q, r, p);
    MulMonotone(16, q, p);
    MulMonotone(q + 1, 32, p);
  }

  lemma {:induction false} DivExact(q: nat, r: nat, p: nat)
    requires r < p
    ensures (q * p + r) / p == q
  {
    var x := q * p + r;
    assert x == (x / p) * p + x % p;
    if x / p < q {
      MulMonotone(x / p + 1, q, p);
    } else if x / p > q {
      MulMonotone(q + 1, x / p, p);
    }
  }

  /** Decoding is already in the codec's range: coding it again changes nothing. */
  lemma {:induction false} DecodeEncodeDecode(code: byte)
    ensures Decode(Encode(Decode(code))) == Decode(code)
  {
    EncodeDecode(code);
    Pow2Table();
  }

  // ---- recordings of any length ----

  function EncodeAll(pcm: seq<int16>): (codes: seq<byte>)
    ensures |codes| == |pcm|
  {
    seq(|pcm|, i requires 0 <= i < |pcm| => Encode(pcm[i]))
  }

  lemma {:induction false} EncodeAllAppend(a: seq<int16>, b: seq<int16>)
    ensures EncodeAll(a + b) == EncodeAll(a) + EncodeAll(b)
  {
    forall i | 0 <= i < |a + b|
      ensures EncodeAll(a + b)[i] == (EncodeAll(a) + EncodeAll(b))[i]
    {
    }
  }

  /** A sample as two's-complement bytes, low byte first. */
  function LittleEndian(pcm: int16): (bytes: seq<byte>) {
    var u := if pcm < 0 then pcm + 0x1_0000 else pcm;
    [u % 0x100, u / 0x100]
  }

  function FromLittleEndian(lo: byte, hi: byte): (pcm: int16) {
    var u := lo + 0x100 * hi;
    if u >= 0x8000 then u - 0x1_0000 else u
  }

  lemma {:induction false} LittleEndianRoundTrip(pcm: int16)
    ensures var b := LittleEndian(pcm); |b| == 2 && FromLittleEndian(b[0], b[1]) == pcm
  {
  }

  /** The gateway's PCM file for a mu-law recording. */
  function PcmBytes(codes: seq<byte>): (pcm: seq<byte>)
    ensures |pcm| == 2 * |codes|
  {
    if codes == [] then [] else PcmBytes(codes[..|codes| - 1]) + LittleEndian(Decode(codes[|codes| - 1]))
  }

  /** Decoding chunk by chunk equals decoding the whole. */
  lemma {:induction false} PcmBytesAppend(a: seq<byte>, b: seq<byte>)
    ensures PcmBytes(a + b) == PcmBytes(a) + PcmBytes(b)
  {
    if b == [] {
      assert a + b == a;
    } else {
      PcmBytesAppend(a, b[..|b| - 1]);
      assert (a + b)[..|a + b| - 1] == a + b[..|b| - 1];
    }
  }

  /** What the file means: its i-th 16-bit little-endian sample is the decoded i-th code. */
  lemma {:induction false} PcmBytesSample(codes: seq<byte>, i: nat)
    requires i < |codes|
    ensures FromLittleEndian(PcmBytes(codes)[2 * i], PcmBytes(codes)[2 * i + 1]) == Decode(codes[i])
  {
    var init := codes[..|codes| - 1];
    if i == |codes| - 1 {
      LittleEndianRoundTrip(Decode(codes[i]));
    } else {
      PcmBytesSample(init, i);
    }
  }

  /** One turn of the decoder's loop: sign, segment and mantissa of the inverted code. */
  method DecodeStep(code: byte) returns (sample: int16)
    ensures sample == Decode(code)
  {
    var value := 255 - code;
    var sign := value / 0x80 * 0x80;
    var exponent, mantissa := (value / 16) % 8, value % 16;
    DecodeRange(mantissa, exponent);
    var expanded := ((mantissa * 8) + BIAS) * Pow2(exponent) - BIAS;
    sample := if sign != 0 then -expanded else expanded;
  }

  /** The decoder as the gateway runs it: two bytes of a zeroed buffer per code. */
  method MulawToPcm16(data: seq<byte>) returns (out: array<byte>)
    ensures fresh(out)
    ensures out[..] == PcmBytes(data)
  {
    hide Decode, LittleEndian;
    out := new byte[|data| * 2](_ => 0);
    for i := 0 to |data|
      invariant out[..2 * i] == PcmBytes(data[..i])
    {
      var sample: int := DecodeStep(data[i]);
      sample := sample % 0x1_0000;
      StoredBytes(Decode(data[i]));
      out[2 * i] := sample % 0x100;
      out[2 * i + 1] := sample / 0x100;
      assert data[..i + 1][..i] == data[..i];
      assert out[..2 * i + 2] == out[..2 * i] + LittleEndian(Decode(data[i]));
    }
    assert data[..|data|] == data;
    assert out[..] == out[..2 * |data|];
  }

  lemma {:induction false} StoredBytes(pcm: int16)
    ensures LittleEndian(pcm) == [(pcm % 0x1_0000) % 0x100, (pcm % 0x1_0000) / 0x100]
  {
  }

  /** A whole recording through both ends: the PCM file holds every sample within its segment's error. */
  lemma {:induction false} RecordingFidelity(pcm: seq<int16>, i: nat)
    requires i < |pcm| && -CLIP <= pcm[i] <= CLIP
    ensures var file := PcmBytes(EncodeAll(pcm));
            var bound: int := Pow2(Segment(Biased(pcm[i])) + 2);
            -bound <= FromLittleEndian(file[2 * i], file[2 * i + 1]) - pcm[i] <= bound
  {
    PcmBytesSample(EncodeAll(pcm), i);
    ErrorBound(pcm[i]);
  }
}
