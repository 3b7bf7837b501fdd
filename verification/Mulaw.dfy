/** The mu-law codec of crates/transport/asterisk/src/rtp.rs (section 3 of ITU-T G.711). */
module Mulaw {
  type byte = b: int | 0 <= b < 256
  type i16 = x: int | -32768 <= x < 32768

  const BIAS: i16 := 0x84
  const CLIP: i16 := 32635

  function Saturate(x: int): i16 {
    if x > 32767 then 32767 else if x < -32768 then -32768 else x
  }

  function Min(a: i16, b: i16): i16 { if a <= b then a else b }

  function Pow2(n: nat): (r: nat)
    ensures r > 0
  {
    if n == 0 then 1 else 2 * Pow2(n - 1)
  }

  /** The last magnitude of each segment: 0x00FF, 0x01FF, ..., 0x7FFF. */
  const SEGMENT_END: seq<i16> := [0x00FF, 0x01FF, 0x03FF, 0x07FF, 0x0FFF, 0x1FFF, 0x3FFF, 0x7FFF]

  function FindSegment(magnitude: int, from: nat): (r: nat)
    requires from <= 8
    ensures from <= r <= 8
    decreases 8 - from
  {
    if from == 8 || magnitude <= SEGMENT_END[from] then from else FindSegment(magnitude, from + 1)
  }

  /** The biased and clipped magnitude of a sample. */
  function Magnitude(sample: i16): i16 {
    Min(if sample < 0 then Saturate(BIAS - sample) else Saturate(sample + BIAS), CLIP)
  }

  /** Exclusive-or of a 7-bit value with the sign mask 0x7F or 0xFF. */
  function Sign(negative: bool, code: int): byte
    requires 0 <= code < 128
  {
    if negative then 127 - code else 255 - code
  }

  /** Segment and mantissa as one 7-bit code. */
  function CodeOf(magnitude: i16): int {
    var segment := FindSegment(magnitude, 0);
    if segment >= 8 then 127 else 16 * segment + (magnitude / Pow2(segment + 3)) % 16
  }

  lemma SegmentEnds(s: nat)
    requires s < 8
    ensures SEGMENT_END[s] == 256 * Pow2(s) - 1 && Pow2(s + 3) == 8 * Pow2(s) && Pow2(s) <= 128
  {
    assert Pow2(3) == 8 && Pow2(7) == 128 && Pow2(6) == 64 && Pow2(5) == 32 && Pow2(4) == 16 by {
      assert Pow2(2) == 4;
    }
    assert Pow2(s + 3) == 2 * Pow2(s + 2) == 4 * Pow2(s + 1) == 8 * Pow2(s);
  }

  lemma {:induction false} SegmentIs(m: int, from: nat, s: nat)
    requires from <= s < 8 && m <= SEGMENT_END[s] && (s > 0 ==> m > SEGMENT_END[s - 1])
    ensures FindSegment(m, from) == s
    decreases s - from
  {
    if from < s {
      SegmentIs(m, from + 1, s);
    }
  }

  /** Every magnitude in range has its segment. */
  lemma SegmentOf(m: int) returns (s: nat)
    requires 132 <= m <= CLIP
    ensures s < 8 && FindSegment(m, 0) == s && 128 * Pow2(s) <= m < 256 * Pow2(s)
  {
    s := if m <= 0xFF then 0 else if m <= 0x1FF then 1 else if m <= 0x3FF then 2 else if m <= 0x7FF then 3
         else if m <= 0xFFF then 4 else if m <= 0x1FFF then 5 else if m <= 0x3FFF then 6 else 7;
    SegmentIs(m, 0, s);
    SegmentEnds(s);
    if s > 0 { SegmentEnds(s - 1); }
  }

  lemma MulMonotone(a: int, b: int, w: nat)
    ensures a <= b ==> a * w <= b * w
  {
  }

  lemma Quantize(m: nat, w: nat) returns (q: nat)
    requires w > 0 && 16 * w <= m < 32 * w
    ensures q < 16 && (m / w) % 16 == q && (16 + q) * w <= m < (17 + q) * w
  {
    var d := m / w;
    assert m == d * w + m % w;
    MulMonotone(d, 15, w);
    MulMonotone(32, d, w);
    q := d - 16;
    assert (17 + q) * w == d * w + w;
  }

  /** The smallest biased magnitude with a given code: 128 values of 16 steps each, the
      steps doubling with every segment. */
  function Low(code: nat): nat {
    (16 + code % 16) * (8 * Pow2(code / 16))
  }

  lemma LowSteps(code: nat)
    ensures Low(code + 1) == Low(code) + 8 * Pow2(code / 16)
  {
    var q, w := code % 16, 8 * Pow2(code / 16);
    if q < 15 {
      assert (code + 1) % 16 == q + 1 && (code + 1) / 16 == code / 16;
      assert (17 + q) * w == (16 + q) * w + w;
    } else {
      assert (code + 1) % 16 == 0 && (code + 1) / 16 == code / 16 + 1;
      assert 8 * Pow2(code / 16 + 1) == 2 * w;
    }
  }

  lemma {:induction false} LowGrows(a: nat, b: nat)
    requires a < b
    ensures Low(a + 1) <= Low(b)
  {
    if a + 1 < b {
      LowGrows(a, b - 1);
      LowSteps(b - 1);
    }
  }

  /** A code stands for one interval of magnitudes. */
  lemma CodeInterval(m: i16)
    requires 132 <= m <= CLIP
    ensures 0 <= CodeOf(m) < 128 && Low(CodeOf(m)) <= m < Low(CodeOf(m) + 1)
  {
    var s := SegmentOf(m);
    SegmentEnds(s);
    var q := Quantize(m, 8 * Pow2(s));
    var c := CodeOf(m);
    assert c == 16 * s + q && c / 16 == s && c % 16 == q;
    LowSteps(c);
    assert (17 + q) * (8 * Pow2(s)) == (16 + q) * (8 * Pow2(s)) + 8 * Pow2(s);
  }

  lemma CodeIs(m: i16, code: nat)
    requires 132 <= m <= CLIP && Low(code) <= m < Low(code + 1)
    ensures CodeOf(m) == code
  {
    CodeInterval(m);
    if CodeOf(m) < code { LowGrows(CodeOf(m), code); }
    if code < CodeOf(m) { LowGrows(code, CodeOf(m)); }
  }

  // ----- encode and decode -----

  function LinearToMulaw(sample: i16): byte {
    var code := CodeOf(Magnitude(sample));
    Sign(sample < 0, if 0 <= code < 128 then code else 127)
  }

  /** The decoder's magnitude for a 7-bit code, with the bias removed. */
  function Value(code: nat): int {
    ((code % 16) * 8 + BIAS) * Pow2(code / 16) - BIAS
  }

  function MulawToLinear(encoded: byte): i16 {
    var inverted := 255 - encoded;
    var magnitude := ((inverted % 16) * 8 + BIAS) * Pow2((inverted / 16) % 8);
    if inverted / 128 != 0 then Saturate(BIAS - magnitude) else Saturate(magnitude - BIAS)
  }

  /** The decoder answers with the middle of the interval. */
  lemma ValueIsMiddle(code: nat)
    ensures Value(code) + BIAS == Low(code) + 4 * Pow2(code / 16)
  {
    var q, p := code % 16, Pow2(code / 16);
    assert (q * 8 + 132) * p == (16 + q) * (8 * p) + 4 * p;
  }

  lemma ValueRange(code: nat)
    requires code < 128
    ensures 0 <= Value(code) <= 32124
    ensures 132 <= Value(code) + BIAS <= CLIP
  {
    ValueIsMiddle(code);
    SegmentEnds(code / 16);
    MulMonotone((code % 16) * 8 + 132, 252, Pow2(code / 16));
    MulMonotone(132, (code % 16) * 8 + 132, Pow2(code / 16));
  }

  /** Decoding takes the sign mask off again and puts the sign back. */
  lemma DecodeSigned(negative: bool, c: nat)
    requires c < 128
    ensures MulawToLinear(Sign(negative, c)) == if negative then -Value(c) else Value(c)
  {
    ValueRange(c);
    var inverted := 255 - Sign(negative, c);
    assert inverted == if negative then 128 + c else c;
    assert inverted % 16 == c % 16 && (inverted / 16) % 8 == c / 16;
  }

  lemma RoundTripValue(sample: i16)
    ensures var c := CodeOf(Magnitude(sample));
      0 <= c < 128 && Transcode(sample) == if sample < 0 then -Value(c) else Value(c)
  {
    CodeInterval(Magnitude(sample));
    DecodeSigned(sample < 0, CodeOf(Magnitude(sample)));
  }

  function Transcode(sample: i16): i16 {
    MulawToLinear(LinearToMulaw(sample))
  }

  function Abs(x: int): nat { if x < 0 then -x else x }

  /** The segment a sample falls into. */
  function Segment(sample: i16): nat {
    FindSegment(Magnitude(sample), 0)
  }

  /** The error is at most half a step of the sample's segment up to the clipping point, and
      at most 644 for every sample. */
  lemma ErrorBound(sample: i16)
    ensures Segment(sample) < 8
    ensures Abs(sample) <= 32635 ==> Abs(Transcode(sample) - sample) <= Pow2(Segment(sample) + 2)
    ensures Abs(Transcode(sample) - sample) <= 644
  {
    var m := Magnitude(sample);
    var s := SegmentOf(m);
    var c := CodeOf(m);
    CodeInterval(m);
    ValueIsMiddle(c);
    LowSteps(c);
    RoundTripValue(sample);
    SegmentEnds(s);
    CodeHasSegment(m);
    assert Pow2(s + 2) == 2 * Pow2(s + 1) == 4 * Pow2(s);
    if Abs(sample) > CLIP - BIAS {
      assert m == CLIP;
      ClippedCode();
    }
  }

  lemma CodeHasSegment(m: i16)
    requires 132 <= m <= CLIP
    ensures CodeOf(m) / 16 == FindSegment(m, 0) && CodeOf(m) >= 0
  {
    var s := SegmentOf(m);
    SegmentEnds(s);
    var q := Quantize(m, 8 * Pow2(s));
  }

  lemma ClippedCode()
    ensures CodeOf(CLIP) == 127 && Value(127) == 32124 && FindSegment(CLIP, 0) == 7
  {
    SegmentEnds(7);
    SegmentEnds(6);
    SegmentIs(CLIP, 0, 7);
    assert Pow2(7) == 128;
    LowSteps(127);
    CodeIs(CLIP, 127);
  }

  lemma CodeMonotone(a: i16, b: i16)
    requires 132 <= a <= b <= CLIP
    ensures 0 <= CodeOf(a) <= CodeOf(b) < 128
  {
    CodeInterval(a);
    CodeInterval(b);
    if CodeOf(b) < CodeOf(a) { LowGrows(CodeOf(b), CodeOf(a)); }
  }

  lemma ValueMonotone(a: nat, b: nat)
    requires a <= b
    ensures Value(a) <= Value(b)
  {
    ValueIsMiddle(a);
    ValueIsMiddle(b);
    if a < b {
      LowGrows(a, b);
      LowSteps(a);
    }
  }

  /** Louder stays louder: transcoding never reverses the order of two samples. */
  lemma TranscodeMonotone(a: i16, b: i16)
    requires a <= b
    ensures Transcode(a) <= Transcode(b)
  {
    RoundTripValue(a);
    RoundTripValue(b);
    var ca, cb := CodeOf(Magnitude(a)), CodeOf(Magnitude(b));
    ValueRange(ca);
    ValueRange(cb);
    if a >= 0 {
      CodeMonotone(Magnitude(a), Magnitude(b));
      ValueMonotone(ca, cb);
    } else if b < 0 {
      CodeMonotone(Magnitude(b), Magnitude(a));
      ValueMonotone(cb, ca);
    }
  }

  /** Re-encoding a decoded byte gives the byte back, except that the two codes of silence
      become one. */
  lemma ReencodeDecoded(encoded: byte)
    ensures LinearToMulaw(MulawToLinear(encoded)) == if encoded == 0x7F then 0xFF else encoded
  {
    var negative := encoded < 128;
    var c := if negative then 127 - encoded else 255 - encoded;
    DecodeSigned(negative, c);
    ValueRange(c);
    ValueIsMiddle(c);
    LowSteps(c);
    var x := MulawToLinear(encoded);
    assert Magnitude(x) == Value(c) + BIAS;
    CodeIs(Magnitude(x), c);
    if c > 0 {
      LowGrows(0, c);
      LowSteps(0);
      assert Low(0) == 128 && Pow2(0) == 1;
    } else {
      assert Value(0) == 0;
    }
  }

  lemma TranscodeTwice(sample: i16)
    ensures Transcode(Transcode(sample)) == Transcode(sample)
  {
    ReencodeDecoded(LinearToMulaw(sample));
    DecodeSigned(true, 0);
    DecodeSigned(false, 0);
    assert Value(0) == 0;
  }

  /** Silence and the loudest samples, as in Tables 2a and 2b. */
  lemma Extremes()
    ensures LinearToMulaw(0) == 0xFF && LinearToMulaw(-1) == 0x7F
    ensures LinearToMulaw(32767) == 0x80 && LinearToMulaw(-32768) == 0x00
  {
    ClippedCode();
    SoftestCode();
  }

  lemma SoftestCode()
    ensures CodeOf(132) == CodeOf(133) == 0
  {
    assert FindSegment(132, 0) == FindSegment(133, 0) == 0;
    assert Pow2(3) == 8 by { assert Pow2(2) == 4; }
  }

  lemma DecodedExtremes()
    ensures MulawToLinear(0xFF) == MulawToLinear(0x7F) == 0
    ensures MulawToLinear(0x80) == 32124 && MulawToLinear(0x00) == -32124
  {
    ClippedCode();
    DecodeSigned(false, 127);
    DecodeSigned(true, 127);
    DecodeSigned(false, 0);
    DecodeSigned(true, 0);
    assert Value(0) == 0;
  }
}
