/** RTP packets carrying PCMU audio: crates/transport/asterisk/src/rtp.rs, with the header of
    sections 5.1 and 5.3.1 of RFC 3550 and payload type 0 of section 6 of RFC 3551. */
module Rtp {
  import opened Text
  import opened Mulaw

  const HEADER_LEN: nat := 12
  const PAYLOAD_TYPE_PCMU: byte := 0

  // ----- parsing -----

  predicate HasPadding(b: byte) { (b / 32) % 2 == 1 }
  predicate HasExtension(b: byte) { (b / 16) % 2 == 1 }
  function CsrcCount(b: byte): nat { b % 16 }
  function Word(hi: byte, lo: byte): nat { 256 * hi + lo }

  /** Where the payload starts, if the header is complete. */
  function PayloadStart(p: seq<byte>): Option<nat>
    requires |p| >= HEADER_LEN
  {
    var fixed := HEADER_LEN + 4 * CsrcCount(p[0]);
    if |p| < fixed then None
    else if !HasExtension(p[0]) then Some(fixed)
    else if |p| < fixed + 4 then None
    else
      var start := fixed + 4 + 4 * Word(p[fixed + 2], p[fixed + 3]);
      if |p| < start then None else Some(start)
  }

  /** The start and the end of the payload. */
  function PayloadRange(p: seq<byte>): Option<(nat, nat)> {
    if |p| < HEADER_LEN || p[0] / 64 != 2 then None
    else
      match PayloadStart(p)
      case None => None
      case Some(start) =>
        var padding := if HasPadding(p[0]) then p[|p| - 1] else 0;
        if |p| - padding < start then None else Some((start, |p| - padding))
  }

  method ParseRtpPayload(packet: seq<byte>) returns (payload: Option<seq<byte>>)
    ensures payload.Some? <==> PayloadRange(packet).Some?
    ensures payload.Some? ==>
      var (start, end) := PayloadRange(packet).value;
      12 <= start <= end <= |packet| && payload.value == packet[start..end]
  {
    if |packet| < HEADER_LEN { return None; }
    if packet[0] / 64 != 2 { return None; }
    var csrcCount := packet[0] % 16;
    var hasExtension := packet[0] / 16 % 2 != 0;
    var hasPadding := packet[0] / 32 % 2 != 0;
    var offset := HEADER_LEN + csrcCount * 4;
    if |packet| < offset { return None; }
    if hasExtension {
      if |packet| < offset + 4 { return None; }
      var words := Word(packet[offset + 2], packet[offset + 3]);
      offset := offset + 4 + words * 4;
      if |packet| < offset { return None; }
    }
    var end := |packet|;
    if hasPadding {
      var padding := packet[|packet| - 1];
      if |packet| < padding { return None; }
      end := |packet| - padding;
    }
    if end < offset { return None; }
    return Some(packet[offset..end]);
  }

  // ----- the layout of the standard -----

  datatype Extension = Extension(profile: seq<byte>, words: seq<byte>)

  /** A packet as the standard lays it out. `fixed` is what follows the first byte of the
      fixed header; `padding` is the padding before its length byte. */
  datatype Packet = Packet(
    fixed: seq<byte>, csrc: seq<byte>, extension: Option<Extension>,
    payload: seq<byte>, padding: Option<seq<byte>>)

  predicate Valid(k: Packet) {
    && |k.fixed| == 11
    && |k.csrc| % 4 == 0 && |k.csrc| / 4 <= 15
    && (k.extension.Some? ==>
          var x := k.extension.value;
          |x.profile| == 2 && |x.words| % 4 == 0 && |x.words| / 4 < 65536)
    && (k.padding.Some? ==> |k.padding.value| < 255)
  }

  function FirstByte(k: Packet): byte
    requires Valid(k)
  {
    128 + (if k.padding.Some? then 32 else 0) + (if k.extension.Some? then 16 else 0) + |k.csrc| / 4
  }

  function ExtensionBytes(x: Option<Extension>): seq<byte>
    requires x.Some? ==> |x.value.words| / 4 < 65536
  {
    match x
    case None => []
    case Some(e) =>
      var n := |e.words| / 4;
      e.profile + [n / 256, n % 256] + e.words
  }

  /** The padding counts its own length byte. */
  function PaddingBytes(p: Option<seq<byte>>): seq<byte>
    requires p.Some? ==> |p.value| < 255
  {
    match p
    case None => []
    case Some(fill) => fill + [|fill| + 1]
  }

  function HeaderBytes(k: Packet): seq<byte>
    requires Valid(k)
  {
    [FirstByte(k)] + k.fixed + k.csrc + ExtensionBytes(k.extension)
  }

  function Serialize(k: Packet): seq<byte>
    requires Valid(k)
  {
    HeaderBytes(k) + k.payload + PaddingBytes(k.padding)
  }

  lemma FirstByteBits(k: Packet)
    requires Valid(k)
    ensures var b := FirstByte(k);
      && b / 64 == 2 && HasPadding(b) == k.padding.Some? && HasExtension(b) == k.extension.Some?
      && CsrcCount(b) == |k.csrc| / 4
  {
  }

  /** The number whose bytes these are, the most significant first. */
  function Number(bytes: seq<byte>): nat {
    if bytes == [] then 0 else 256 * Number(bytes[..|bytes| - 1]) + bytes[|bytes| - 1]
  }

  /** The layout bit by bit: version 2, the padding and extension bits, the number of sources,
      then the rest of the fixed header and the sources. */
  lemma HeaderInPlainTerms(k: Packet)
    requires Valid(k)
    ensures var p := Serialize(k); var at := 12 + |k.csrc|;
      && |p| >= at && p[0] / 64 == 2 && p[0] % 16 == |k.csrc| / 4
      && (p[0] / 32 % 2 == 1 <==> k.padding.Some?) && (p[0] / 16 % 2 == 1 <==> k.extension.Some?)
      && p[1..12] == k.fixed && p[12..at] == k.csrc
  {
    FirstByteBits(k);
    HeadSlices(FirstByte(k), k.fixed, k.csrc, ExtensionBytes(k.extension) + k.payload + PaddingBytes(k.padding));
    SerializedInParts(k);
  }

  lemma HeadSlices(first: byte, fixed: seq<byte>, csrc: seq<byte>, rest: seq<byte>)
    requires |fixed| == 11
    ensures var p := ([first] + fixed + csrc) + rest;
      && |p| >= 12 + |csrc| && p[0] == first && p[1..12] == fixed && p[12..12 + |csrc|] == csrc
  {
  }

  lemma SerializedInParts(k: Packet)
    requires Valid(k)
    ensures Serialize(k) ==
      ([FirstByte(k)] + k.fixed + k.csrc) + (ExtensionBytes(k.extension) + k.payload + PaddingBytes(k.padding))
  {
  }

  /** The extension counts its words, of four bytes each, behind its profile. */
  lemma ExtensionInPlainTerms(k: Packet)
    requires Valid(k) && k.extension.Some?
    ensures var p, x := Serialize(k), k.extension.value; var at := 12 + |k.csrc|;
      && |p| >= at + 4 + |x.words|
      && p[at..at + 2] == x.profile && 4 * Number(p[at + 2..at + 4]) == |x.words|
      && p[at + 4..at + 4 + |x.words|] == x.words
  {
    var x := k.extension.value;
    var n := |x.words| / 4;
    NumberOfTwo(n / 256, n % 256);
    var head := [FirstByte(k)] + k.fixed + k.csrc;
    var rest := k.payload + PaddingBytes(k.padding);
    assert Serialize(k) == head + (x.profile + [n / 256, n % 256] + x.words) + rest;
    Behind(head, x.profile, [n / 256, n % 256], x.words, rest);
  }

  /** The last byte counts the padding, itself included. */
  lemma PaddingInPlainTerms(k: Packet)
    requires Valid(k) && k.padding.Some?
    ensures var p := Serialize(k); |p| > 0 && p[|p| - 1] == |k.padding.value| + 1
  {
  }

  lemma NumberOfTwo(a: byte, b: byte)
    ensures Number([a, b]) == 256 * a + b
  {
    assert [a, b][..1] == [a] && [a][..0] == [];
    assert Number([a]) == a;
  }

  lemma Behind(head: seq<byte>, a: seq<byte>, b: seq<byte>, c: seq<byte>, rest: seq<byte>)
    requires |a| == 2 && |b| == 2
    ensures var p, at := head + (a + b + c) + rest, |head|;
      && |p| >= at + 4 + |c| && p[at..at + 2] == a && p[at + 2..at + 4] == b && p[at + 4..at + 4 + |c|] == c
  {
  }

  /** Parsing finds exactly the payload of every packet laid out as the standard says. */
  lemma ParseSerialized(k: Packet)
    requires Valid(k)
    ensures var p := Serialize(k); var h := |HeaderBytes(k)|;
      && PayloadRange(p) == Some((h, h + |k.payload|))
      && p[h..h + |k.payload|] == k.payload
  {
    FirstByteBits(k);
    var p := Serialize(k);
    var fixed := HEADER_LEN + |k.csrc|;
    assert p[0] == FirstByte(k);
    assert 4 * (|k.csrc| / 4) == |k.csrc|;
    if k.extension.Some? {
      var x := k.extension.value;
      assert p[fixed + 2] == |x.words| / 4 / 256 && p[fixed + 3] == |x.words| / 4 % 256;
    }
    if k.padding.Some? {
      assert p[|p| - 1] == |k.padding.value| + 1;
    }
  }

  /** The padding flag with a zero count: the standard rules it out, the parser takes it as
      no padding. */
  predicate EmptyPadding(p: seq<byte>) {
    |p| > 0 && HasPadding(p[0]) && p[|p| - 1] == 0
  }

  /** The packet a parsed byte string lays out. */
  function Layout(p: seq<byte>): Packet
    requires PayloadRange(p).Some? && |p| >= HEADER_LEN
  {
    var (start, end) := PayloadRange(p).value;
    var fixed := HEADER_LEN + 4 * CsrcCount(p[0]);
    Packet(
      p[1..HEADER_LEN], p[HEADER_LEN..fixed],
      if HasExtension(p[0]) then Some(Extension(p[fixed..fixed + 2], p[fixed + 4..start])) else None,
      p[start..end],
      if HasPadding(p[0]) && end < |p| then Some(p[end..|p| - 1]) else None)
  }

  lemma LayoutIsValid(p: seq<byte>)
    requires PayloadRange(p).Some? && |p| >= HEADER_LEN
    ensures Valid(Layout(p))
    ensures !EmptyPadding(p) ==> FirstByte(Layout(p)) == p[0]
  {
  }

  lemma LayoutExtension(p: seq<byte>)
    requires PayloadRange(p).Some? && |p| >= HEADER_LEN && Valid(Layout(p))
    ensures var fixed := HEADER_LEN + 4 * CsrcCount(p[0]);
      ExtensionBytes(Layout(p).extension) == p[fixed..PayloadRange(p).value.0]
  {
    if HasExtension(p[0]) {
      var fixed := HEADER_LEN + 4 * CsrcCount(p[0]);
      var n := Word(p[fixed + 2], p[fixed + 3]);
      assert n / 256 == p[fixed + 2] && n % 256 == p[fixed + 3];
      assert |Layout(p).extension.value.words| == 4 * n;
    }
  }

  lemma LayoutPadding(p: seq<byte>)
    requires PayloadRange(p).Some? && |p| >= HEADER_LEN && !EmptyPadding(p) && Valid(Layout(p))
    ensures PaddingBytes(Layout(p).padding) == p[PayloadRange(p).value.1..]
  {
  }

  /** Whatever the parser accepts is a packet of the standard with that payload, unless its
      padding count is zero. */
  lemma ParsedIsLaidOut(p: seq<byte>)
    requires PayloadRange(p).Some? && !EmptyPadding(p)
    ensures |p| >= HEADER_LEN && Valid(Layout(p)) && Serialize(Layout(p)) == p
    ensures var (start, end) := PayloadRange(p).value; Layout(p).payload == p[start..end]
  {
    var (start, end) := PayloadRange(p).value;
    var fixed := HEADER_LEN + 4 * CsrcCount(p[0]);
    LayoutIsValid(p);
    LayoutExtension(p);
    LayoutPadding(p);
    Cut5(p, HEADER_LEN, fixed, start, end);
  }

  /** Up to that leniency, the parser accepts exactly the packets of the standard. */
  lemma ParserAcceptsTheStandard(p: seq<byte>)
    ensures PayloadRange(p).Some? && !EmptyPadding(p) <==> exists k :: Valid(k) && Serialize(k) == p
  {
    if k :| Valid(k) && Serialize(k) == p {
      ParseSerialized(k);
      FirstByteBits(k);
      assert p[0] == FirstByte(k);
      if k.padding.Some? {
        assert p[|p| - 1] == |k.padding.value| + 1;
      }
    }
    if PayloadRange(p).Some? && !EmptyPadding(p) {
      ParsedIsLaidOut(p);
    }
  }

  lemma Cut5(p: seq<byte>, a: nat, b: nat, c: nat, d: nat)
    requires 1 <= a <= b <= c <= d <= |p|
    ensures [p[0]] + p[1..a] + p[a..b] + p[b..c] + p[c..d] + p[d..] == p
  {
  }

  // ----- building -----

  /** Every second sample. */
  function Downsample(samples: seq<i16>): (r: seq<i16>)
    ensures |r| == (|samples| + 1) / 2
  {
    seq((|samples| + 1) / 2, k requires 0 <= k < (|samples| + 1) / 2 => samples[2 * k])
  }

  function Encode(samples: seq<i16>): (r: seq<byte>)
    ensures |r| == |samples|
  {
    seq(|samples|, k requires 0 <= k < |samples| => LinearToMulaw(samples[k]))
  }

  function Decode(payload: seq<byte>): (r: seq<i16>)
    ensures |r| == |payload|
  {
    seq(|payload|, k requires 0 <= k < |payload| => MulawToLinear(payload[k]))
  }

  function BigEndian2(x: nat): seq<byte>
    requires x < 0x1_0000
  {
    [x / 0x100, x % 0x100]
  }

  function BigEndian4(x: nat): seq<byte>
    requires x < 0x1_0000_0000
  {
    [x / 0x100_0000, x / 0x1_0000 % 0x100, x / 0x100 % 0x100, x % 0x100]
  }

  /** The packet byte by byte: version 2 and nothing else, payload type 0, the numbers with
      their most significant byte first, and one code for each second sample. */
  predicate IsPcmuPacket(p: seq<byte>, samples: seq<i16>, sequence: nat, timestamp: nat, ssrc: nat) {
    && |p| == 12 + (|samples| + 1) / 2 && p[0] == 0x80 && p[1] == 0
    && Number(p[2..4]) == sequence && Number(p[4..8]) == timestamp && Number(p[8..12]) == ssrc
    && forall k :: 12 <= k < |p| ==> p[k] == LinearToMulaw(samples[2 * (k - 12)])
  }

  lemma BigEndianValues(x: nat, y: nat)
    requires x < 0x1_0000 && y < 0x1_0000_0000
    ensures Number(BigEndian2(x)) == x && Number(BigEndian4(y)) == y
  {
    var b, d := BigEndian2(x), BigEndian4(y);
    assert b[..1] == [b[0]] && b[..1][..0] == [];
    assert Number(b[..1]) == b[0];
    assert d[..3][..2] == d[..2] && d[..2][..1] == [d[0]] && [d[0]][..0] == [];
    assert Number(d[..2][..1]) == d[0] && Number(d[..2]) == y / 0x1_0000;
    assert Number(d[..3]) == y / 0x100;
  }

  lemma PcmuLayout(samples: seq<i16>, sequence: nat, timestamp: nat, ssrc: nat)
    requires sequence < 0x1_0000 && timestamp < 0x1_0000_0000 && ssrc < 0x1_0000_0000
    ensures var fixed := [PAYLOAD_TYPE_PCMU] + BigEndian2(sequence) + BigEndian4(timestamp) + BigEndian4(ssrc);
      var k := Packet(fixed, [], None, Encode(Downsample(samples)), None);
      Valid(k) && IsPcmuPacket(Serialize(k), samples, sequence, timestamp, ssrc)
  {
    BigEndianValues(sequence, timestamp);
    BigEndianValues(sequence, ssrc);
    var a, b, d := BigEndian2(sequence), BigEndian4(timestamp), BigEndian4(ssrc);
    var fixed := [PAYLOAD_TYPE_PCMU] + a + b + d;
    var k := Packet(fixed, [], None, Encode(Downsample(samples)), None);
    SerializedPlain(k);
    HeaderSlices(a, b, d, k.payload);
    PayloadCodes(samples, Serialize(k));
  }

  lemma PayloadCodes(samples: seq<i16>, p: seq<byte>)
    requires |p| >= 12 && p[12..] == Encode(Downsample(samples))
    ensures |p| == 12 + (|samples| + 1) / 2
    ensures forall k :: 12 <= k < |p| ==> p[k] == LinearToMulaw(samples[2 * (k - 12)])
  {
    forall k | 12 <= k < |p| ensures p[k] == LinearToMulaw(samples[2 * (k - 12)]) {
      assert p[k] == p[12..][k - 12];
    }
  }

  lemma SerializedPlain(k: Packet)
    requires Valid(k) && k.csrc == [] && k.extension == None && k.padding == None
    ensures Serialize(k) == [0x80] + k.fixed + k.payload
  {
  }

  lemma HeaderSlices(a: seq<byte>, b: seq<byte>, d: seq<byte>, payload: seq<byte>)
    requires |a| == 2 && |b| == 4 && |d| == 4
    ensures var p := [0x80] + ([PAYLOAD_TYPE_PCMU] + a + b + d) + payload;
      && |p| == 12 + |payload| && p[0] == 0x80 && p[1] == 0
      && p[2..4] == a && p[4..8] == b && p[8..12] == d && p[12..] == payload
  {
  }

  method BuildPcmuPacket(samples: seq<i16>, sequence: nat, timestamp: nat, ssrc: nat) returns (packet: seq<byte>)
    requires sequence < 0x1_0000 && timestamp < 0x1_0000_0000 && ssrc < 0x1_0000_0000
    ensures var fixed := [PAYLOAD_TYPE_PCMU] + BigEndian2(sequence) + BigEndian4(timestamp) + BigEndian4(ssrc);
      var k := Packet(fixed, [], None, Encode(Downsample(samples)), None);
      Valid(k) && packet == Serialize(k)
    ensures IsPcmuPacket(packet, samples, sequence, timestamp, ssrc)
  {
    PcmuLayout(samples, sequence, timestamp, ssrc);
    var down := Downsample(samples);
    packet := [0x80];
    packet := packet + [PAYLOAD_TYPE_PCMU];
    packet := packet + BigEndian2(sequence);
    packet := packet + BigEndian4(timestamp);
    packet := packet + BigEndian4(ssrc);
    ghost var header := packet;
    for i := 0 to |down|
      invariant packet == header + Encode(down)[..i]
    {
      packet := packet + [LinearToMulaw(down[i])];
    }
    assert Encode(down)[..|down|] == Encode(down);
  }

  method Upsample(samples: seq<i16>) returns (up: seq<i16>)
    ensures |up| == 2 * |samples|
    ensures forall k :: 0 <= k < |up| ==> up[k] == samples[k / 2]
  {
    up := [];
    for i := 0 to |samples|
      invariant |up| == 2 * i
      invariant forall k :: 0 <= k < |up| ==> up[k] == samples[k / 2]
    {
      up := up + [samples[i]];
      up := up + [samples[i]];
    }
  }

  // ----- the whole trip -----

  /** What comes back of a frame: every pair of samples becomes two copies of its first. */
  function Trip(samples: seq<i16>): (r: seq<i16>)
    ensures |r| == 2 * ((|samples| + 1) / 2)
  {
    var down := Downsample(samples);
    seq(2 * |down|, k requires 0 <= k < 2 * |down| => Transcode(down[k / 2]))
  }

  lemma TripSamples(samples: seq<i16>, k: nat)
    requires k < |Trip(samples)|
    ensures 2 * (k / 2) < |samples|
    ensures Trip(samples)[k] == MulawToLinear(LinearToMulaw(samples[2 * (k / 2)]))
  {
  }

  /** Build, parse and decode. */
  method Transmit(samples: seq<i16>, sequence: nat, timestamp: nat, ssrc: nat) returns (received: seq<i16>)
    requires sequence < 0x1_0000 && timestamp < 0x1_0000_0000 && ssrc < 0x1_0000_0000
    ensures received == Trip(samples)
  {
    var packet := BuildPcmuPacket(samples, sequence, timestamp, ssrc);
    ghost var fixed := [PAYLOAD_TYPE_PCMU] + BigEndian2(sequence) + BigEndian4(timestamp) + BigEndian4(ssrc);
    ParseSerialized(Packet(fixed, [], None, Encode(Downsample(samples)), None));
    var payload := ParseRtpPayload(packet);
    received := Upsample(Decode(payload.value));
  }

  /** `y` is within half a step of `x`, or within the clipping distance. */
  ghost predicate Close(x: i16, y: i16) {
    && Abs(y - x) <= 644
    && (Abs(x) <= 32635 ==> Abs(y - x) <= Pow2(Segment(x) + 2))
  }

  lemma TripIsClose(samples: seq<i16>)
    ensures forall k :: 0 <= k < |Trip(samples)| ==> Close(Downsample(samples)[k / 2], Trip(samples)[k])
  {
    forall k | 0 <= k < |Trip(samples)|
      ensures Close(Downsample(samples)[k / 2], Trip(samples)[k])
    {
      ErrorBound(Downsample(samples)[k / 2]);
    }
  }

  lemma DownsampledTrip(samples: seq<i16>, i: nat)
    requires i < |Downsample(samples)|
    ensures i < |Downsample(Trip(samples))|
    ensures Downsample(Trip(samples))[i] == Transcode(Downsample(samples)[i])
  {
    assert 2 * i / 2 == i;
    assert Downsample(Trip(samples))[i] == Trip(samples)[2 * i];
  }

  /** A second trip changes nothing. */
  lemma TripTwice(samples: seq<i16>)
    ensures Trip(Trip(samples)) == Trip(samples)
  {
    var once, twice := Trip(samples), Trip(Trip(samples));
    assert |Downsample(once)| == |Downsample(samples)|;
    forall k | 0 <= k < |once| ensures twice[k] == once[k] {
      DownsampledTrip(samples, k / 2);
      TranscodeTwice(Downsample(samples)[k / 2]);
    }
  }
}
