/** Little-endian fields and int16 samples as bytes. */
module ByteFields {
  type byte = x: int | 0 <= x < 256

  function Pow256(k: nat): (p: nat)
    ensures p > 0
  {
    if k == 0 then 1 else 256 * Pow256(k - 1)
  }

  /** n as k little-endian bytes. */
  function Le(n: nat, k: nat): (s: seq<byte>)
    ensures |s| == k
  {
    if k == 0 then [] else [n % 256] + Le(n / 256, k - 1)
  }

  function Val(s: seq<byte>): nat {
    if s == [] then 0 else s[0] + 256 * Val(s[1..])
  }

  lemma {:induction false} ValOfLe(n: nat, k: nat)
    requires n < Pow256(k)
    ensures Val(Le(n, k)) == n
  {
    if k > 0 {
      ValOfLe(n / 256, k - 1);
      assert Le(n, k)[1..] == Le(n / 256, k - 1);
    }
  }

  lemma {:induction false} LeOfVal(s: seq<byte>)
    ensures Val(s) < Pow256(|s|) && Le(Val(s), |s|) == s
  {
    if s != [] {
      LeOfVal(s[1..]);
      assert (s[0] + 256 * Val(s[1..])) % 256 == s[0] && (s[0] + 256 * Val(s[1..])) / 256 == Val(s[1..]);
    }
  }

  predicate IsInt16(v: int) { -32768 <= v < 32768 }

  function Sample(lo: byte, hi: byte): (v: int)
    ensures IsInt16(v)
  {
    var u := lo + 256 * hi;
    if u < 32768 then u else u - 65536
  }

  /** int16 samples as little-endian two's complement. */
  function PcmBytes(pcm: seq<int>): (s: seq<byte>)
    requires forall i :: 0 <= i < |pcm| ==> IsInt16(pcm[i])
    ensures |s| == 2 * |pcm|
  {
    if pcm == [] then []
    else
      var u := pcm[0] % 65536;
      [u % 256, u / 256] + PcmBytes(pcm[1..])
  }

  function PcmOf(s: seq<byte>): (pcm: seq<int>)
    requires |s| % 2 == 0
    ensures |pcm| == |s| / 2 && forall i :: 0 <= i < |pcm| ==> IsInt16(pcm[i])
  {
    if s == [] then [] else [Sample(s[0], s[1])] + PcmOf(s[2..])
  }

  lemma {:induction false} PcmRoundTrip(pcm: seq<int>)
    requires forall i :: 0 <= i < |pcm| ==> IsInt16(pcm[i])
    ensures PcmOf(PcmBytes(pcm)) == pcm
  {
    if pcm != [] {
      PcmRoundTrip(pcm[1..]);
      assert PcmBytes(pcm)[2..] == PcmBytes(pcm[1..]);
    }
  }

  lemma SampleBytes(lo: byte, hi: byte)
    ensures Sample(lo, hi) % 65536 % 256 == lo && Sample(lo, hi) % 65536 / 256 == hi
  {
    assert Sample(lo, hi) % 65536 == lo + 256 * hi;
  }

  lemma {:induction false} BytesRoundTrip(s: seq<byte>)
    requires |s| % 2 == 0
    ensures PcmBytes(PcmOf(s)) == s
  {
    if s != [] {
      BytesRoundTrip(s[2..]);
      SampleBytes(s[0], s[1]);
      assert PcmOf(s)[1..] == PcmOf(s[2..]);
      assert s == [s[0], s[1]] + s[2..];
    }
  }
}

/** EMA1 frames: 64 bytes of header, its numbers little-endian, then the payload (controller/em_audio_timeline.py,
    `parse_packet`, `build_packet`). Bit tests are written as arithmetic on the field. */
module Codec {
  import opened Basics
  import opened ByteFields

  datatype Kind = Mic | Reference | Render | Cells | Afe

  const MAGIC: seq<byte> := [69, 77, 65, 49] // "EMA1"
  const HEADER_BYTES := 64
  const U32_MAX := 0xFFFF_FFFF

  function Code(kind: Kind): int {
    match kind case Mic => 1 case Reference => 2 case Render => 3 case Cells => 4 case Afe => 5
  }

  function KindOf(code: int): (k: Option<Kind>)
    ensures k.Some? <==> 1 <= code <= 5
    ensures k.Some? ==> Code(k.value) == code
  {
    match code case 1 => Some(Mic) case 2 => Some(Reference) case 3 => Some(Render) case 4 => Some(Cells) case 5 => Some(Afe)
    case _ => None
  }

  function Rate(kind: Kind): int { if kind.Render? then 48_000 else 16_000 }

  function Format(kind: Kind): int { match kind case Cells => 2 case Afe => 3 case _ => 1 }

  function MaxFrames(kind: Kind): int {
    match kind case Mic => 1280 case Reference => 1280 case Render => 3840 case Cells => 320 case Afe => 125
  }

  function FrameSamples(kind: Kind): int { match kind case Cells => CELL_SAMPLES case Afe => AFE_PERIOD_SAMPLES case _ => 1 }

  predicate Silence(flags: int) { (flags / 16) % 2 == 1 }

  datatype Fault =
    | TooShort | BadMagic | UnknownKind | UnknownFlags | SilenceKind | Channels | WrongFormat | EpochZero | WrongRate
    | FrameCount | GenerationKind | MaskKind | MaskBits | CellBoundary | PeriodBoundary | PayloadSize | FrameSize
    | Overflow | CellSize | CellLevel | CellFlags | CellMask | CellGap | AfeSize | AfeFrames | AfeFlags | AfeCounts | AfeBounds

  datatype Header = Header(
    kind: nat, flags: nat, channels: nat, format: nat,
    epoch: nat, sequence: nat, first: nat, monoNs: nat,
    uncertainty: nat, rate: nat, frames: nat, generation: nat, mask: nat, payloadBytes: nat)

  datatype Packet = Packet(
    kind: Kind, flags: int, epoch: int, sequence: int, first: int, monoNs: int, uncertainty: Option<int>,
    rate: int, frames: int, generation: int, mask: int, payload: seq<byte>)

  predicate InRange(h: Header) {
    && h.kind <= 255 && h.flags <= 255 && h.channels <= 255 && h.format <= 255
    && h.epoch <= U64_MAX && h.sequence <= U64_MAX && h.first <= U64_MAX && h.monoNs <= U64_MAX
    && h.uncertainty <= U32_MAX && h.rate <= U32_MAX && h.frames <= U32_MAX && h.generation <= U32_MAX
    && h.mask <= U32_MAX && h.payloadBytes <= U32_MAX
  }

  function Pack(h: Header): (s: seq<byte>)
    requires InRange(h)
    ensures |s| == HEADER_BYTES
  {
    MAGIC + [h.kind, h.flags, h.channels, h.format]
    + Le(h.epoch, 8) + Le(h.sequence, 8) + Le(h.first, 8) + Le(h.monoNs, 8)
    + Le(h.uncertainty, 4) + Le(h.rate, 4) + Le(h.frames, 4) + Le(h.generation, 4) + Le(h.mask, 4) + Le(h.payloadBytes, 4)
  }

  function Unpack(d: seq<byte>): Header
    requires |d| >= HEADER_BYTES
  {
    Header(d[4], d[5], d[6], d[7], Val(d[8..16]), Val(d[16..24]), Val(d[24..32]), Val(d[32..40]),
      Val(d[40..44]), Val(d[44..48]), Val(d[48..52]), Val(d[52..56]), Val(d[56..60]), Val(d[60..64]))
  }

  lemma Pow256Values()
    ensures Pow256(4) == U32_MAX + 1 && Pow256(8) == U64_MAX + 1
  {
    assert Pow256(2) == 65536;
    assert Pow256(4) == 256 * (256 * Pow256(2));
    assert Pow256(6) == 256 * (256 * Pow256(4));
    assert Pow256(8) == 256 * (256 * Pow256(6));
  }

  lemma UnpackPack(h: Header, payload: seq<byte>)
    requires InRange(h)
    ensures Unpack(Pack(h) + payload) == h && (Pack(h) + payload)[..4] == MAGIC
  {
    var d := Pack(h) + payload;
    Pow256Values();
    assert d[8..16] == Le(h.epoch, 8);
    assert d[16..24] == Le(h.sequence, 8);
    assert d[24..32] == Le(h.first, 8);
    assert d[32..40] == Le(h.monoNs, 8);
    assert d[40..44] == Le(h.uncertainty, 4);
    assert d[44..48] == Le(h.rate, 4);
    assert d[48..52] == Le(h.frames, 4);
    assert d[52..56] == Le(h.generation, 4);
    assert d[56..60] == Le(h.mask, 4);
    assert d[60..64] == Le(h.payloadBytes, 4);
    ValOfLe(h.epoch, 8);
    ValOfLe(h.sequence, 8);
    ValOfLe(h.first, 8);
    ValOfLe(h.monoNs, 8);
    ValOfLe(h.uncertainty, 4);
    ValOfLe(h.rate, 4);
    ValOfLe(h.frames, 4);
    ValOfLe(h.generation, 4);
    ValOfLe(h.mask, 4);
    ValOfLe(h.payloadBytes, 4);
  }

  lemma PackUnpack(d: seq<byte>)
    requires |d| >= HEADER_BYTES && d[..4] == MAGIC
    ensures InRange(Unpack(d)) && Pack(Unpack(d)) == d[..HEADER_BYTES]
  {
    Pow256Values();
    LeOfVal(d[8..16]);
    LeOfVal(d[16..24]);
    LeOfVal(d[24..32]);
    LeOfVal(d[32..40]);
    LeOfVal(d[40..44]);
    LeOfVal(d[44..48]);
    LeOfVal(d[48..52]);
    LeOfVal(d[52..56]);
    LeOfVal(d[56..60]);
    LeOfVal(d[60..64]);
    assert d[..64] == d[..4] + d[4..8] + d[8..16] + d[16..24] + d[24..32] + d[32..40]
      + d[40..44] + d[44..48] + d[48..52] + d[52..56] + d[56..60] + d[60..64];
    assert d[4..8] == [d[4], d[5], d[6], d[7]];
  }

  // ---- record payloads ----

  /** Record i of a cell payload. */
  function CellAt(p: seq<byte>, i: nat): (r: seq<byte>)
    requires 4 * i + 4 <= |p|
    ensures |r| == 4
  {
    p[4 * i..4 * i + 4]
  }

  function CellFault(p: seq<byte>): Option<Fault> {
    if |p| % 4 != 0 then Some(CellSize)
    else if exists i :: 0 <= i < |p| / 4 && !(-12_000 <= Sample(CellAt(p, i)[0], CellAt(p, i)[1]) <= 0) then Some(CellLevel)
    else if exists i :: 0 <= i < |p| / 4 && CellAt(p, i)[2] >= 4 then Some(CellFlags)
    else if exists i :: 0 <= i < |p| / 4 && CellAt(p, i)[3] >= 16 then Some(CellMask)
    else if exists i :: 0 <= i < |p| / 4 && CellAt(p, i)[2] % 2 == 1 && Sample(CellAt(p, i)[0], CellAt(p, i)[1]) != -12_000 then Some(CellGap)
    else None
  }

  /** playback, erle, dtd or vad frames above the record's frames. */
  predicate CountsAbove(r: seq<byte>)
    requires |r| == 14
  {
    r[2] > r[0] || r[5] > r[0] || r[7] > r[0] || r[11] > r[0]
  }

  /** One 14-byte AFE record: frames, flags, playback, erle max/mean/frames, dtd max/frames,
      rms max/mean, vad max/frames, volume, lost. */
  function AfeFault(p: seq<byte>): Option<Fault> {
    if |p| % 14 != 0 then Some(AfeSize)
    else if exists i :: 0 <= i < |p| / 14 && AfeAt(p, i)[0] > 10 then Some(AfeFrames)
    else if exists i :: 0 <= i < |p| / 14 && AfeAt(p, i)[1] >= 64 then Some(AfeFlags)
    else if exists i :: 0 <= i < |p| / 14 && CountsAbove(AfeAt(p, i)) then Some(AfeCounts)
    else if exists i :: 0 <= i < |p| / 14 && (AfeAt(p, i)[6] > 31 || AfeAt(p, i)[10] > 3 || AfeAt(p, i)[12] > 127) then Some(AfeBounds)
    else None
  }

  function AfeAt(p: seq<byte>, i: nat): (r: seq<byte>)
    requires 14 * i + 14 <= |p|
    ensures |r| == 14
  {
    p[14 * i..14 * i + 14]
  }

  // ---- parse ----

  /** Bytes the payload must have. */
  function PayloadBytes(kind: Kind, flags: int, frames: int): int {
    match kind
    case Cells => frames * 4
    case Afe => frames * 14
    case _ => if Silence(flags) then 0 else frames * 2
  }

  /** The static checks on a header whose kind is known, in order. */
  function HeaderFault(kind: Kind, h: Header): Option<Fault> {
    if h.flags >= 32 then Some(UnknownFlags)
    else if Silence(h.flags) && !kind.Reference? then Some(SilenceKind)
    else if h.channels != 1 then Some(Channels)
    else if h.format != Format(kind) then Some(WrongFormat)
    else if h.epoch == 0 then Some(EpochZero)
    else if h.rate != Rate(kind) then Some(WrongRate)
    else if !(1 <= h.frames <= MaxFrames(kind)) then Some(FrameCount)
    else if !kind.Render? && h.generation != 0 then Some(GenerationKind)
    else if !kind.Reference? && h.mask != 0 then Some(MaskKind)
    else if h.mask >= 16 then Some(MaskBits)
    else if kind.Cells? && h.first % CELL_SAMPLES != 0 then Some(CellBoundary)
    else if kind.Afe? && h.first % AFE_PERIOD_SAMPLES != 0 then Some(PeriodBoundary)
    else if h.payloadBytes != PayloadBytes(kind, h.flags, h.frames) then Some(PayloadSize)
    else None
  }

  function PayloadFault(kind: Kind, p: seq<byte>): Option<Fault> {
    match kind case Cells => CellFault(p) case Afe => AfeFault(p) case _ => None
  }

  /** The checks on an unpacked header and what follows it, in order. */
  function Decode(h: Header, payload: seq<byte>): Result<Packet, Fault> {
    match KindOf(h.kind)
    case None => Err(UnknownKind)
    case Some(kind) =>
      var bad := HeaderFault(kind, h);
      if bad.Some? then Err(bad.value)
      else if |payload| != h.payloadBytes then Err(FrameSize)
      else if h.first + h.frames * FrameSamples(kind) > U64_MAX then Err(Overflow)
      else
        var worse := PayloadFault(kind, payload);
        if worse.Some? then Err(worse.value)
        else Ok(Packet(kind, h.flags, h.epoch, h.sequence, h.first, h.monoNs,
          if h.uncertainty == U32_MAX then None else Some(h.uncertainty),
          h.rate, h.frames, h.generation, h.mask, payload))
  }

  function Parse(d: seq<byte>): Result<Packet, Fault> {
    if |d| < HEADER_BYTES then Err(TooShort)
    else if d[..4] != MAGIC then Err(BadMagic)
    else Decode(Unpack(d), d[HEADER_BYTES..])
  }

  // ---- build ----

  datatype Args = Args(
    kind: Kind, epoch: int, sequence: int, first: int, pcm: Option<seq<int>>, cells: Option<seq<byte>>, afe: Option<seq<byte>>,
    frameCount: Option<int>, flags: int, monoNs: int, uncertainty: Option<int>, generation: int, mask: int)

  datatype BuildFault = ValueError | StructError | Rejected(fault: Fault)

  /** The payload and its frame count. */
  function Body(a: Args): Result<(seq<byte>, int), BuildFault> {
    match a.kind
    case Cells => if a.cells.None? then Err(ValueError) else Ok((a.cells.value, |a.cells.value| / 4))
    case Afe => if a.afe.None? then Err(ValueError) else Ok((a.afe.value, |a.afe.value| / 14))
    case _ =>
      if Silence(a.flags) then
        if a.pcm.Some? || a.frameCount.None? then Err(ValueError) else Ok(([], a.frameCount.value))
      else if a.pcm.None? || exists i :: 0 <= i < |a.pcm.value| && !IsInt16(a.pcm.value[i]) then Err(ValueError)
      else Ok((PcmBytes(a.pcm.value), |a.pcm.value|))
  }

  predicate Fits(v: int, top: int) { 0 <= v <= top }

  predicate Packable(a: Args, frames: int, payloadBytes: int) {
    && Fits(a.flags, 255) && Fits(a.epoch, U64_MAX) && Fits(a.sequence, U64_MAX) && Fits(a.first, U64_MAX)
    && Fits(a.monoNs, U64_MAX) && (a.uncertainty.None? || Fits(a.uncertainty.value, U32_MAX)) && Fits(frames, U32_MAX)
    && Fits(a.generation, U32_MAX) && Fits(a.mask, U32_MAX) && Fits(payloadBytes, U32_MAX)
  }

  function HeaderOf(a: Args, frames: int, payloadBytes: int): (h: Header)
    requires Packable(a, frames, payloadBytes)
    ensures InRange(h)
  {
    Header(Code(a.kind), a.flags, 1, Format(a.kind), a.epoch, a.sequence, a.first, a.monoNs,
      if a.uncertainty.None? then U32_MAX else a.uncertainty.value,
      Rate(a.kind), frames, a.generation, a.mask, payloadBytes)
  }

  function Build(a: Args): Result<seq<byte>, BuildFault> {
    match Body(a)
    case Err(e) => Err(e)
    case Ok((payload, frames)) =>
      if !Packable(a, frames, |payload|) then Err(StructError)
      else
        var frame := Pack(HeaderOf(a, frames, |payload|)) + payload;
        match Parse(frame)
        case Err(e) => Err(Rejected(e))
        case Ok(_) => Ok(frame)
  }

  /** The arguments that describe a packet. */
  function ArgsOf(p: Packet): Args
    requires |p.payload| % 2 == 0 || p.kind.Cells? || p.kind.Afe?
  {
    var pcm := !p.kind.Cells? && !p.kind.Afe? && !Silence(p.flags);
    Args(p.kind, p.epoch, p.sequence, p.first,
      if pcm then Some(PcmOf(p.payload)) else None,
      if p.kind.Cells? then Some(p.payload) else None,
      if p.kind.Afe? then Some(p.payload) else None,
      if Silence(p.flags) then Some(p.frames) else None,
      p.flags, p.monoNs, p.uncertainty, p.generation, p.mask)
  }

  lemma ParseFrame(h: Header, payload: seq<byte>)
    requires InRange(h)
    ensures Parse(Pack(h) + payload) == Decode(h, payload)
  {
    UnpackPack(h, payload);
    assert (Pack(h) + payload)[HEADER_BYTES..] == payload;
  }

  /** The packet says what the arguments said. The one field that does not survive is an uncertainty
      of 0xffffffff, which is the wire's spelling of "unknown". */
  predicate Describes(p: Packet, a: Args) {
    && p.kind == a.kind && p.flags == a.flags && p.epoch == a.epoch && p.sequence == a.sequence
    && p.first == a.first && p.monoNs == a.monoNs && p.generation == a.generation && p.mask == a.mask
    && p.rate == Rate(a.kind) && (p.uncertainty == a.uncertainty <==> a.uncertainty != Some(U32_MAX))
    && match a.kind
       case Cells => Some(p.payload) == a.cells && 4 * p.frames == |p.payload|
       case Afe => Some(p.payload) == a.afe && 14 * p.frames == |p.payload|
       case _ =>
         if Silence(a.flags) then p.payload == [] && Some(p.frames) == a.frameCount
         else |p.payload| == 2 * p.frames && Some(PcmOf(p.payload)) == a.pcm
  }

  /** A frame that was built parses back to its arguments. */
  lemma ParseBuild(a: Args)
    requires Build(a).Ok?
    ensures Parse(Build(a).value).Ok? && Describes(Parse(Build(a).value).value, a)
  {
    var (payload, frames) := Body(a).value;
    ParseFrame(HeaderOf(a, frames, |payload|), payload);
    DecodeDescribes(a, payload, frames);
  }

  lemma DecodeDescribes(a: Args, payload: seq<byte>, frames: int)
    requires Body(a) == Ok((payload, frames)) && Packable(a, frames, |payload|)
    requires Decode(HeaderOf(a, frames, |payload|), payload).Ok?
    ensures Describes(Decode(HeaderOf(a, frames, |payload|), payload).value, a)
  {
    if !a.kind.Cells? && !a.kind.Afe? && !Silence(a.flags) {
      PcmRoundTrip(a.pcm.value);
    }
  }

  lemma ArgsDescribe(h: Header, payload: seq<byte>)
    requires InRange(h) && Decode(h, payload).Ok?
    ensures var p := Decode(h, payload).value;
      && (|p.payload| % 2 == 0 || p.kind.Cells? || p.kind.Afe?)
      && Body(ArgsOf(p)) == Ok((payload, h.frames)) && Packable(ArgsOf(p), h.frames, |payload|)
      && HeaderOf(ArgsOf(p), h.frames, |payload|) == h
  {
    var p := Decode(h, payload).value;
    if !p.kind.Cells? && !p.kind.Afe? && !Silence(p.flags) {
      BytesRoundTrip(p.payload);
    }
  }

  /** Re-encoding any accepted frame gives the same bytes, for every kind, digital silence and
      unknown uncertainty included: with `ParseBuild`, the codec is a bijection on valid frames. */
  lemma BuildParse(d: seq<byte>)
    requires Parse(d).Ok?
    ensures var p := Parse(d).value;
      (|p.payload| % 2 == 0 || p.kind.Cells? || p.kind.Afe?) && Build(ArgsOf(p)) == Ok(d)
  {
    PackUnpack(d);
    ArgsDescribe(Unpack(d), d[HEADER_BYTES..]);
    assert d == Pack(Unpack(d)) + d[HEADER_BYTES..];
  }
}
