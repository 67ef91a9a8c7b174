/** EMA1 frames byte by byte (controller/em_audio_timeline.py, `parse_packet`): which are accepted, and what
    each of their fields is. */
module Frames {
  import opened Basics
  import opened ByteFields
  import Codec

  /** A little-endian field of four bytes at `at`, and of eight. */
  function Word(d: seq<byte>, at: nat): nat
    requires at + 4 <= |d|
  {
    d[at] as int + 256 * (d[at + 1] as int) + 65_536 * (d[at + 2] as int) + 16_777_216 * (d[at + 3] as int)
  }

  function Long(d: seq<byte>, at: nat): nat
    requires at + 8 <= |d|
  {
    Word(d, at) + 4_294_967_296 * Word(d, at + 4)
  }

  lemma {:induction false} WordIs(d: seq<byte>, at: nat)
    requires at + 4 <= |d|
    ensures Val(d[at..at + 4]) == Word(d, at)
  {
    var s := d[at..at + 4];
    assert s[1..][0] == d[at + 1] && s[1..][1..][0] == d[at + 2] && s[1..][1..][1..][0] == d[at + 3];
    assert s[1..][1..][1..][1..] == [];
    assert Val(s[1..][1..][1..]) == d[at + 3] as int && Val(s[1..][1..]) == d[at + 2] as int + 256 * (d[at + 3] as int);
  }

  lemma {:induction false} ValJoins(a: seq<byte>, b: seq<byte>)
    ensures Val(a + b) == Val(a) + Pow256(|a|) * Val(b)
  {
    if a == [] {
      assert a + b == b;
    } else {
      ValJoins(a[1..], b);
      assert (a + b)[1..] == a[1..] + b;
    }
  }

  lemma {:induction false} LongIs(d: seq<byte>, at: nat)
    requires at + 8 <= |d|
    ensures Val(d[at..at + 8]) == Long(d, at)
  {
    assert d[at..at + 8] == d[at..at + 4] + d[at + 4..at + 8];
    ValJoins(d[at..at + 4], d[at + 4..at + 8]);
    Codec.Pow256Values();
    WordIs(d, at);
    WordIs(d, at + 4);
  }

  /** Format, rate, most frames of a packet, samples of a frame and bytes of a frame. */
  datatype Row = Row(format: int, rate: int, most: int, samples: int, bytes: int)

  /** The row of each kind: mic and reference, then render, then cells, then AFE records. */
  function RowOf(kind: int): Option<Row> {
    if kind == 1 || kind == 2 then Some(Row(1, 16_000, 1_280, 1, 2))
    else if kind == 3 then Some(Row(1, 48_000, 3_840, 1, 2))
    else if kind == 4 then Some(Row(2, 16_000, 320, 512, 4))
    else if kind == 5 then Some(Row(3, 16_000, 125, 1_280, 14))
    else None
  }

  /** Of digital silence only the header is sent. */
  predicate Silent(d: seq<byte>)
    requires |d| >= 64
  {
    16 <= d[5]
  }

  /** A header that is accepted, field by field. */
  predicate HeaderLegal(d: seq<byte>)
    requires |d| >= 64
  {
    && d[0] == 'E' as int && d[1] == 'M' as int && d[2] == 'A' as int && d[3] == '1' as int
    && d[5] < 32 && (Silent(d) ==> d[4] == 2) && d[6] == 1 && Long(d, 8) != 0
    && (d[4] != 3 ==> Word(d, 52) == 0) && (d[4] != 2 ==> Word(d, 56) == 0) && Word(d, 56) < 16
    && RowOf(d[4]).Some? && Fits(d, RowOf(d[4]).value)
  }

  /** What the kind's row says of the format, the rate, the frame count, the samples and the sizes. */
  predicate Fits(d: seq<byte>, row: Row)
    requires |d| >= 64
  {
    && d[7] == row.format && Word(d, 44) == row.rate && 1 <= Word(d, 48) <= row.most
    && (d[4] == 4 ==> Long(d, 24) % 512 == 0) && (d[4] == 5 ==> Long(d, 24) % 1_280 == 0)
    && Long(d, 24) + Word(d, 48) * row.samples <= U64_MAX
    && Word(d, 60) == (if Silent(d) then 0 else Word(d, 48) * row.bytes) && |d| == 64 + Word(d, 60)
  }

  /** The level of the cell record at `at`, in hundredths of a decibel. */
  function Level(p: seq<byte>, at: nat): int
    requires at + 2 <= |p|
  {
    var u := p[at] as int + 256 * (p[at + 1] as int);
    if p[at + 1] < 128 then u else u - 65_536
  }

  /** A cell record: level, flags and active sources; a gap has the lowest level. */
  predicate CellLegal(p: seq<byte>, at: nat)
    requires at + 4 <= |p|
  {
    -12_000 <= Level(p, at) <= 0 && p[at + 2] < 4 && p[at + 3] < 16 && (p[at + 2] % 2 == 1 ==> Level(p, at) == -12_000)
  }

  /** An AFE record: at most ten frames, no count above them, and each measure within its bound. */
  predicate AfeLegal(p: seq<byte>, at: nat)
    requires at + 14 <= |p|
  {
    && p[at] <= 10 && p[at + 1] < 64 && p[at + 2] <= p[at] && p[at + 5] <= p[at] && p[at + 7] <= p[at] && p[at + 11] <= p[at]
    && p[at + 6] <= 31 && p[at + 10] <= 3 && p[at + 12] <= 127
  }

  predicate PayloadLegal(kind: int, p: seq<byte>) {
    && (kind == 4 ==> |p| % 4 == 0 && forall i :: 0 <= i < |p| / 4 ==> CellLegal(p, 4 * i))
    && (kind == 5 ==> |p| % 14 == 0 && forall i :: 0 <= i < |p| / 14 ==> AfeLegal(p, 14 * i))
  }

  predicate Legal(d: seq<byte>) { |d| >= 64 && HeaderLegal(d) && PayloadLegal(d[4], d[64..]) }

  lemma {:induction false} UnpackIs(d: seq<byte>)
    requires |d| >= 64
    ensures var h := Codec.Unpack(d);
      && h.epoch == Long(d, 8) && h.sequence == Long(d, 16) && h.first == Long(d, 24) && h.monoNs == Long(d, 32)
      && h.uncertainty == Word(d, 40) && h.rate == Word(d, 44) && h.frames == Word(d, 48) && h.generation == Word(d, 52)
      && h.mask == Word(d, 56) && h.payloadBytes == Word(d, 60)
  {
    LongIs(d, 8);
    LongIs(d, 16);
    LongIs(d, 24);
    LongIs(d, 32);
    WordIs(d, 40);
    WordIs(d, 44);
    WordIs(d, 48);
    WordIs(d, 52);
    WordIs(d, 56);
    WordIs(d, 60);
  }

  lemma {:induction false} CellsIff(p: seq<byte>)
    ensures Codec.CellFault(p).None? <==> PayloadLegal(4, p)
  {
    if |p| % 4 == 0 {
      forall i | 0 <= i < |p| / 4
        ensures CellLegal(p, 4 * i) <==> CellFine(Codec.CellAt(p, i))
      {
        var r := Codec.CellAt(p, i);
        assert r[0] == p[4 * i] && r[1] == p[4 * i + 1] && r[2] == p[4 * i + 2] && r[3] == p[4 * i + 3];
        assert Sample(r[0], r[1]) == Level(p, 4 * i);
      }
      assert Codec.CellFault(p).None? <==> forall i :: 0 <= i < |p| / 4 ==> CellFine(Codec.CellAt(p, i));
    }
  }

  predicate CellFine(r: seq<byte>)
    requires |r| == 4
  {
    -12_000 <= Sample(r[0], r[1]) <= 0 && r[2] < 4 && r[3] < 16 && (r[2] % 2 == 1 ==> Sample(r[0], r[1]) == -12_000)
  }

  lemma {:induction false} AfesIff(p: seq<byte>)
    ensures Codec.AfeFault(p).None? <==> PayloadLegal(5, p)
  {
    if |p| % 14 == 0 {
      forall i | 0 <= i < |p| / 14
        ensures AfeLegal(p, 14 * i) <==> AfeFine(Codec.AfeAt(p, i))
      {
        AfeBytes(p, i);
      }
      assert Codec.AfeFault(p).None? <==> forall i :: 0 <= i < |p| / 14 ==> AfeFine(Codec.AfeAt(p, i));
    }
  }

  predicate AfeFine(r: seq<byte>)
    requires |r| == 14
  {
    r[0] <= 10 && r[1] < 64 && !Codec.CountsAbove(r) && r[6] <= 31 && r[10] <= 3 && r[12] <= 127
  }

  lemma {:induction false} AfeBytes(p: seq<byte>, i: nat)
    requires 14 * i + 14 <= |p|
    ensures forall k :: 0 <= k < 14 ==> Codec.AfeAt(p, i)[k] == p[14 * i + k]
  {
  }

  lemma {:induction false} RowIs(kind: Codec.Kind)
    ensures RowOf(Codec.Code(kind)) ==
      Some(Row(Codec.Format(kind), Codec.Rate(kind), Codec.MaxFrames(kind), Codec.FrameSamples(kind), match kind case Cells => 4 case Afe => 14 case _ => 2))
  {
  }

  /** A frame is accepted if and only if its bytes are legal, and then each of the packet's fields is the
      number at its place. */
  lemma {:induction false} AcceptedIff(d: seq<byte>)
    ensures Codec.Parse(d).Ok? <==> Legal(d)
    ensures Codec.Parse(d).Ok? ==> FieldsAt(d, Codec.Parse(d).value)
  {
    if |d| >= 64 {
      UnpackIs(d);
      CellsIff(d[64..]);
      AfesIff(d[64..]);
      MagicIs(d);
      var h := Codec.Unpack(d);
      if Codec.KindOf(h.kind).Some? {
        RowIs(Codec.KindOf(h.kind).value);
        HeaderIff(d, Codec.KindOf(h.kind).value);
      }
    }
  }

  lemma {:induction false} MagicIs(d: seq<byte>)
    requires |d| >= 64
    ensures d[..4] == Codec.MAGIC <==> d[0] == 'E' as int && d[1] == 'M' as int && d[2] == 'A' as int && d[3] == '1' as int
  {
    assert d[..4] == [d[0], d[1], d[2], d[3]];
  }

  predicate FieldsAt(d: seq<byte>, p: Codec.Packet)
    requires |d| >= 64
  {
    && Codec.Code(p.kind) == d[4] && p.flags == d[5] && p.epoch == Long(d, 8) && p.sequence == Long(d, 16) && p.first == Long(d, 24)
    && p.monoNs == Long(d, 32) && p.uncertainty == (if Word(d, 40) == 4_294_967_295 then None else Some(Word(d, 40)))
    && p.rate == Word(d, 44) && p.frames == Word(d, 48) && p.generation == Word(d, 52) && p.mask == Word(d, 56) && p.payload == d[64..]
  }

  predicate Sized(d: seq<byte>, kind: Codec.Kind, h: Codec.Header) {
    |d| - 64 == h.payloadBytes && h.first + h.frames * Codec.FrameSamples(kind) <= U64_MAX
  }

  lemma {:induction false} HeaderIff(d: seq<byte>, kind: Codec.Kind)
    requires |d| >= 64 && d[4] == Codec.Code(kind)
    ensures var h := Codec.Unpack(d);
      (d[..4] == Codec.MAGIC && Codec.HeaderFault(kind, h).None? && Sized(d, kind, h)) <==> HeaderLegal(d)
  {
    UnpackIs(d);
    MagicIs(d);
    RowIs(kind);
  }
}
