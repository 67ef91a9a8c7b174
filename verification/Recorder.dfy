/** A streamed WAV recording and its recovery (controller/em_ambient.py). Files are byte sequences;
    a kill can come after any byte a write has reached. */
module WavFiles {
  import opened Basics
  import opened ByteFields

  const HEADER_BYTES := 44
  const U32_MAX := 0xFFFF_FFFF

  const RIFF: seq<byte> := [82, 73, 70, 70]
  const WAVE_FMT: seq<byte> := [87, 65, 86, 69, 102, 109, 116, 32]
  const DATA: seq<byte> := [100, 97, 116, 97]

  /** A canonical PCM header (mono, 16 kHz, 16 bit) for n payload bytes. The size fields are 32 bits. */
  function WavHeader(n: nat): (h: seq<byte>)
    requires 36 + n <= U32_MAX
    ensures |h| == HEADER_BYTES
  {
    RIFF + Le(36 + n, 4) + WAVE_FMT + Le(16, 4) + Le(1, 2) + Le(1, 2) + Le(16_000, 4) + Le(32_000, 4) + Le(2, 2) + Le(16, 2)
    + DATA + Le(n, 4)
  }

  /** Both size fields say what the file holds. */
  predicate SizesMatch(f: seq<byte>) {
    |f| >= HEADER_BYTES && Val(f[4..8]) == |f| - 8 && Val(f[40..44]) == |f| - HEADER_BYTES
  }

  function Payload(f: seq<byte>): seq<byte> {
    if |f| <= HEADER_BYTES then [] else f[HEADER_BYTES..]
  }

  /** How a header rewrite went: all of it, killed or failed after some bytes. */
  datatype Rewrite = Whole | Torn(bytes: nat)

  /** f with its header overwritten by h, as far as the write got. */
  function Patch(f: seq<byte>, h: seq<byte>, how: Rewrite): (r: seq<byte>)
    requires |f| >= HEADER_BYTES && |h| == HEADER_BYTES
    ensures |r| == |f| && Payload(r) == Payload(f)
  {
    match how
    case Whole => h + f[HEADER_BYTES..]
    case Torn(k) => if k >= HEADER_BYTES then h + f[HEADER_BYTES..] else h[..k] + f[k..]
  }

  datatype Finalized = Finalized(file: seq<byte>, outcome: Outcome)

  datatype Outcome = Playable | NoAudio | WriteFailed | TooLarge

  /** Rewrite a file's header to match its length. The source answers True for Playable, False for
      NoAudio and WriteFailed, and raises for TooLarge. */
  function Finalize(f: seq<byte>, how: Rewrite): Finalized {
    if |f| <= HEADER_BYTES then Finalized(f, NoAudio)
    else if 36 + (|f| - HEADER_BYTES) > U32_MAX then Finalized(f, TooLarge)
    else Finalized(Patch(f, WavHeader(|f| - HEADER_BYTES), how), if how.Whole? then Playable else WriteFailed)
  }

  lemma HeaderSizes(n: nat, rest: seq<byte>)
    requires 36 + n <= U32_MAX && |rest| == n
    ensures SizesMatch(WavHeader(n) + rest)
  {
    var f := WavHeader(n) + rest;
    assert Pow256(2) == 65536;
    assert Pow256(4) == 256 * (256 * Pow256(2));
    assert f[4..8] == Le(36 + n, 4);
    assert f[40..44] == Le(n, 4);
    ValOfLe(36 + n, 4);
    ValOfLe(n, 4);
  }

  /** The bytes at `at` spell the text. */
  predicate Spells(h: seq<byte>, at: nat, text: string) {
    at + |text| <= |h| && forall k :: 0 <= k < |text| ==> h[at + k] == text[k] as int
  }

  /** x, which h begins with, is a and then b. */
  lemma Part(h: seq<byte>, x: seq<byte>, a: seq<byte>, b: seq<byte>)
    requires |x| <= |h| && h[..|x|] == x && x == a + b
    ensures h[..|a|] == a && h[|a|..|x|] == b
  {
    assert x[..|a|] == a && x[|a|..] == b;
    assert h[..|x|][..|a|] == h[..|a|] && h[..|x|][|a|..] == h[|a|..|x|];
  }

  lemma {:induction false} FormatPlaces(h: seq<byte>, start: seq<byte>, end: seq<byte>)
    requires |start| == 16 && |end| == 36 <= |h| && h[..36] == end
    requires end == start + Le(16, 4) + Le(1, 2) + Le(1, 2) + Le(16_000, 4) + Le(32_000, 4) + Le(2, 2) + Le(16, 2)
    ensures h[16..20] == Le(16, 4) && h[20..22] == Le(1, 2) && h[22..24] == Le(1, 2) && h[24..28] == Le(16_000, 4)
    ensures h[28..32] == Le(32_000, 4) && h[32..34] == Le(2, 2) && h[34..36] == Le(16, 2) && h[..16] == start
  {
    var a := start + Le(16, 4);
    var b := a + Le(1, 2);
    var c := b + Le(1, 2);
    var d := c + Le(16_000, 4);
    var e := d + Le(32_000, 4);
    var f := e + Le(2, 2);
    Part(h, end, f, Le(16, 2));
    Part(h, f, e, Le(2, 2));
    Part(h, e, d, Le(32_000, 4));
    Part(h, d, c, Le(16_000, 4));
    Part(h, c, b, Le(1, 2));
    Part(h, b, a, Le(1, 2));
    Part(h, a, start, Le(16, 4));
  }

  lemma {:induction false} HeaderPlaces(h: seq<byte>, n: nat)
    requires 36 + n <= U32_MAX && h == WavHeader(n)
    ensures h[..4] == RIFF && h[4..8] == Le(36 + n, 4) && h[8..16] == WAVE_FMT && h[36..40] == DATA && h[40..44] == Le(n, 4)
    ensures h[16..20] == Le(16, 4) && h[20..22] == Le(1, 2) && h[22..24] == Le(1, 2) && h[24..28] == Le(16_000, 4)
    ensures h[28..32] == Le(32_000, 4) && h[32..34] == Le(2, 2) && h[34..36] == Le(16, 2)
  {
    var start := RIFF + Le(36 + n, 4) + WAVE_FMT;
    var end := start + Le(16, 4) + Le(1, 2) + Le(1, 2) + Le(16_000, 4) + Le(32_000, 4) + Le(2, 2) + Le(16, 2);
    Part(h, h, end + DATA, Le(n, 4));
    Part(h, end + DATA, end, DATA);
    FormatPlaces(h, start, end);
    Part(h, start, RIFF + Le(36 + n, 4), WAVE_FMT);
    Part(h, RIFF + Le(36 + n, 4), RIFF, Le(36 + n, 4));
  }

  lemma {:induction false} Fields(h: seq<byte>, n: nat)
    requires 36 + n <= U32_MAX && h == WavHeader(n)
    ensures Val(h[4..8]) == 36 + n && Val(h[40..44]) == n
    ensures Val(h[16..20]) == 16 && Val(h[20..22]) == 1 && Val(h[22..24]) == 1 && Val(h[24..28]) == 16_000
    ensures Val(h[28..32]) == 16_000 * 1 * 2 && Val(h[32..34]) == 1 * 2 && Val(h[34..36]) == 16
  {
    assert Pow256(2) == 65536;
    assert Pow256(4) == 256 * (256 * Pow256(2));
    HeaderPlaces(h, n);
    ValOfLe(36 + n, 4);
    ValOfLe(n, 4);
    ValOfLe(16, 4);
    ValOfLe(1, 2);
    ValOfLe(16_000, 4);
    ValOfLe(32_000, 4);
    ValOfLe(2, 2);
    ValOfLe(16, 2);
  }

  /** What a header says, tag by tag and field by field: PCM, one channel of 16 bits at 16 kHz. */
  lemma {:induction false} HeaderSays(n: nat)
    requires 36 + n <= U32_MAX
    ensures var h := WavHeader(n);
      && Spells(h, 0, "RIFF") && Val(h[4..8]) == 36 + n && Spells(h, 8, "WAVE") && Spells(h, 12, "fmt ") && Val(h[16..20]) == 16
      && Val(h[20..22]) == 1 && Val(h[22..24]) == 1 && Val(h[24..28]) == 16_000 && Val(h[28..32]) == 16_000 * 1 * 2
      && Val(h[32..34]) == 1 * 2 && Val(h[34..36]) == 16 && Spells(h, 36, "data") && Val(h[40..44]) == n
  {
    var h := WavHeader(n);
    HeaderPlaces(h, n);
    Fields(h, n);
    Spelled(h);
  }

  lemma {:induction false} SpelledAt(h: seq<byte>, at: nat, text: string)
    requires at + |text| <= |h| && forall k :: 0 <= k < |text| ==> h[at..at + |text|][k] == text[k] as int
    ensures Spells(h, at, text)
  {
    forall k | 0 <= k < |text|
      ensures h[at + k] == text[k] as int
    {
      assert h[at..at + |text|][k] == h[at + k];
    }
  }

  lemma {:induction false} Spelled(h: seq<byte>)
    requires |h| == HEADER_BYTES && h[..4] == RIFF && h[8..16] == WAVE_FMT && h[36..40] == DATA
    ensures Spells(h, 0, "RIFF") && Spells(h, 8, "WAVE") && Spells(h, 12, "fmt ") && Spells(h, 36, "data")
  {
    assert h[8..12] == WAVE_FMT[..4] && h[12..16] == WAVE_FMT[4..];
    SpelledAt(h, 0, "RIFF");
    SpelledAt(h, 8, "WAVE");
    SpelledAt(h, 12, "fmt ");
    SpelledAt(h, 36, "data");
  }

  /** Finalizing makes the sizes true and keeps the payload; doing it again, or over a file whose
      own rewrite was torn at any byte, gives the very same file. */
  lemma FinalizeIsRecovery(f: seq<byte>, k: nat)
    requires |f| > HEADER_BYTES && |f| - 8 <= U32_MAX
    ensures var r := Finalize(f, Whole);
      && r.outcome == Playable && SizesMatch(r.file) && Payload(r.file) == Payload(f) && |r.file| == |f|
      && Finalize(r.file, Whole) == r
      && Finalize(Finalize(f, Torn(k)).file, Whole) == r
  {
    var r, t := Finalize(f, Whole), Finalize(f, Torn(k));
    HeaderSizes(|f| - HEADER_BYTES, f[HEADER_BYTES..]);
    assert Payload(t.file) == Payload(f) && |t.file| == |f|;
    assert t.file[HEADER_BYTES..] == f[HEADER_BYTES..];
    assert r.file[HEADER_BYTES..] == f[HEADER_BYTES..];
  }

  // ---- one recording's life ----

  /** The part file on disk, the frames in hand, and whether the recording is over. */
  datatype Recording = Recording(disk: seq<byte>, written: nat, pending: seq<byte>, closed: bool)

  datatype Op = Push(frame: seq<byte>) | Flush

  /** A recording just opened: its placeholder header is on disk. */
  function New(header: seq<byte>): Recording { Recording(header, 0, [], false) }

  function Apply(r: Recording, op: Op): Recording {
    match op
    case Push(frame) => if r.closed then r else r.(pending := r.pending + frame)
    case Flush => if r.closed then r else Recording(r.disk + r.pending, r.written + |r.pending|, [], false)
  }

  function Run(header: seq<byte>, ops: seq<Op>): Recording {
    if ops == [] then New(header) else Apply(Run(header, ops[..|ops| - 1]), ops[|ops| - 1])
  }

  function Pushed(ops: seq<Op>): seq<byte> {
    if ops == [] then []
    else Pushed(ops[..|ops| - 1]) + if ops[|ops| - 1].Push? then ops[|ops| - 1].frame else []
  }

  /** How many bytes the completed flushes have put on disk. */
  function Flushed(ops: seq<Op>): nat {
    if ops == [] then 0
    else if ops[|ops| - 1].Flush? then |Pushed(ops[..|ops| - 1])|
    else Flushed(ops[..|ops| - 1])
  }

  /** The recording's file and frames in hand, put together, are the header and all that was pushed. */
  ghost predicate Holds(r: Recording, header: seq<byte>, all: seq<byte>, flushed: nat) {
    && !r.closed && r.written == flushed <= |all|
    && r.disk == header + all[..flushed] && r.pending == all[flushed..]
  }

  lemma {:induction false} DiskIsPrefix(header: seq<byte>, ops: seq<Op>)
    ensures Holds(Run(header, ops), header, Pushed(ops), Flushed(ops))
  {
    if ops != [] {
      DiskIsPrefix(header, ops[..|ops| - 1]);
      StepHolds(Run(header, ops[..|ops| - 1]), header, Pushed(ops[..|ops| - 1]), Flushed(ops[..|ops| - 1]), ops[|ops| - 1]);
    }
  }

  lemma StepHolds(r: Recording, header: seq<byte>, all: seq<byte>, flushed: nat, op: Op)
    requires Holds(r, header, all, flushed)
    ensures match op
      case Push(frame) => Holds(Apply(r, op), header, all + frame, flushed)
      case Flush => Holds(Apply(r, op), header, all + [], |all|)
  {
    match op
    case Push(frame) =>
      assert (all + frame)[..flushed] == all[..flushed];
      assert (all + frame)[flushed..] == all[flushed..] + frame;
    case Flush =>
      assert all + [] == all && all[..|all|] == all && all[|all|..] == [];
      assert header + all[..flushed] + all[flushed..] == header + all;
  }

  /** Every file a kill can leave: while the header is first written, between operations, during a
      flush, or after closing's flush while some new header overwrites the old one. */
  ghost predicate KillLeaves(r: Recording, header: seq<byte>, d: seq<byte>) {
    || (r == New(header) && |d| <= |header| && d == header[..|d|])
    || (exists k :: 0 <= k <= |r.pending| && d == r.disk + r.pending[..k])
    || TornClose(r, d)
  }

  ghost predicate TornClose(r: Recording, d: seq<byte>) {
    HEADER_BYTES <= |r.disk| && exists h: seq<byte>, k :: |h| == HEADER_BYTES && d == Patch(r.disk + r.pending, h, Torn(k))
  }

  predicate PrefixOf(a: seq<byte>, b: seq<byte>) {
    |a| <= |b| && a == b[..|a|]
  }

  lemma KillLeavesPrefix(r: Recording, header: seq<byte>, all: seq<byte>, flushed: nat, d: seq<byte>)
    requires |header| == HEADER_BYTES && Holds(r, header, all, flushed) && KillLeaves(r, header, d)
    ensures PrefixOf(Payload(d), all)
    ensures if |d| < HEADER_BYTES then flushed == 0 else flushed <= |Payload(d)|
  {
    if TornClose(r, d) {
      assert r.disk + r.pending == header + all;
      assert Payload(r.disk + r.pending) == all;
    } else if exists k :: 0 <= k <= |r.pending| && d == r.disk + r.pending[..k] {
      var k :| 0 <= k <= |r.pending| && d == r.disk + r.pending[..k];
      assert d == header + all[..flushed + k];
      assert Payload(d) == all[..flushed + k];
    }
  }

  /** Kill-at-any-byte recovery. Whatever a kill leaves, finalizing reports no audio exactly when no
      audio byte reached the disk, and raises exactly when the sizes do not fit the header; otherwise
      the file becomes playable, its sizes match, and its payload is a prefix of what was pushed that
      holds every completed flush. */
  lemma RecoveryAfterAnyKill(ops: seq<Op>, d: seq<byte>)
    requires KillLeaves(Run(WavHeader(0), ops), WavHeader(0), d)
    ensures KillRecovers(Finalize(d, Whole), d, Pushed(ops), Flushed(ops))
  {
    DiskIsPrefix(WavHeader(0), ops);
    KillLeavesPrefix(Run(WavHeader(0), ops), WavHeader(0), Pushed(ops), Flushed(ops), d);
    FinalizedIs(d, Pushed(ops), Flushed(ops));
  }

  predicate KillRecovers(r: Finalized, d: seq<byte>, all: seq<byte>, flushed: nat) {
    && (r.outcome == NoAudio <==> Payload(d) == [])
    && (r.outcome == TooLarge <==> 36 + |Payload(d)| > U32_MAX)
    && (flushed > 0 ==> r.outcome != NoAudio)
    && PrefixOf(Payload(r.file), all) && flushed <= |Payload(r.file)|
    && (r.outcome == NoAudio || r.outcome == TooLarge || (r.outcome == Playable && SizesMatch(r.file)))
  }

  lemma FinalizedIs(d: seq<byte>, all: seq<byte>, flushed: nat)
    requires PrefixOf(Payload(d), all)
    requires if |d| < HEADER_BYTES then flushed == 0 else flushed <= |Payload(d)|
    ensures KillRecovers(Finalize(d, Whole), d, all, flushed)
  {
    if |d| > HEADER_BYTES && |d| - 8 <= U32_MAX {
      FinalizeIsRecovery(d, 0);
    }
  }

  /** A caller that flushes whenever a push has said one is due. */
  predicate Disciplined(header: seq<byte>, ops: seq<Op>, flushBytes: nat) {
    ops == [] ||
    (Disciplined(header, ops[..|ops| - 1], flushBytes) &&
     (|Run(header, ops[..|ops| - 1]).pending| >= flushBytes ==> ops[|ops| - 1].Flush?))
  }

  /** Such a caller holds less than flushBytes plus its last frame, the most a kill can lose. */
  lemma LossIsBounded(header: seq<byte>, ops: seq<Op>, flushBytes: nat)
    requires flushBytes > 0 && Disciplined(header, ops, flushBytes)
    ensures var lost := |Pushed(ops)| - Flushed(ops);
      && lost == |Run(header, ops).pending|
      && lost < flushBytes + if ops != [] && ops[|ops| - 1].Push? then |ops[|ops| - 1].frame| else 0
  {
    DiskIsPrefix(header, ops);
    if ops != [] {
      DiskIsPrefix(header, ops[..|ops| - 1]);
    }
  }
}

module Recordings {
  import opened Basics
  import opened ByteFields
  import opened WavFiles

  function Join(frames: seq<seq<byte>>): seq<byte> {
    if frames == [] then [] else Join(frames[..|frames| - 1]) + frames[|frames| - 1]
  }

  /** A recording being made; `disk` is what its part file would hold after a kill. */
  class Recorder {
    const flushBytes: nat
    var disk: seq<byte>
    var written: nat
    var origin: Option<int>
    var pending: seq<seq<byte>>
    var pendingBytes: nat
    var closed: bool

    predicate Valid()
      reads this
    {
      pendingBytes == |Join(pending)| && (pending == [] <==> pendingBytes == 0)
      && (!closed ==> |disk| == HEADER_BYTES + written)
    }

    function View(): Recording
      reads this
    {
      Recording(disk, written, Join(pending), closed)
    }

    constructor (flushBytes: nat)
      ensures Valid() && View() == New(WavHeader(0)) && origin.None? && this.flushBytes == flushBytes
    {
      this.flushBytes := flushBytes;
      disk, written, origin, pending, pendingBytes, closed := WavHeader(0), 0, None, [], 0, false;
    }

    /** Holds one more frame in memory; `due` once that is at least `flushBytes`. */
    method Push(frame: seq<byte>, at: int) returns (due: bool)
      requires Valid()
      modifies this
      ensures Valid() && View() == Apply(old(View()), Op.Push(frame))
      ensures origin == if old(origin).None? && !closed && frame != [] then Some(at) else old(origin)
      ensures due <==> !closed && frame != [] && |View().pending| >= flushBytes
    {
      if closed || frame == [] {
        assert Join(pending) + frame == Join(pending) || closed;
        return false;
      }
      if origin.None? {
        origin := Some(at);
      }
      assert (pending + [frame])[..|pending|] == pending;
      pending := pending + [frame];
      pendingBytes := pendingBytes + |frame|;
      due := pendingBytes >= flushBytes;
    }

    /** Moves all held frames to the part file and counts them. */
    method Flush() returns (n: nat)
      requires Valid()
      modifies this
      ensures Valid() && View() == Apply(old(View()), Op.Flush)
      ensures n == if closed then 0 else old(pendingBytes)
    {
      if closed || pending == [] {
        assert closed || disk + [] == disk;
        return 0;
      }
      var blob := Join(pending);
      pending, pendingBytes := [], 0;
      disk := disk + blob;
      written := written + |blob|;
      n := |blob|;
    }

    /** Ends the recording: everything held reaches the part file, and the file is then what
        finalizing it gives. Sizes that do not fit the header's 32 bits leave the part with all its
        audio under the placeholder header. */
    method Close() returns (r: Closed)
      requires Valid()
      modifies this
      ensures Valid() && closed
      ensures old(closed) ==> r == Nothing && View() == old(View())
      ensures !old(closed) ==> pending == [] && written == old(written + pendingBytes) && Payload(disk) == old(Payload(disk) + Join(pending))
      ensures !old(closed) ==>
        && (r == Nothing <==> written == 0)
        && (r == HeaderOverflow <==> 36 + written > U32_MAX)
        && (r == HeaderOverflow ==> disk == old(disk + Join(pending)))
        && (r.Finished? ==> r.file == disk && SizesMatch(disk) && disk == Finalize(old(disk + Join(pending)), Whole).file)
    {
      if closed {
        return Nothing;
      }
      var _ := Flush();
      closed := true;
      if 36 + written > U32_MAX {
        return HeaderOverflow;
      }
      Seal();
      r := if written == 0 then Nothing else Finished(disk);
    }

    /** The header gets the true sizes. */
    method Seal()
      requires |disk| == HEADER_BYTES + written && 36 + written <= U32_MAX
      modifies this`disk
      ensures |disk| == |old(disk)| && Payload(disk) == old(Payload(disk))
      ensures written > 0 ==> SizesMatch(disk) && disk == Finalize(old(disk), Whole).file
    {
      if written > 0 {
        CloseIsFinalize(disk, written);
      }
      disk := WavHeader(written) + disk[HEADER_BYTES..];
    }
  }

  /** Nothing to keep, the finished file, or an error from the header. */
  datatype Closed = Nothing | Finished(file: seq<byte>) | HeaderOverflow

  lemma CloseIsFinalize(disk: seq<byte>, written: nat)
    requires written > 0 && |disk| == HEADER_BYTES + written && written + 36 <= U32_MAX
    ensures SizesMatch(WavHeader(written) + disk[HEADER_BYTES..])
    ensures Finalize(disk, Whole).file == WavHeader(written) + disk[HEADER_BYTES..]
  {
    HeaderSizes(written, disk[HEADER_BYTES..]);
  }

  // ---- recovery of a device's directory ----

  /** Finished recordings and part files of one device, by millisecond stamp. */
  datatype Directory = Directory(recordings: map<nat, seq<byte>>, parts: map<nat, seq<byte>>)

  /** The first free stamp from `stamp` on. */
  function FreeStamp(taken: set<nat>, stamp: nat): (s: nat)
    ensures s !in taken && stamp <= s && forall k :: stamp <= k < s ==> k in taken
    decreases |taken|
  {
    if stamp !in taken then stamp
    else
      var s := FreeStamp(taken - {stamp}, stamp + 1);
      assert forall k :: stamp <= k < s ==> k in taken by {
        forall k | stamp <= k < s ensures k in taken { assert k == stamp || k in taken - {stamp}; }
      }
      s
  }

  /** What the filesystem does about one part file: its size can be read, how the header write goes, and
      whether a rename and an unlink work. */
  datatype Io = Io(stats: bool, write: Rewrite, renames: bool, unlinks: bool)

  const WORKS := Io(true, Whole, true, true)

  predicate HasAudio(f: seq<byte>) { HEADER_BYTES < |f| && |f| - 8 <= U32_MAX }

  /** The sizes do not fit a header, so finalizing raises. */
  predicate Oversized(f: seq<byte>) { |f| - 8 > U32_MAX }

  /** Promote one part: rewrite its header and move it to the first free stamp, or unlink it when
      finalizing says it is not playable. */
  function RecoverPart(d: Directory, stamp: nat, io: Io): (r: Directory)
    requires stamp in d.parts
  {
    var f := if io.stats then Finalize(d.parts[stamp], io.write) else Finalized(d.parts[stamp], NoAudio);
    match f.outcome
    case TooLarge => d
    case Playable =>
      if !io.renames then d.(parts := d.parts[stamp := f.file])
      else Directory(d.recordings[FreeStamp(d.recordings.Keys, stamp) := f.file], d.parts - {stamp})
    case _ => d.(parts := if io.unlinks then d.parts - {stamp} else d.parts[stamp := f.file])
  }

  /** The directory, and whether the loop has ended in an error of the header. */
  datatype Recovery = Recovery(d: Directory, raised: bool)

  predicate Raises(d: Directory, stamp: nat, io: Io) { stamp in d.parts && io.stats && Oversized(d.parts[stamp]) }

  /** The loop over the parts, in the order the directory lists them, each with what the filesystem does
      to it. Only the filesystem's errors are caught inside. */
  function Recover(d: Directory, order: seq<(nat, Io)>): Recovery {
    if order == [] then Recovery(d, false)
    else
      var u := Recover(d, order[..|order| - 1]);
      var (stamp, io) := order[|order| - 1];
      if u.raised || stamp !in u.d.parts then u
      else Recovery(RecoverPart(u.d, stamp, io), Raises(u.d, stamp, io))
  }

  /** A finished recording is never overwritten, and a part file not listed is not touched. */
  lemma {:induction false} RecoverKeeps(d: Directory, order: seq<(nat, Io)>)
    ensures var u := Recover(d, order).d;
      && (forall k :: k in d.recordings ==> k in u.recordings && u.recordings[k] == d.recordings[k])
      && (forall k :: k in d.parts && (forall i :: 0 <= i < |order| ==> order[i].0 != k) ==> k in u.parts && u.parts[k] == d.parts[k])
      && u.parts.Keys <= d.parts.Keys
  {
    if order != [] {
      RecoverKeeps(d, order[..|order| - 1]);
    }
  }

  /** A file with this payload is among the recordings, with true sizes. */
  ghost predicate Recovered(recordings: map<nat, seq<byte>>, f: seq<byte>) {
    exists s :: s in recordings && SizesMatch(recordings[s]) && Payload(recordings[s]) == Payload(f)
  }

  /** One part file: it becomes a recording of its own exactly when its size was read and the header
      write and the rename worked. When only the rename failed the part is still there, finalized;
      otherwise the source takes it for one without audio and unlinks it. */
  lemma PartIsRecovered(d: Directory, stamp: nat, io: Io)
    requires stamp in d.parts && HasAudio(d.parts[stamp])
    ensures var u, part := RecoverPart(d, stamp, io), d.parts[stamp];
      if io.stats && io.write.Whole? then
        if io.renames then Recovered(u.recordings, part) && stamp !in u.parts && |u.recordings| == |d.recordings| + 1
        else u.recordings == d.recordings && stamp in u.parts && SizesMatch(u.parts[stamp]) && Payload(u.parts[stamp]) == Payload(part)
      else
        && u.recordings == d.recordings
        && if io.unlinks then stamp !in u.parts else stamp in u.parts && Payload(u.parts[stamp]) == Payload(part)
  {
    FinalizeIsRecovery(d.parts[stamp], 0);
    if io.stats && io.write.Whole? && io.renames {
      PartJoins(d, stamp, io);
    }
  }

  /** Some listed part is too large for its header. */
  predicate Stops(parts: map<nat, seq<byte>>, stamps: seq<nat>) {
    exists i :: 0 <= i < |stamps| && stamps[i] in parts && Oversized(parts[stamps[i]])
  }

  /** The listed parts with audio, up to the first that is too large. */
  function Audible(parts: map<nat, seq<byte>>, stamps: seq<nat>): seq<nat>
    requires forall i :: 0 <= i < |stamps| ==> stamps[i] in parts
  {
    if stamps == [] then []
    else
      var n := |stamps| - 1;
      var before := Audible(parts, stamps[..n]);
      if Stops(parts, stamps[..n]) || !HasAudio(parts[stamps[n]]) then before else before + [stamps[n]]
  }

  lemma {:induction false} AudibleIs(parts: map<nat, seq<byte>>, stamps: seq<nat>, i: nat)
    requires forall k :: 0 <= k < |stamps| ==> stamps[k] in parts
    requires i < |stamps| && !Stops(parts, stamps[..i]) && HasAudio(parts[stamps[i]])
    ensures stamps[i] in Audible(parts, stamps)
  {
    var n := |stamps| - 1;
    if i < n {
      assert stamps[..n][..i] == stamps[..i];
      AudibleIs(parts, stamps[..n], i);
    }
  }

  ghost predicate AllIn(recordings: map<nat, seq<byte>>, parts: map<nat, seq<byte>>, stamps: seq<nat>) {
    forall i :: 0 <= i < |stamps| ==> stamps[i] in parts && Recovered(recordings, parts[stamps[i]])
  }

  /** Recovering a whole directory on a working filesystem: the loop ends in an error if and only if a part
      is too large, and every part with audio that comes before the first such, whatever other parts
      there are, becomes a recording of its own. */
  lemma {:induction false} AllAudioRecovered(d: Directory, stamps: seq<nat>)
    requires forall i :: 0 <= i < |stamps| ==> stamps[i] in d.parts
    requires forall i, j :: 0 <= i < j < |stamps| ==> stamps[i] != stamps[j]
    ensures AllRecovered(d, stamps, Recover(d, Working(stamps)))
  {
    if stamps != [] {
      var n := |stamps| - 1;
      AllAudioRecovered(d, stamps[..n]);
      RecoverKeeps(d, Working(stamps[..n]));
      assert Working(stamps)[..n] == Working(stamps[..n]);
      NotListed(stamps, n);
      OneMoreRecovered(d, stamps, n, Recover(d, Working(stamps[..n])));
    }
  }

  ghost predicate AllRecovered(d: Directory, stamps: seq<nat>, u: Recovery)
    requires forall i :: 0 <= i < |stamps| ==> stamps[i] in d.parts
  {
    && (u.raised <==> Stops(d.parts, stamps))
    && |u.d.recordings| == |d.recordings| + |Audible(d.parts, stamps)|
    && AllIn(u.d.recordings, d.parts, Audible(d.parts, stamps))
  }

  lemma {:induction false} OneMoreRecovered(d: Directory, stamps: seq<nat>, n: nat, u: Recovery)
    requires |stamps| == n + 1 && forall i :: 0 <= i < |stamps| ==> stamps[i] in d.parts
    requires AllRecovered(d, stamps[..n], u) && stamps[n] in u.d.parts && u.d.parts[stamps[n]] == d.parts[stamps[n]]
    ensures AllRecovered(d, stamps,
      if u.raised then u else Recovery(RecoverPart(u.d, stamps[n], WORKS), Raises(u.d, stamps[n], WORKS)))
  {
    OneMoreListed(d.parts, stamps, n);
    if !u.raised {
      NextPart(d, u.d, stamps[n], Audible(d.parts, stamps[..n]));
    }
  }

  /** So each part with audio is recovered, unless one before it in the listing is too large. */
  lemma EachPartRecovered(d: Directory, stamps: seq<nat>, i: nat)
    requires forall k :: 0 <= k < |stamps| ==> stamps[k] in d.parts
    requires forall j, k :: 0 <= j < k < |stamps| ==> stamps[j] != stamps[k]
    requires i < |stamps| && HasAudio(d.parts[stamps[i]]) && !Stops(d.parts, stamps[..i])
    ensures Recovered(Recover(d, Working(stamps)).d.recordings, d.parts[stamps[i]])
  {
    AllAudioRecovered(d, stamps);
    AudibleIs(d.parts, stamps, i);
    var k :| 0 <= k < |Audible(d.parts, stamps)| && Audible(d.parts, stamps)[k] == stamps[i];
  }

  lemma {:induction false} OneMoreListed(parts: map<nat, seq<byte>>, stamps: seq<nat>, n: nat)
    requires |stamps| == n + 1 && stamps[n] in parts
    ensures Stops(parts, stamps) <==> Stops(parts, stamps[..n]) || Oversized(parts[stamps[n]])
  {
    if Stops(parts, stamps[..n]) {
      var i :| 0 <= i < n && stamps[..n][i] in parts && Oversized(parts[stamps[..n][i]]);
      assert stamps[i] == stamps[..n][i];
    }
    if Stops(parts, stamps) && !Oversized(parts[stamps[n]]) {
      var i :| 0 <= i <= n && stamps[i] in parts && Oversized(parts[stamps[i]]);
      assert stamps[..n][i] == stamps[i];
    }
  }

  lemma NotListed(stamps: seq<nat>, n: nat)
    requires n < |stamps| && forall i, j :: 0 <= i < j < |stamps| ==> stamps[i] != stamps[j]
    ensures forall i :: 0 <= i < |Working(stamps[..n])| ==> Working(stamps[..n])[i].0 != stamps[n]
  {
  }

  lemma {:induction false} NextPart(d: Directory, u: Directory, stamp: nat, before: seq<nat>)
    requires stamp in d.parts && stamp in u.parts && u.parts[stamp] == d.parts[stamp] && AllIn(u.recordings, d.parts, before)
    ensures var v, now := RecoverPart(u, stamp, WORKS), if HasAudio(d.parts[stamp]) then before + [stamp] else before;
      |v.recordings| == |u.recordings| + |now| - |before| && AllIn(v.recordings, d.parts, now)
  {
    if HasAudio(d.parts[stamp]) {
      PartJoins(u, stamp, WORKS);
    }
  }

  function Working(stamps: seq<nat>): seq<(nat, Io)> {
    seq(|stamps|, i requires 0 <= i < |stamps| => (stamps[i], WORKS))
  }

  /** A recovered part joins the recordings under a stamp of its own. */
  lemma PartJoins(u: Directory, stamp: nat, io: Io)
    requires stamp in u.parts && HasAudio(u.parts[stamp]) && io.stats && io.write.Whole? && io.renames
    ensures var v := RecoverPart(u, stamp, io);
      && Recovered(v.recordings, u.parts[stamp]) && |v.recordings| == |u.recordings| + 1
      && forall f :: Recovered(u.recordings, f) ==> Recovered(v.recordings, f)
  {
    var free, v := FreeStamp(u.recordings.Keys, stamp), RecoverPart(u, stamp, io);
    FinalizeIsRecovery(u.parts[stamp], 0);
    assert v.recordings == u.recordings[free := Finalize(u.parts[stamp], Whole).file];
    assert v.recordings[free] == Finalize(u.parts[stamp], Whole).file;
    forall f | Recovered(u.recordings, f)
      ensures Recovered(v.recordings, f)
    {
      var s :| s in u.recordings && SizesMatch(u.recordings[s]) && Payload(u.recordings[s]) == Payload(f);
      assert v.recordings[s] == u.recordings[s];
    }
  }
}
