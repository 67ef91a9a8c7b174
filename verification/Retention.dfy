/** What one subscription keeps of its streams (controller/em_audio_timeline.py, `SubscriptionBuffer`):
    the open utterance and the seconds before it that its readers need. */
module RetentionSpec {
  import opened Basics
  import opened Intervals
  import opened RingSpec
  import R = ReferenceSpec
  import opened Records
  import V = VadTracks
  import Slots

  const UPLINK_RATE := 16_000
  const ROLLING_SAMPLES := 10 * UPLINK_RATE
  const UTTERANCE_MAX_SAMPLES := 30 * UPLINK_RATE
  const PCM_CAPACITY := UTTERANCE_MAX_SAMPLES + ROLLING_SAMPLES
  const REFERENCE_EXTRA := 40_000
  const CELL_CAPACITY := (PCM_CAPACITY + ROLLING_SAMPLES) / CELL_SAMPLES
  const AFE_CAPACITY := Ceil(PCM_CAPACITY + REFERENCE_EXTRA, AFE_PERIOD_SAMPLES) + 1
  const VAD_CAPACITY := Ceil(PCM_CAPACITY + REFERENCE_EXTRA, CELL_SAMPLES) + 1

  /** First samples the subscription asked for, per stream. */
  datatype Starts = Starts(mic: Option<int>, cells: Option<int>, afe: Option<int>)

  /** Cell records, AFE records and probabilities are opaque: C, A and P. */
  datatype Buffer<C, A, P> = Buffer(
    mic: View<int>, cells: View<C>, reference: R.Reference, afe: View<A>, vad: View<P>, anchor: Option<int>)

  datatype Op<C, A, P> =
    | MicOp(first: int, pcm: seq<int>)
    | MutedOp(end: int)
    | CellsOp(first: int, records: seq<C>)
    | AfeOp(first: int, rows: seq<A>)
    | ReferenceOp(epoch: int, first: int, data: seq<int>)
    | VadOp(first: int, probabilities: seq<P>)
    | AnchorOp(at: Option<int>)

  function TrimBefore<C, A, P>(b: Buffer<C, A, P>, sample: int): Buffer<C, A, P> {
    var mic := Trim(b.mic, sample);
    var lead := Max(0, sample - REFERENCE_EXTRA);
    b.(mic := mic,
      afe := Trim(b.afe, lead / AFE_PERIOD_SAMPLES), vad := Trim(b.vad, lead / CELL_SAMPLES),
      cells := Trim(b.cells, Max(0, sample - ROLLING_SAMPLES) / CELL_SAMPLES),
      reference := if mic.frontier.None? then b.reference
        else R.TrimTo(b.reference, Min(PCM_CAPACITY, mic.frontier.value - mic.floor + REFERENCE_EXTRA)))
  }

  function Retain<C, A, P>(b: Buffer<C, A, P>): Buffer<C, A, P> {
    if b.mic.frontier.None? then b
    else
      var anchor := if b.anchor.None? then b.mic.frontier.value else b.anchor.value;
      TrimBefore(b, Max(0, anchor - ROLLING_SAMPLES))
  }

  /** What a packet holds from `start` on, records of `grid` samples that begin before it left out: the
      first record's place and the records, unless none is left. */
  function Taken<T>(start: Option<int>, first: int, data: seq<T>, grid: int): Option<(int, seq<T>)>
    requires grid > 0
  {
    if start.None? || first >= start.value then Some((first / grid, data))
    else
      var skip := Ceil(start.value - first, grid);
      if skip >= |data| then None else Some(((first + skip * grid) / grid, data[skip..]))
  }

  function Apply<C, A, P>(starts: Starts, b: Buffer<C, A, P>, op: Op<C, A, P>): Buffer<C, A, P> {
    match op
    case MicOp(first, pcm) =>
      (match Taken(starts.mic, first, pcm, 1)
       case None => b
       case Some((x, part)) => Retain(b.(mic := Write(b.mic, PCM_CAPACITY, x, part))))
    case MutedOp(end) => Retain(b.(mic := Mute(b.mic, PCM_CAPACITY, end)))
    case CellsOp(first, records) =>
      (match Taken(starts.cells, first, records, CELL_SAMPLES)
       case None => b
       case Some((k, part)) => Retain(b.(cells := Write(b.cells, CELL_CAPACITY, k, part))))
    case AfeOp(first, rows) =>
      (match Taken(starts.afe, first, rows, AFE_PERIOD_SAMPLES)
       case None => b
       case Some((k, part)) => Retain(b.(afe := Write(b.afe, AFE_CAPACITY, k, part))))
    case ReferenceOp(epoch, first, data) => Retain(b.(reference := R.WriteEpoch(b.reference, PCM_CAPACITY, epoch, first, data)))
    case VadOp(first, probabilities) => b.(vad := V.Note(b.vad, VAD_CAPACITY, first / CELL_SAMPLES, probabilities))
    case AnchorOp(at) => Retain(b.(anchor := at))
  }

  function RunFrom<C, A, P>(starts: Starts, b: Buffer<C, A, P>, ops: seq<Op<C, A, P>>): Buffer<C, A, P> {
    if ops == [] then b else Apply(starts, RunFrom(starts, b, ops[..|ops| - 1]), ops[|ops| - 1])
  }

  function Fresh<C, A, P>(): Buffer<C, A, P> {
    Buffer(Empty(), Empty(), R.Reference(Empty(), []), Empty(), Empty(), None)
  }

  // ---- nothing from before the subscription's start ----

  /** Where record i of a stream begins. */
  function Begins(i: int, grid: int): int { i * grid }

  lemma LaterBegins(i: int, j: int, grid: int)
    requires i <= j && 0 < grid
    ensures Begins(i, grid) <= Begins(j, grid)
  {
    assert (j - i) * grid >= 0;
    assert j * grid == i * grid + (j - i) * grid;
  }

  ghost predicate StartsAt<T>(v: View<T>, start: Option<int>, grid: int) {
    start.Some? ==> forall i :: i in v.values ==> start.value <= Begins(i, grid)
  }

  lemma WriteStartsAt<T>(v: View<T>, capacity: int, first: int, data: seq<T>, start: Option<int>, grid: int)
    requires StartsAt(v, start, grid) && grid > 0 && (start.Some? ==> start.value <= Begins(first, grid))
    ensures StartsAt(Write(v, capacity, first, data), start, grid)
  {
    forall i | start.Some? && i in Write(v, capacity, first, data).values
      ensures start.value <= Begins(i, grid)
    {
      if i !in v.values {
        LaterBegins(first, i, grid);
      }
    }
  }

  /** A packet starts on its stream's grid, or it is not accepted. */
  predicate Aligned<C, A, P>(op: Op<C, A, P>) {
    match op
    case CellsOp(first, _) => first % CELL_SAMPLES == 0
    case AfeOp(first, _) => first % AFE_PERIOD_SAMPLES == 0
    case _ => true
  }

  ghost predicate AllStartAt<C, A, P>(b: Buffer<C, A, P>, starts: Starts) {
    StartsAt(b.mic, starts.mic, 1) && StartsAt(b.cells, starts.cells, CELL_SAMPLES) && StartsAt(b.afe, starts.afe, AFE_PERIOD_SAMPLES)
  }

  lemma RetainStartsAt<C, A, P>(b: Buffer<C, A, P>, starts: Starts)
    requires AllStartAt(b, starts)
    ensures AllStartAt(Retain(b), starts)
  {
  }

  lemma OnGrid(first: int, skip: int, grid: int)
    requires grid > 0 && first % grid == 0
    ensures (first + skip * grid) / grid * grid == first + skip * grid
  {
    var q, x := first / grid, first + skip * grid;
    assert x == grid * (q + skip) + 0 by {
      assert first == grid * q;
    }
    Slots.ModIs(x, grid, q + skip, 0);
  }

  lemma TakenIsPast<T>(start: Option<int>, first: int, data: seq<T>, grid: int)
    requires grid > 0 && first % grid == 0
    ensures Taken(start, first, data, grid).Some? && start.Some? ==> start.value <= Begins(Taken(start, first, data, grid).value.0, grid)
  {
    if start.Some? && first < start.value {
      OnGrid(first, Ceil(start.value - first, grid), grid);
    } else {
      OnGrid(first, 0, grid);
    }
  }

  lemma ApplyStartsAt<C, A, P>(starts: Starts, b: Buffer<C, A, P>, op: Op<C, A, P>)
    requires AllStartAt(b, starts) && Aligned(op)
    ensures AllStartAt(Apply(starts, b, op), starts)
  {
    match op
    case MicOp(first, pcm) =>
      TakenIsPast(starts.mic, first, pcm, 1);
      match Taken(starts.mic, first, pcm, 1) {
        case None =>
        case Some((x, part)) => WriteStartsAt(b.mic, PCM_CAPACITY, x, part, starts.mic, 1);
      }
    case CellsOp(first, records) =>
      TakenIsPast(starts.cells, first, records, CELL_SAMPLES);
      match Taken(starts.cells, first, records, CELL_SAMPLES) {
        case None =>
        case Some((k, part)) => WriteStartsAt(b.cells, CELL_CAPACITY, k, part, starts.cells, CELL_SAMPLES);
      }
    case AfeOp(first, rows) =>
      TakenIsPast(starts.afe, first, rows, AFE_PERIOD_SAMPLES);
      match Taken(starts.afe, first, rows, AFE_PERIOD_SAMPLES) {
        case None =>
        case Some((k, part)) => WriteStartsAt(b.afe, AFE_CAPACITY, k, part, starts.afe, AFE_PERIOD_SAMPLES);
      }
    case MutedOp(end) => RetainStartsAt(b.(mic := Mute(b.mic, PCM_CAPACITY, end)), starts);
    case ReferenceOp(epoch, first, data) =>
      RetainStartsAt(b.(reference := R.WriteEpoch(b.reference, PCM_CAPACITY, epoch, first, data)), starts);
    case VadOp(_, _) =>
    case AnchorOp(at) => RetainStartsAt(b.(anchor := at), starts);
  }

  /** No stored mic sample, cell or AFE record begins before what the subscription asked for. */
  lemma {:induction false} NothingPrecedesTheStart<C, A, P>(starts: Starts, ops: seq<Op<C, A, P>>)
    requires forall i :: 0 <= i < |ops| ==> Aligned(ops[i])
    ensures AllStartAt(RunFrom(starts, Fresh<C, A, P>(), ops), starts)
  {
    if ops != [] {
      NothingPrecedesTheStart(starts, ops[..|ops| - 1]);
      ApplyStartsAt(starts, RunFrom(starts, Fresh<C, A, P>(), ops[..|ops| - 1]), ops[|ops| - 1]);
    }
  }

  // ---- what an open utterance keeps ----

  /** Every view's contents lie in its ring. */
  predicate Sound<C, A, P>(b: Buffer<C, A, P>) {
    Bounded(b.mic, PCM_CAPACITY) && Bounded(b.cells, CELL_CAPACITY) && Bounded(b.afe, AFE_CAPACITY) && Bounded(b.vad, VAD_CAPACITY)
  }

  lemma RetainSound<C, A, P>(b: Buffer<C, A, P>)
    requires Sound(b)
    ensures Sound(Retain(b))
  {
  }

  lemma WriteSound<T>(v: View<T>, capacity: int, first: int, data: seq<T>)
    requires capacity > 0 && Bounded(v, capacity)
    ensures Bounded(Write(v, capacity, first, data), capacity)
  {
  }

  lemma NoteSound<P>(v: View<P>, j0: int, data: seq<P>)
    requires Bounded(v, VAD_CAPACITY)
    ensures Bounded(V.Note(v, VAD_CAPACITY, j0, data), VAD_CAPACITY)
  {
  }

  lemma ApplySound<C, A, P>(starts: Starts, b: Buffer<C, A, P>, op: Op<C, A, P>)
    requires Sound(b)
    ensures Sound(Apply(starts, b, op))
  {
    match op
    case MicOp(first, pcm) =>
      match Taken(starts.mic, first, pcm, 1) {
        case None =>
        case Some((x, part)) =>
          WriteSound(b.mic, PCM_CAPACITY, x, part);
          RetainSound(b.(mic := Write(b.mic, PCM_CAPACITY, x, part)));
      }
    case MutedOp(end) => RetainSound(b.(mic := Mute(b.mic, PCM_CAPACITY, end)));
    case CellsOp(first, records) =>
      match Taken(starts.cells, first, records, CELL_SAMPLES) {
        case None =>
        case Some((k, part)) =>
          WriteSound(b.cells, CELL_CAPACITY, k, part);
          RetainSound(b.(cells := Write(b.cells, CELL_CAPACITY, k, part)));
      }
    case AfeOp(first, rows) =>
      match Taken(starts.afe, first, rows, AFE_PERIOD_SAMPLES) {
        case None =>
        case Some((k, part)) =>
          WriteSound(b.afe, AFE_CAPACITY, k, part);
          RetainSound(b.(afe := Write(b.afe, AFE_CAPACITY, k, part)));
      }
    case ReferenceOp(epoch, first, data) => RetainSound(b.(reference := R.WriteEpoch(b.reference, PCM_CAPACITY, epoch, first, data)));
    case VadOp(first, probabilities) => NoteSound(b.vad, first / CELL_SAMPLES, probabilities);
    case AnchorOp(at) => RetainSound(b.(anchor := at));
  }

  /** The index is still there, with its value. */
  predicate Holds<T(==)>(v: View<T>, u: View<T>, i: int) {
    i in v.values ==> i in u.values && u.values[i] == v.values[i]
  }

  predicate Reaches<T>(v: View<T>, end: int) { v.frontier.None? || v.frontier.value <= end }

  lemma WriteHolds<T>(v: View<T>, capacity: int, first: int, data: seq<T>, i: int)
    requires capacity > 0 && Bounded(v, capacity) && Reaches(Write(v, capacity, first, data), i + capacity)
    ensures Holds(v, Write(v, capacity, first, data), i)
    ensures forall end :: Reaches(Write(v, capacity, first, data), end) ==> Reaches(v, end)
  {
  }

  lemma MuteHolds<T>(v: View<T>, capacity: int, to: int, i: int)
    requires capacity > 0 && Bounded(v, capacity) && Reaches(Mute(v, capacity, to), i + capacity)
    ensures Holds(v, Mute(v, capacity, to), i)
    ensures forall end :: Reaches(Mute(v, capacity, to), end) ==> Reaches(v, end)
  {
  }

  /** The last sample of an utterance opened at u, in records of `grid` samples. */
  function End(u: int, grid: int): int
    requires grid > 0
  {
    Ceil(u + UTTERANCE_MAX_SAMPLES, grid)
  }

  /** No stream has run past the utterance's thirty seconds. */
  predicate Within<C, A, P>(b: Buffer<C, A, P>, u: int) {
    && Reaches(b.mic, u + UTTERANCE_MAX_SAMPLES) && Reaches(b.afe, End(u, AFE_PERIOD_SAMPLES))
    && Reaches(b.vad, End(u, CELL_SAMPLES)) && Reaches(b.cells, End(u, CELL_SAMPLES))
  }

  predicate Later<T>(v: View<T>, u: View<T>) { v.frontier.Some? ==> u.frontier.Some? && v.frontier.value <= u.frontier.value }

  ghost predicate RunsOn<C, A, P>(b: Buffer<C, A, P>, v: Buffer<C, A, P>) {
    Later(b.mic, v.mic) && Later(b.afe, v.afe) && Later(b.vad, v.vad) && Later(b.cells, v.cells)
  }

  lemma RetainRunsOn<C, A, P>(b: Buffer<C, A, P>)
    ensures RunsOn(b, Retain(b)) && Retain(b).anchor == b.anchor
  {
  }

  lemma WriteLater<T>(v: View<T>, capacity: int, first: int, data: seq<T>)
    ensures Later(v, Write(v, capacity, first, data))
  {
  }

  /** Streams only run on, and only AnchorOp moves the anchor. */
  lemma StreamsRunOn<C, A, P>(starts: Starts, b: Buffer<C, A, P>, op: Op<C, A, P>)
    requires !op.AnchorOp?
    ensures Apply(starts, b, op).anchor == b.anchor && RunsOn(b, Apply(starts, b, op))
  {
    match op
    case MicOp(first, pcm) =>
      match Taken(starts.mic, first, pcm, 1) {
        case None =>
        case Some((x, part)) =>
          WriteLater(b.mic, PCM_CAPACITY, x, part);
          RetainRunsOn(b.(mic := Write(b.mic, PCM_CAPACITY, x, part)));
      }
    case MutedOp(end) => RetainRunsOn(b.(mic := Mute(b.mic, PCM_CAPACITY, end)));
    case CellsOp(first, records) =>
      match Taken(starts.cells, first, records, CELL_SAMPLES) {
        case None =>
        case Some((k, part)) =>
          WriteLater(b.cells, CELL_CAPACITY, k, part);
          RetainRunsOn(b.(cells := Write(b.cells, CELL_CAPACITY, k, part)));
      }
    case AfeOp(first, rows) =>
      match Taken(starts.afe, first, rows, AFE_PERIOD_SAMPLES) {
        case None =>
        case Some((k, part)) =>
          WriteLater(b.afe, AFE_CAPACITY, k, part);
          RetainRunsOn(b.(afe := Write(b.afe, AFE_CAPACITY, k, part)));
      }
    case ReferenceOp(epoch, first, data) => RetainRunsOn(b.(reference := R.WriteEpoch(b.reference, PCM_CAPACITY, epoch, first, data)));
    case VadOp(first, probabilities) =>
  }

  // What retention and a full ring leave of each stream, while the utterance from u is open.

  predicate MicKept(u: int, x: int) { Max(0, u - ROLLING_SAMPLES) <= x }

  predicate RecordKept(u: int, grid: int, k: int) { Max(0, u - ROLLING_SAMPLES - REFERENCE_EXTRA) < (k + 1) * grid }

  predicate CellKept(u: int, c: int) { Max(0, u - 2 * ROLLING_SAMPLES) < (c + 1) * CELL_SAMPLES && End(u, CELL_SAMPLES) - CELL_CAPACITY <= c }

  lemma RecordFits(u: int, k: int)
    requires 0 <= u
    ensures RecordKept(u, AFE_PERIOD_SAMPLES, k) ==> End(u, AFE_PERIOD_SAMPLES) - AFE_CAPACITY <= k
    ensures RecordKept(u, CELL_SAMPLES, k) ==> End(u, CELL_SAMPLES) - VAD_CAPACITY <= k
  {
  }

  lemma {:induction false} RetainKeepsMic<C, A, P>(b: Buffer<C, A, P>, u: int, x: int)
    requires b.anchor == Some(u) && MicKept(u, x)
    ensures Holds(b.mic, Retain(b).mic, x) && Retain(b).mic.frontier == b.mic.frontier
  {
  }

  lemma {:induction false} MicStep<C, A, P>(starts: Starts, b: Buffer<C, A, P>, op: Op<C, A, P>, u: int, x: int)
    requires Sound(b) && b.anchor == Some(u) && !op.AnchorOp? && Reaches(Apply(starts, b, op).mic, u + UTTERANCE_MAX_SAMPLES)
    requires MicKept(u, x)
    ensures Holds(b.mic, Apply(starts, b, op).mic, x)
  {
    match op
    case MicOp(first, pcm) =>
      match Taken(starts.mic, first, pcm, 1) {
        case None =>
        case Some((y, part)) =>
          RetainKeepsMic(b.(mic := Write(b.mic, PCM_CAPACITY, y, part)), u, x);
          WriteHolds(b.mic, PCM_CAPACITY, y, part, x);
      }
    case MutedOp(end) =>
      RetainKeepsMic(b.(mic := Mute(b.mic, PCM_CAPACITY, end)), u, x);
      MuteHolds(b.mic, PCM_CAPACITY, end, x);
    case CellsOp(first, records) =>
      match Taken(starts.cells, first, records, CELL_SAMPLES) {
        case None =>
        case Some((k, part)) => RetainKeepsMic(b.(cells := Write(b.cells, CELL_CAPACITY, k, part)), u, x);
      }
    case AfeOp(first, rows) =>
      match Taken(starts.afe, first, rows, AFE_PERIOD_SAMPLES) {
        case None =>
        case Some((k, part)) => RetainKeepsMic(b.(afe := Write(b.afe, AFE_CAPACITY, k, part)), u, x);
      }
    case ReferenceOp(epoch, first, data) =>
      RetainKeepsMic(b.(reference := R.WriteEpoch(b.reference, PCM_CAPACITY, epoch, first, data)), u, x);
    case VadOp(_, _) =>
  }

  lemma {:induction false} AfeStep<C, A, P>(starts: Starts, b: Buffer<C, A, P>, op: Op<C, A, P>, u: int, k: int)
    requires Sound(b) && b.anchor == Some(u) && !op.AnchorOp? && Reaches(Apply(starts, b, op).afe, End(u, AFE_PERIOD_SAMPLES))
    requires 0 <= u && RecordKept(u, AFE_PERIOD_SAMPLES, k)
    ensures Holds(b.afe, Apply(starts, b, op).afe, k)
  {
    RecordFits(u, k);
    if op.AfeOp? {
      match Taken(starts.afe, op.first, op.rows, AFE_PERIOD_SAMPLES) {
        case None =>
        case Some((y, part)) => WriteHolds(b.afe, AFE_CAPACITY, y, part, k);
      }
    }
  }

  lemma {:induction false} CellsStep<C, A, P>(starts: Starts, b: Buffer<C, A, P>, op: Op<C, A, P>, u: int, c: int)
    requires Sound(b) && b.anchor == Some(u) && !op.AnchorOp? && Reaches(Apply(starts, b, op).cells, End(u, CELL_SAMPLES))
    requires CellKept(u, c)
    ensures Holds(b.cells, Apply(starts, b, op).cells, c)
  {
    if op.CellsOp? {
      match Taken(starts.cells, op.first, op.records, CELL_SAMPLES) {
        case None =>
        case Some((y, part)) => WriteHolds(b.cells, CELL_CAPACITY, y, part, c);
      }
    }
  }

  /** A probability may be replaced by a newer one, but not lost. */
  lemma {:induction false} VadStep<C, A, P>(starts: Starts, b: Buffer<C, A, P>, op: Op<C, A, P>, u: int, j: int)
    requires Sound(b) && b.anchor == Some(u) && !op.AnchorOp? && Reaches(Apply(starts, b, op).vad, End(u, CELL_SAMPLES))
    requires 0 <= u && RecordKept(u, CELL_SAMPLES, j) && j in b.vad.values
    ensures j in Apply(starts, b, op).vad.values
  {
    RecordFits(u, j);
  }

  // ---- whole runs ----

  predicate Anchored<C, A, P>(ops: seq<Op<C, A, P>>) { forall i :: 0 <= i < |ops| ==> !ops[i].AnchorOp? }

  lemma {:induction false} RunStays<C, A, P>(starts: Starts, b: Buffer<C, A, P>, ops: seq<Op<C, A, P>>)
    requires Sound(b) && Anchored(ops)
    ensures Sound(RunFrom(starts, b, ops)) && RunFrom(starts, b, ops).anchor == b.anchor
  {
    if ops != [] {
      RunStays(starts, b, ops[..|ops| - 1]);
      ApplySound(starts, RunFrom(starts, b, ops[..|ops| - 1]), ops[|ops| - 1]);
      StreamsRunOn(starts, RunFrom(starts, b, ops[..|ops| - 1]), ops[|ops| - 1]);
    }
  }

  /** Every state a subscription's buffer can reach meets what that promise asks. */
  lemma {:induction false} EveryRunIsSound<C, A, P>(starts: Starts, ops: seq<Op<C, A, P>>)
    ensures Sound(RunFrom(starts, Fresh<C, A, P>(), ops))
  {
    if ops != [] {
      EveryRunIsSound(starts, ops[..|ops| - 1]);
      ApplySound(starts, RunFrom(starts, Fresh<C, A, P>(), ops[..|ops| - 1]), ops[|ops| - 1]);
    }
  }

  /** The utterance's promise. While no stream has run past u's thirty seconds, whatever is stored keeps
      every mic sample from ten seconds before u on, every AFE record that reaches past 12.5 seconds before
      u, a probability for every cell that does if it had one, and the cells of CellKept. */
  lemma {:induction false} UtteranceIsKept<C, A, P>(starts: Starts, b: Buffer<C, A, P>, ops: seq<Op<C, A, P>>, u: int, i: int)
    requires Sound(b) && b.anchor == Some(u) && 0 <= u && Anchored(ops) && Within(RunFrom(starts, b, ops), u)
    ensures MicKept(u, i) ==> Holds(b.mic, RunFrom(starts, b, ops).mic, i)
    ensures RecordKept(u, AFE_PERIOD_SAMPLES, i) ==> Holds(b.afe, RunFrom(starts, b, ops).afe, i)
    ensures RecordKept(u, CELL_SAMPLES, i) && i in b.vad.values ==> i in RunFrom(starts, b, ops).vad.values
    ensures CellKept(u, i) ==> Holds(b.cells, RunFrom(starts, b, ops).cells, i)
  {
    if ops != [] {
      var front, op := RunFrom(starts, b, ops[..|ops| - 1]), ops[|ops| - 1];
      RunStays(starts, b, ops[..|ops| - 1]);
      StreamsRunOn(starts, front, op);
      UtteranceIsKept(starts, b, ops[..|ops| - 1], u, i);
      if MicKept(u, i) {
        MicStep(starts, front, op, u, i);
      }
      if RecordKept(u, AFE_PERIOD_SAMPLES, i) {
        AfeStep(starts, front, op, u, i);
      }
      if RecordKept(u, CELL_SAMPLES, i) && i in front.vad.values {
        VadStep(starts, front, op, u, i);
      }
      if CellKept(u, i) {
        CellsStep(starts, front, op, u, i);
      }
    }
  }

  // ---- exactly what the capacities keep ----

  /** A write drops a held index if and only if its frontier leaves the index more than a ring behind. */
  lemma WriteDropsIff<T>(v: View<T>, capacity: int, first: int, data: seq<T>, i: int)
    requires capacity > 0 && Bounded(v, capacity) && i in v.values && v.floor < first + |data|
    ensures var w := Write(v, capacity, first, data); w.frontier.Some? && (i in w.values <==> w.frontier.value - capacity <= i)
  {
  }

  /** A ring of AFE records keeps every promised record of every utterance if and only if it has at least
      the source's capacity. */
  lemma AfeCapacityIff(capacity: int)
    ensures AFE_CAPACITY <= capacity <==>
      forall u: int, k: int :: 0 <= u && RecordKept(u, AFE_PERIOD_SAMPLES, k) ==> End(u, AFE_PERIOD_SAMPLES) - capacity <= k
  {
    if AFE_CAPACITY <= capacity {
      forall u: int, k: int | 0 <= u && RecordKept(u, AFE_PERIOD_SAMPLES, k)
        ensures End(u, AFE_PERIOD_SAMPLES) - capacity <= k
      {
        RecordFits(u, k);
      }
    } else {
      assert RecordKept(201_279, AFE_PERIOD_SAMPLES, 0) && End(201_279, AFE_PERIOD_SAMPLES) - capacity > 0;
    }
  }

  /** With one place less a ring loses a promised record: one that it holds, to a record within the
      utterance's thirty seconds. */
  lemma CapacityIsTight<A>(a: A) returns (u: int, k: int, v: View<A>)
    ensures 0 <= u && RecordKept(u, AFE_PERIOD_SAMPLES, k) && Bounded(v, AFE_CAPACITY - 1) && k in v.values
    ensures var w := Write(v, AFE_CAPACITY - 1, End(u, AFE_PERIOD_SAMPLES) - 1, [a]);
      Reaches(w, End(u, AFE_PERIOD_SAMPLES)) && k !in w.values
  {
    u, k, v := 201_279, 0, View(0, Some(1), map[0 := a]);
    assert End(u, AFE_PERIOD_SAMPLES) == AFE_CAPACITY;
  }

  /** The cell ring has no place to spare: a cell it holds that lies more than a ring before the utterance's
      end is lost to one packet of cells within those thirty seconds. */
  lemma CellsLost<C, A, P>(starts: Starts, b: Buffer<C, A, P>, u: int, c: int, x: C)
    requires Sound(b) && b.anchor == Some(u) && Within(b, u) && c in b.cells.values && c < End(u, CELL_SAMPLES) - CELL_CAPACITY
    requires starts.cells.Some? ==> starts.cells.value <= (End(u, CELL_SAMPLES) - 1) * CELL_SAMPLES
    ensures var v := Apply(starts, b, CellsOp((End(u, CELL_SAMPLES) - 1) * CELL_SAMPLES, [x]));
      Within(v, u) && v.anchor == Some(u) && c !in v.cells.values
  {
    var last := End(u, CELL_SAMPLES) - 1;
    assert last * CELL_SAMPLES / CELL_SAMPLES == last;
    assert Taken(starts.cells, last * CELL_SAMPLES, [x], CELL_SAMPLES) == Some((last, [x]));
    var cells := Write(b.cells, CELL_CAPACITY, last, [x]);
    WriteDropsIff(b.cells, CELL_CAPACITY, last, [x], c);
    RetainRunsOn(b.(cells := cells));
  }

  /** A run of the utterance, if it is one from a buffer that holds cell c, still holds it at the end. */
  predicate KeepsCell<C, A, P>(starts: Starts, b: Buffer<C, A, P>, ops: seq<Op<C, A, P>>, u: int, c: int) {
    Sound(b) && b.anchor == Some(u) && c in b.cells.values && Anchored(ops) && Within(RunFrom(starts, b, ops), u) ==>
      c in RunFrom(starts, b, ops).cells.values
  }

  /** A cell of the lead is kept over every run of the utterance, whatever buffer it begins in, if and only
      if the ring still holds it at the utterance's end. */
  lemma CellsKeptIff<C(!new), A(!new), P(!new)>(u: int, c: int, x: C)
    requires 0 <= u && 0 <= c && Max(0, u - 2 * ROLLING_SAMPLES) < (c + 1) * CELL_SAMPLES
    ensures End(u, CELL_SAMPLES) - CELL_CAPACITY <= c <==>
      forall starts: Starts, b: Buffer<C, A, P>, ops: seq<Op<C, A, P>> :: KeepsCell(starts, b, ops, u, c)
  {
    if End(u, CELL_SAMPLES) - CELL_CAPACITY <= c {
      forall starts: Starts, b: Buffer<C, A, P>, ops: seq<Op<C, A, P>>
        ensures KeepsCell(starts, b, ops, u, c)
      {
        if Sound(b) && b.anchor == Some(u) && Anchored(ops) && Within(RunFrom(starts, b, ops), u) {
          UtteranceIsKept(starts, b, ops, u, c);
        }
      }
    } else {
      var starts, b := Starts(None, None, None), Fresh<C, A, P>().(anchor := Some(u), cells := View(c, Some(c + 1), map[c := x]));
      var op: Op<C, A, P> := CellsOp((End(u, CELL_SAMPLES) - 1) * CELL_SAMPLES, [x]);
      CellsLost(starts, b, u, c, x);
      var ops := [op];
      assert ops[..0] == [] && RunFrom(starts, b, ops[..0]) == b && RunFrom(starts, b, ops) == Apply(starts, b, op);
      assert !KeepsCell(starts, b, ops, u, c);
    }
  }

  /** So the far end of the lead can be gone: a whole cell of it is, exactly when the utterance starts on
      the grid or in the second half of a cell. */
  lemma CellsFallShort(u: int)
    requires u >= 2 * ROLLING_SAMPLES
    ensures u % CELL_SAMPLES == 0 || u % CELL_SAMPLES > CELL_SAMPLES / 2 <==>
      exists c: int :: LeadLacks(u, c)
  {
    var q, r := u / CELL_SAMPLES, u % CELL_SAMPLES;
    assert u == CELL_SAMPLES * q + r;
    var first := q - 625 + if r == 0 then 0 else 1;
    assert forall c: int :: u - 2 * ROLLING_SAMPLES <= c * CELL_SAMPLES <==> first <= c;
    assert End(u, CELL_SAMPLES) - CELL_CAPACITY == q - 625 + if r <= CELL_SAMPLES / 2 then 1 else 2;
    if r == 0 || r > CELL_SAMPLES / 2 {
      assert LeadLacks(u, first);
    }
  }

  /** A whole cell of the lead that no ring of that capacity still has to hold at the utterance's end. */
  predicate LeadLacks(u: int, c: int) {
    u - 2 * ROLLING_SAMPLES <= c * CELL_SAMPLES && c < End(u, CELL_SAMPLES) - CELL_CAPACITY
  }

  /** But never more than two cells: from 768 samples into that lead on, every cell is kept. */
  lemma CellsAlmostReach(u: int, c: int)
    requires u - 2 * ROLLING_SAMPLES + 768 <= c * CELL_SAMPLES && 0 <= c
    ensures CellKept(u, c)
  {
  }
}
