/** What ages out of a subscription's buffer and what does not, utterance or none
    (controller/em_audio_timeline.py, `SubscriptionBuffer._retain`). */
module RollingSpec {
  import opened Basics
  import opened Intervals
  import opened RetentionSpec

  /** Ten seconds before the open utterance, or before the newest mic sample when none is open. */
  function KeptFrom<C, A, P>(b: Buffer<C, A, P>): int
    requires b.mic.frontier.Some?
  {
    Max(0, (if b.anchor.Some? then b.anchor.value else b.mic.frontier.value) - 160_000)
  }

  /** The newest reference samples that stay: as many as the mic spans and 2.5 seconds more. */
  function Share<C, A, P>(b: Buffer<C, A, P>): int
    requires b.mic.frontier.Some?
  {
    Min(640_000, b.mic.frontier.value - Max(b.mic.floor, KeptFrom(b)) + 40_000)
  }

  /** Retaining keeps a mic sample, an AFE record, a probability, a cell and a reference sample if and only
      if it reaches past its lead before that point: 0, 2.5, 2.5 and 10 seconds, and the reference's share. */
  lemma {:induction false} RetainKeepsIff<C, A, P>(b: Buffer<C, A, P>, i: int)
    requires b.mic.frontier.Some?
    ensures var s, v := KeptFrom(b), Retain(b);
      && (i in v.mic.values <==> i in b.mic.values && (s <= i || s <= b.mic.floor))
      && (i in v.afe.values <==> i in b.afe.values && (Max(0, s - 40_000) < 1_280 * (i + 1) || Max(0, s - 40_000) / 1_280 <= b.afe.floor))
      && (i in v.vad.values <==> i in b.vad.values && (Max(0, s - 40_000) < 512 * (i + 1) || Max(0, s - 40_000) / 512 <= b.vad.floor))
      && (i in v.cells.values <==> i in b.cells.values && (Max(0, s - 160_000) < 512 * (i + 1) || Max(0, s - 160_000) / 512 <= b.cells.floor))
  {
  }

  lemma {:induction false} ReferenceKeepsIff<C, A, P>(b: Buffer<C, A, P>, i: int)
    requires b.mic.frontier.Some? && b.reference.store.frontier.Some?
    ensures var oldest, store := b.reference.store.frontier.value - Share(b), b.reference.store;
      i in Retain(b).reference.store.values <==> i in store.values && (oldest <= i || oldest <= store.floor)
  {
  }

  /** What is kept keeps its value. */
  lemma {:induction false} RetainKeepsValues<C, A, P>(b: Buffer<C, A, P>, i: int)
    ensures var v := Retain(b);
      && (i in v.mic.values ==> v.mic.values[i] == b.mic.values[i]) && (i in v.afe.values ==> v.afe.values[i] == b.afe.values[i])
      && (i in v.vad.values ==> v.vad.values[i] == b.vad.values[i]) && (i in v.cells.values ==> v.cells.values[i] == b.cells.values[i])
      && (i in v.reference.store.values ==> v.reference.store.values[i] == b.reference.store.values[i])
  {
  }

  // ---- with no utterance open ----

  /** The rolling seconds that end at mic sample f. */
  predicate MicRolls(f: int, i: int) { Max(0, f - 160_000) <= i }

  predicate RecordRolls(f: int, grid: int, k: int) { Max(0, Max(0, f - 160_000) - 40_000) < (k + 1) * grid }

  predicate CellRolls(f: int, c: int) { Max(0, f - 320_000) < 512 * (c + 1) }

  lemma {:induction false} MicStays<C, A, P>(starts: Starts, b: Buffer<C, A, P>, op: Op<C, A, P>, f: int, i: int)
    requires Sound(b) && b.anchor.None? && !op.AnchorOp? && Apply(starts, b, op).mic.frontier == Some(f) && MicRolls(f, i)
    ensures Holds(b.mic, Apply(starts, b, op).mic, i)
  {
    match op
    case MicOp(first, pcm) =>
      match Taken(starts.mic, first, pcm, 1) {
        case None =>
        case Some((y, part)) => WriteHolds(b.mic, PCM_CAPACITY, y, part, i);
      }
    case MutedOp(end) => MuteHolds(b.mic, PCM_CAPACITY, end, i);
    case _ =>
  }

  lemma {:induction false} AfeStays<C, A, P>(starts: Starts, b: Buffer<C, A, P>, op: Op<C, A, P>, f: int, k: int)
    requires Sound(b) && b.anchor.None? && !op.AnchorOp? && Apply(starts, b, op).mic.frontier == Some(f) && RecordRolls(f, AFE_PERIOD_SAMPLES, k)
    requires Reaches(Apply(starts, b, op).afe, k + AFE_CAPACITY)
    ensures Holds(b.afe, Apply(starts, b, op).afe, k)
  {
    if op.AfeOp? {
      match Taken(starts.afe, op.first, op.rows, AFE_PERIOD_SAMPLES) {
        case None =>
        case Some((y, part)) => WriteHolds(b.afe, AFE_CAPACITY, y, part, k);
      }
    }
  }

  lemma {:induction false} CellsStay<C, A, P>(starts: Starts, b: Buffer<C, A, P>, op: Op<C, A, P>, f: int, c: int)
    requires Sound(b) && b.anchor.None? && !op.AnchorOp? && Apply(starts, b, op).mic.frontier == Some(f) && CellRolls(f, c)
    requires Reaches(Apply(starts, b, op).cells, c + CELL_CAPACITY)
    ensures Holds(b.cells, Apply(starts, b, op).cells, c)
  {
    if op.CellsOp? {
      match Taken(starts.cells, op.first, op.records, CELL_SAMPLES) {
        case None =>
        case Some((y, part)) => WriteHolds(b.cells, CELL_CAPACITY, y, part, c);
      }
    }
  }

  lemma {:induction false} VadStays<C, A, P>(starts: Starts, b: Buffer<C, A, P>, op: Op<C, A, P>, f: int, j: int)
    requires Sound(b) && b.anchor.None? && !op.AnchorOp? && Apply(starts, b, op).mic.frontier == Some(f) && RecordRolls(f, CELL_SAMPLES, j)
    requires Reaches(Apply(starts, b, op).vad, j + VAD_CAPACITY) && j in b.vad.values
    ensures j in Apply(starts, b, op).vad.values
  {
  }

  /** While no utterance is open nothing of the rolling seconds is lost: over every run, with the mic at f in
      the end, each mic sample of the last ten seconds stays, and each AFE record, probability and cell that
      reaches past its lead before them, as long as its own ring holds it. */
  lemma {:induction false} RollingIsKept<C, A, P>(starts: Starts, b: Buffer<C, A, P>, ops: seq<Op<C, A, P>>, f: int, i: int)
    requires Sound(b) && b.anchor.None? && b.mic.frontier.Some? && Anchored(ops) && RunFrom(starts, b, ops).mic.frontier == Some(f)
    ensures var v := RunFrom(starts, b, ops);
      && (MicRolls(f, i) ==> Holds(b.mic, v.mic, i))
      && (RecordRolls(f, AFE_PERIOD_SAMPLES, i) && Reaches(v.afe, i + AFE_CAPACITY) ==> Holds(b.afe, v.afe, i))
      && (RecordRolls(f, CELL_SAMPLES, i) && Reaches(v.vad, i + VAD_CAPACITY) && i in b.vad.values ==> i in v.vad.values)
      && (CellRolls(f, i) && Reaches(v.cells, i + CELL_CAPACITY) ==> Holds(b.cells, v.cells, i))
  {
    if ops != [] {
      var front, op := RunFrom(starts, b, ops[..|ops| - 1]), ops[|ops| - 1];
      RunStays(starts, b, ops[..|ops| - 1]);
      RunRunsOn(starts, b, ops[..|ops| - 1]);
      StreamsRunOn(starts, front, op);
      RollingIsKept(starts, b, ops[..|ops| - 1], front.mic.frontier.value, i);
      RollingStep(starts, front, op, f, i);
    }
  }

  lemma {:induction false} RunRunsOn<C, A, P>(starts: Starts, b: Buffer<C, A, P>, ops: seq<Op<C, A, P>>)
    requires Anchored(ops)
    ensures RunsOn(b, RunFrom(starts, b, ops))
  {
    if ops != [] {
      RunRunsOn(starts, b, ops[..|ops| - 1]);
      StreamsRunOn(starts, RunFrom(starts, b, ops[..|ops| - 1]), ops[|ops| - 1]);
    }
  }

  lemma {:induction false} RollingStep<C, A, P>(starts: Starts, b: Buffer<C, A, P>, op: Op<C, A, P>, f: int, i: int)
    requires Sound(b) && b.anchor.None? && !op.AnchorOp? && Apply(starts, b, op).mic.frontier == Some(f)
    ensures var v := Apply(starts, b, op);
      && (MicRolls(f, i) ==> Holds(b.mic, v.mic, i))
      && (RecordRolls(f, AFE_PERIOD_SAMPLES, i) && Reaches(v.afe, i + AFE_CAPACITY) ==> Holds(b.afe, v.afe, i))
      && (RecordRolls(f, CELL_SAMPLES, i) && Reaches(v.vad, i + VAD_CAPACITY) && i in b.vad.values ==> i in v.vad.values)
      && (CellRolls(f, i) && Reaches(v.cells, i + CELL_CAPACITY) ==> Holds(b.cells, v.cells, i))
  {
    var v := Apply(starts, b, op);
    if MicRolls(f, i) {
      MicStays(starts, b, op, f, i);
    }
    if RecordRolls(f, AFE_PERIOD_SAMPLES, i) && Reaches(v.afe, i + AFE_CAPACITY) {
      AfeStays(starts, b, op, f, i);
    }
    if RecordRolls(f, CELL_SAMPLES, i) && Reaches(v.vad, i + VAD_CAPACITY) && i in b.vad.values {
      VadStays(starts, b, op, f, i);
    }
    if CellRolls(f, i) && Reaches(v.cells, i + CELL_CAPACITY) {
      CellsStay(starts, b, op, f, i);
    }
  }
}
