/** Which packets a stream epoch accepts (controller/em_audio_timeline.py, `StreamRegistry.check`), told of the
    packets it has accepted and of the grants it was given. */
module Accepting {
  import opened Basics
  import opened StreamSpec

  /** At or past every accepted packet's first sample. */
  predicate AtFront(hist: seq<Packet>, first: int) { forall i :: 0 <= i < |hist| ==> hist[i].first <= first }

  predicate InSequence(hist: seq<Packet>, sequence: int) { forall i :: 0 <= i < |hist| ==> hist[i].sequence < sequence }

  /** An open backfill ends by `first`. */
  predicate Reaches(ends: seq<int>, first: int) { exists e :: e in ends && e <= first }

  /** The ends of the backfills that are still open after these packets, in the order they were opened: a
      packet at the front closes those it has caught up, another goes on with the one that ends nearest
      below it, or opens one. */
  function Open(hist: seq<Packet>): seq<int> {
    if hist == [] then []
    else
      var front, p := hist[..|hist| - 1], hist[|hist| - 1];
      var open := Open(front);
      if AtFront(front, p.first) then Before(open, p.first)
      else
        match Continuing(open, p.first)
        case Some(i) => open[i := p.end]
        case None => open + [p.end]
  }

  /** How many backfills these packets have opened. */
  function Started(hist: seq<Packet>): nat {
    if hist == [] then 0
    else
      var front, p := hist[..|hist| - 1], hist[|hist| - 1];
      Started(front) + if !AtFront(front, p.first) && !Reaches(Open(front), p.first) then 1 else 0
  }

  // ---- the state over a run ----

  ghost predicate Recalls(st: EpochState, hist: seq<Packet>, granted: nat) {
    && (st.lastSequence.None? <==> hist == [])
    && (st.lastSequence.Some? ==> InSequence(hist, st.lastSequence.value + 1) && exists i :: 0 <= i < |hist| && hist[i].sequence == st.lastSequence.value)
    && (st.high.None? <==> hist == [])
    && (st.high.Some? ==> AtFront(hist, st.high.value) && exists i :: 0 <= i < |hist| && hist[i].first == st.high.value)
    && st.runs == Open(hist) && st.backfills + Started(hist) == granted
  }

  lemma {:induction false} ContinuingIs(runs: seq<int>, first: int)
    ensures Continuing(runs, first).Some? <==> Reaches(runs, first)
  {
    var r := Continuing(runs, first);
    if r.Some? {
      assert runs[r.value] in runs;
    }
  }

  lemma {:induction false} FrontIs(st: EpochState, hist: seq<Packet>, granted: nat, first: int)
    requires Recalls(st, hist, granted)
    ensures st.high.None? || first >= st.high.value <==> AtFront(hist, first)
  {
  }

  lemma {:induction false} SequenceIs(st: EpochState, hist: seq<Packet>, granted: nat, sequence: int)
    requires Recalls(st, hist, granted)
    ensures st.lastSequence.Some? && sequence <= st.lastSequence.value <==> !InSequence(hist, sequence)
  {
  }

  /** Accepted if and only if its sequence is past all others and it is at the front, goes on with an open
      backfill, or a grant is left for a new one. */
  ghost predicate Welcome(hist: seq<Packet>, granted: nat, p: Packet) {
    InSequence(hist, p.sequence) && (AtFront(hist, p.first) || Reaches(Open(hist), p.first) || Started(hist) < granted)
  }

  lemma {:induction false} EpochAcceptsIff(st: EpochState, hist: seq<Packet>, granted: nat, p: Packet)
    requires Recalls(st, hist, granted) && !st.ended
    ensures CheckEpoch(st, p).Ok? <==> Welcome(hist, granted, p)
    ensures CheckEpoch(st, p).Err? ==>
      CheckEpoch(st, p).error == if InSequence(hist, p.sequence) then SampleOrder else SequenceOrder
  {
    FrontIs(st, hist, granted, p.first);
    SequenceIs(st, hist, granted, p.sequence);
    ContinuingIs(st.runs, p.first);
  }

  lemma {:induction false} AcceptRecalls(st: EpochState, hist: seq<Packet>, granted: nat, p: Packet)
    requires Recalls(st, hist, granted) && CheckEpoch(st, p).Ok?
    ensures Recalls(CheckEpoch(st, p).value, hist + [p], granted)
  {
    FrontIs(st, hist, granted, p.first);
    SequenceIs(st, hist, granted, p.sequence);
    ContinuingIs(st.runs, p.first);
    var u, all := CheckEpoch(st, p).value, hist + [p];
    assert all[..|hist|] == hist && all[|hist|] == p;
    forall i | 0 <= i < |hist|
      ensures all[i].sequence < p.sequence && all[i].first <= u.high.value
    {
      assert all[i] == hist[i];
    }
    if !AtFront(hist, p.first) {
      var i :| 0 <= i < |hist| && hist[i].first == st.high.value;
      assert all[i].first == st.high.value;
    }
  }

  ghost predicate Remembers(reg: Registry, key: Key, hist: seq<Packet>, granted: nat) {
    if key in reg.epochs then Recalls(reg.epochs[key], hist, granted) else hist == [] && granted == 0
  }

  lemma {:induction false} StepRemembers(reg: Registry, op: Op, key: Key, hist: seq<Packet>, granted: nat)
    requires Remembers(reg, key, hist, granted)
    ensures Remembers(StreamSpec.Apply(reg, op), key, hist + Accepts(reg, op, key), granted + Allows(reg, op, key))
  {
    assert hist + [] == hist;
    if Accepts(reg, op, key) != [] {
      AcceptRecalls(reg.epochs[key], hist, granted, op.packet);
    } else if key in reg.epochs {
      OtherFrame(reg, op, key);
    }
  }

  lemma {:induction false} RunRemembers(ops: seq<Op>, key: Key)
    ensures Remembers(Run(ops), key, Accepted(ops, key), Granted(ops, key))
  {
    if ops != [] {
      var front, op := ops[..|ops| - 1], ops[|ops| - 1];
      RunRemembers(front, key);
      StepRemembers(Run(front), op, key, Accepted(front, key), Granted(front, key));
    }
  }

  function Refusal(known: bool, ended: bool, hist: seq<Packet>, p: Packet): Fault {
    if !known then UnknownEpoch else if ended then StreamEnded else if !InSequence(hist, p.sequence) then SequenceOrder else SampleOrder
  }

  /** After any run a packet of an uplink stream is accepted if and only if its epoch was opened and has not
      ended, its sequence is past all that the epoch has accepted, and it is at the front, goes on with an
      open backfill or has a grant left; each refusal has the error of the first of these that fails. */
  lemma {:induction false} PacketAcceptedIff(ops: seq<Op>, p: Packet)
    requires p.stream.Some?
    ensures var key, reg := (p.stream.value, p.epoch), Run(ops);
      var known := key in reg.epochs;
      && (Check(reg, p).Ok? <==> known && !reg.epochs[key].ended && Welcome(Accepted(ops, key), Granted(ops, key), p))
      && (Check(reg, p).Err? ==> Check(reg, p).error == Refusal(known, known && reg.epochs[key].ended, Accepted(ops, key), p))
  {
    var key, reg := (p.stream.value, p.epoch), Run(ops);
    RunRemembers(ops, key);
    if key in reg.epochs && !reg.epochs[key].ended {
      EpochAcceptsIff(reg.epochs[key], Accepted(ops, key), Granted(ops, key), p);
    }
  }
}
