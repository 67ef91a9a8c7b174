/** The recording tap (controller/em_afe.py, `AfeTrack`): a bounded window of periods, ordered dictionaries, expiry. */
module TrackSpec {
  import opened Basics
  import opened OrderedDicts
  import opened Matching

  const HALF := 640
  const WAIT_PERIODS := 250

  datatype Track = Track(
    samples: nat, floor: nat, periods: seq<Option<Record>>,
    waiting: seq<(Key, nat)>, early: seq<(Key, Record)>)

  predicate Proper(tr: Track) { Unique(tr.waiting) && Unique(tr.early) }

  const EMPTY := Track(0, 0, [], [], [])

  /** How many tap periods have their middle below tap sample t: ceil((t - 640) / 1280). */
  function Middles(t: nat): (c: nat)
    ensures AFE_PERIOD_SAMPLES * (c - 1) + HALF < t <= AFE_PERIOD_SAMPLES * c + HALF || (t <= HALF && c == 0)
  {
    -(-(t - HALF) / AFE_PERIOD_SAMPLES)
  }

  /** The capture period holding the middle of tap period j, for a block of capture samples from
      `start` taken as tap samples from t. */
  function KeyOf(sub: int, start: int, t: nat, j: nat): (k: Key)
    ensures k == (sub, (start - t + HALF) / AFE_PERIOD_SAMPLES + j)
  {
    (sub, (start + j * AFE_PERIOD_SAMPLES + HALF - t) / AFE_PERIOD_SAMPLES)
  }

  function TakeOne(tr: Track, key: Key, j: nat): (r: Track)
    requires Proper(tr)
    ensures Proper(r) && r.samples == tr.samples && r.floor == tr.floor && |r.periods| == |tr.periods| + 1
  {
    var i := IndexOf(tr.early, key);
    if i.Some? then tr.(periods := tr.periods + [Some(tr.early[i.value].1)], early := Remove(tr.early, key))
    else tr.(periods := tr.periods + [None], waiting := Put(tr.waiting, key, j))
  }

  /** Tap periods [lo, hi) of one block. */
  function TakeBlock(tr: Track, sub: int, start: int, t: nat, lo: nat, hi: nat): (r: Track)
    requires Proper(tr)
    ensures Proper(r) && r.samples == tr.samples && r.floor == tr.floor
    ensures |r.periods| == |tr.periods| + if lo <= hi then hi - lo else 0
  {
    if hi <= lo then tr else TakeOne(TakeBlock(tr, sub, start, t, lo, hi - 1), KeyOf(sub, start, t, hi - 1), hi - 1)
  }

  function Cap(tr: Track, capacity: nat): Track {
    if |tr.periods| <= capacity then tr
    else tr.(floor := tr.floor + (|tr.periods| - capacity), periods := tr.periods[|tr.periods| - capacity..])
  }

  /** The oldest waiting entries below the limit give up. */
  function Expired(waiting: seq<(Key, nat)>, limit: int): (r: seq<(Key, nat)>)
    requires Unique(waiting)
    ensures Unique(r)
  {
    if waiting != [] && waiting[0].1 < limit then Expired(waiting[1..], limit) else waiting
  }

  function TakingTo(tr: Track, capacity: nat, sub: int, start: int, n: nat, lo: nat, hi: nat): (r: Track)
    requires Proper(tr)
    ensures Proper(r)
  {
    Cap(TakeBlock(tr.(samples := tr.samples + n), sub, start, tr.samples, lo, hi), capacity)
  }

  function Taking(tr: Track, capacity: nat, sub: int, start: int, n: nat): (r: Track)
    requires Proper(tr)
    ensures Proper(r)
  {
    TakingTo(tr, capacity, sub, start, n, Middles(tr.samples), Middles(tr.samples + n))
  }

  function Limit(tr: Track): int { tr.floor + |tr.periods| - WAIT_PERIODS }

  function Mic(tr: Track, capacity: nat, sub: int, start: int, n: nat): (r: Track)
    requires Proper(tr)
    ensures Proper(r)
  {
    var u := Taking(tr, capacity, sub, start, n);
    u.(waiting := Expired(u.waiting, Limit(u)))
  }

  function PeriodKey(sub: int, r: Record): Key { (sub, r.start / AFE_PERIOD_SAMPLES) }

  function Afe(tr: Track, sub: int, r: Record): (u: Track)
    requires Proper(tr)
    ensures Proper(u)
  {
    var key := PeriodKey(sub, r);
    var i := IndexOf(tr.waiting, key);
    if i.None? then
      var early := Put(tr.early, key, r);
      tr.(early := if |early| > WAIT_PERIODS then early[1..] else early)
    else
      var j := tr.waiting[i.value].1;
      tr.(waiting := Remove(tr.waiting, key),
        periods := if tr.floor <= j < tr.floor + |tr.periods| then tr.periods[j - tr.floor := Some(r)] else tr.periods)
  }

  /** A subscription's records, one by one. */
  function AfeAll(tr: Track, sub: int, records: seq<Record>): (r: Track)
    requires Proper(tr)
    ensures Proper(r)
  {
    if records == [] then tr else Afe(AfeAll(tr, sub, records[..|records| - 1]), sub, records[|records| - 1])
  }

  // ---- runs ----

  datatype Op = MicOp(sub: int, start: int, n: nat) | AfeOp(sub: int, record: Record)

  function Apply(tr: Track, capacity: nat, op: Op): (r: Track)
    requires Proper(tr)
    ensures Proper(r)
  {
    match op
    case MicOp(sub, start, n) => Mic(tr, capacity, sub, start, n)
    case AfeOp(sub, r) => Afe(tr, sub, r)
  }

  function Run(capacity: nat, ops: seq<Op>): (r: Track)
    ensures Proper(r)
  {
    if ops == [] then EMPTY else Apply(Run(capacity, ops[..|ops| - 1]), capacity, ops[|ops| - 1])
  }

  /** Nothing gives up waiting in this step. */
  predicate QuietStep(tr: Track, capacity: nat, op: Op)
    requires Proper(tr)
  {
    match op
    case MicOp(sub, start, n) =>
      var u := Taking(tr, capacity, sub, start, n);
      Expired(u.waiting, Limit(u)) == u.waiting
    case AfeOp(sub, r) => IndexOf(tr.waiting, PeriodKey(sub, r)).Some? || |Put(tr.early, PeriodKey(sub, r), r)| <= WAIT_PERIODS
  }

  predicate Quiet(capacity: nat, ops: seq<Op>) {
    ops == [] ||
    (Quiet(capacity, ops[..|ops| - 1]) && QuietStep(Run(capacity, ops[..|ops| - 1]), capacity, ops[|ops| - 1]))
  }

  function Samples(ops: seq<Op>): nat {
    if ops == [] then 0
    else Samples(ops[..|ops| - 1]) + if ops[|ops| - 1].MicOp? then ops[|ops| - 1].n else 0
  }

  function BlockEvents(sub: int, start: int, t: nat, lo: nat, hi: nat): seq<Event> {
    if hi <= lo then [] else BlockEvents(sub, start, t, lo, hi - 1) + [Take(KeyOf(sub, start, t, hi - 1))]
  }

  function OpEvents(op: Op, t: nat): seq<Event> {
    match op
    case MicOp(sub, start, n) => BlockEvents(sub, start, t, Middles(t), Middles(t + n))
    case AfeOp(sub, r) => [Arrive(PeriodKey(sub, r), r)]
  }

  /** The period-by-period, record-by-record view of a run. */
  function Events(ops: seq<Op>): seq<Event> {
    if ops == [] then [] else Events(ops[..|ops| - 1]) + OpEvents(ops[|ops| - 1], Samples(ops[..|ops| - 1]))
  }

  /** The window shows the newest periods of the unbounded matching. */
  ghost predicate Shows(tr: Track, m: Match) {
    && Proper(tr) && tr.floor + |tr.periods| == |m.periods| && m.periods[tr.floor..] == tr.periods
    && AsMap(tr.waiting) == m.waiting && AsMap(tr.early) == m.early
  }

  lemma TakeShows(tr: Track, m: Match, key: Key)
    requires Shows(tr, m)
    ensures Shows(TakeOne(tr, key, |m.periods|), TakePeriod(m, key))
  {
    InDict(tr.early, key);
    RemoveIsMinus(tr.early, key);
    PutIsUpdate<Key, nat>(tr.waiting, key, |m.periods|);
    assert TakePeriod(m, key).periods[tr.floor..] == m.periods[tr.floor..] + [TakePeriod(m, key).periods[|m.periods|]];
  }

  /** Playing on from a state. */
  function PlayOn(m: Match, es: seq<Event>): Match {
    if es == [] then m else Step(PlayOn(m, es[..|es| - 1]), es[|es| - 1])
  }

  lemma {:induction false} PlayJoins(es: seq<Event>, more: seq<Event>)
    ensures Play(es + more) == PlayOn(Play(es), more)
    ensures Taken(es + more) == Taken(es) + Taken(more)
  {
    if more == [] {
      assert es + more == es;
    } else {
      var front := more[..|more| - 1];
      PlayJoins(es, front);
      assert (es + more)[..|es + more| - 1] == es + front;
    }
  }

  lemma {:induction false} BlockShows(tr: Track, m: Match, sub: int, start: int, t: nat, lo: nat, hi: nat)
    requires Shows(tr, m) && |m.periods| == lo <= hi
    ensures var m' := PlayOn(m, BlockEvents(sub, start, t, lo, hi));
      Shows(TakeBlock(tr, sub, start, t, lo, hi), m') && |m'.periods| == hi
    decreases hi
  {
    if hi > lo {
      BlockShows(tr, m, sub, start, t, lo, hi - 1);
      var es := BlockEvents(sub, start, t, lo, hi - 1);
      assert BlockEvents(sub, start, t, lo, hi) == es + [Take(KeyOf(sub, start, t, hi - 1))];
      assert (es + [Take(KeyOf(sub, start, t, hi - 1))])[..|es|] == es;
      TakeShows(TakeBlock(tr, sub, start, t, lo, hi - 1), PlayOn(m, es), KeyOf(sub, start, t, hi - 1));
    }
  }

  lemma {:induction false} ArriveShows(tr: Track, m: Match, sub: int, r: Record)
    requires Shows(tr, m) && QuietStep(tr, 0, AfeOp(sub, r))
    ensures Shows(Afe(tr, sub, r), ArriveRecord(m, PeriodKey(sub, r), r))
  {
    InDict(tr.waiting, PeriodKey(sub, r));
    if PeriodKey(sub, r) in m.waiting {
      GiveShows(tr, m, sub, r);
    } else {
      PutIsUpdate(tr.early, PeriodKey(sub, r), r);
    }
  }

  /** The record goes to the period that waits for it, inside the window or before it. */
  lemma {:induction false} GiveShows(tr: Track, m: Match, sub: int, r: Record)
    requires Shows(tr, m) && PeriodKey(sub, r) in m.waiting
    ensures Shows(Afe(tr, sub, r), ArriveRecord(m, PeriodKey(sub, r), r))
  {
    var key := PeriodKey(sub, r);
    InDict(tr.waiting, key);
    RemoveIsMinus(tr.waiting, key);
    WindowUpdates(m.periods, tr.floor, m.waiting[key], r);
  }

  lemma {:induction false} WindowUpdates(periods: seq<Option<Record>>, floor: nat, j: nat, r: Record)
    requires floor <= |periods|
    ensures j < |periods| ==> periods[j := Some(r)][floor..] == if floor <= j then periods[floor..][j - floor := Some(r)] else periods[floor..]
  {
  }

  lemma MiddlesGrow(t: nat, n: nat)
    ensures Middles(t) <= Middles(t + n)
  {
  }

  lemma {:induction false} SamplesOf(capacity: nat, ops: seq<Op>)
    ensures Run(capacity, ops).samples == Samples(ops)
  {
    if ops != [] {
      SamplesOf(capacity, ops[..|ops| - 1]);
      match ops[|ops| - 1]
      case MicOp(sub, start, n) =>
        var tr := Run(capacity, ops[..|ops| - 1]);
      case AfeOp(_, _) =>
    }
  }

  /** While nothing gives up waiting, the track is the window of the unbounded matching. */
  lemma {:induction false} TrackShowsMatch(capacity: nat, ops: seq<Op>)
    requires Quiet(capacity, ops)
    ensures Shows(Run(capacity, ops), Play(Events(ops))) && |Play(Events(ops)).periods| == Middles(Samples(ops))
  {
    if ops != [] {
      var front, op := ops[..|ops| - 1], ops[|ops| - 1];
      TrackShowsMatch(capacity, front);
      SamplesOf(capacity, front);
      PlayJoins(Events(front), OpEvents(op, Samples(front)));
      OpShows(Run(capacity, front), Play(Events(front)), capacity, op);
    }
  }

  lemma OpShows(tr: Track, m: Match, capacity: nat, op: Op)
    requires Shows(tr, m) && |m.periods| == Middles(tr.samples) && QuietStep(tr, capacity, op)
    ensures var m' := PlayOn(m, OpEvents(op, tr.samples));
      Shows(Apply(tr, capacity, op), m') && |m'.periods| == Middles(tr.samples + if op.MicOp? then op.n else 0)
  {
    match op
    case MicOp(sub, start, n) => MicShows(tr, m, capacity, sub, start, n);
    case AfeOp(sub, r) => PlayOne(m, PeriodKey(sub, r), r); ArriveShows(tr, m, sub, r);
  }

  lemma PlayOne(m: Match, key: Key, r: Record)
    ensures PlayOn(m, [Arrive(key, r)]) == ArriveRecord(m, key, r)
    ensures |ArriveRecord(m, key, r).periods| == |m.periods|
  {
    assert [Arrive(key, r)][..0] == [];
  }

  lemma {:induction false} MicShows(tr: Track, m: Match, capacity: nat, sub: int, start: int, n: nat)
    requires Shows(tr, m) && |m.periods| == Middles(tr.samples) && QuietStep(tr, capacity, MicOp(sub, start, n))
    ensures var m' := PlayOn(m, BlockEvents(sub, start, tr.samples, Middles(tr.samples), Middles(tr.samples + n)));
      Shows(Mic(tr, capacity, sub, start, n), m') && |m'.periods| == Middles(tr.samples + n)
  {
    var m' := TakingShows(tr, m, capacity, sub, start, n);
    QuietMic(tr, capacity, sub, start, n);
  }

  lemma {:induction false} TakingShows(tr: Track, m: Match, capacity: nat, sub: int, start: int, n: nat) returns (m': Match)
    requires Shows(tr, m) && |m.periods| == Middles(tr.samples)
    ensures m' == PlayOn(m, BlockEvents(sub, start, tr.samples, Middles(tr.samples), Middles(tr.samples + n)))
    ensures Shows(Taking(tr, capacity, sub, start, n), m') && |m'.periods| == Middles(tr.samples + n)
  {
    MiddlesGrow(tr.samples, n);
    m' := CapBlockShows(tr, m, capacity, sub, start, n, Middles(tr.samples), Middles(tr.samples + n));
  }

  lemma {:induction false} CapBlockShows(
    tr: Track, m: Match, capacity: nat, sub: int, start: int, n: nat, lo: nat, hi: nat) returns (m': Match)
    requires Shows(tr, m) && |m.periods| == lo <= hi
    ensures m' == PlayOn(m, BlockEvents(sub, start, tr.samples, lo, hi))
    ensures Shows(TakingTo(tr, capacity, sub, start, n, lo, hi), m') && |m'.periods| == hi
  {
    var u := tr.(samples := tr.samples + n);
    BlockShows(u, m, sub, start, tr.samples, lo, hi);
    m' := PlayOn(m, BlockEvents(sub, start, tr.samples, lo, hi));
    CapShows(TakeBlock(u, sub, start, tr.samples, lo, hi), m', capacity);
  }

  /** A block after which nothing gives up only takes its periods. */
  lemma {:induction false} QuietMic(tr: Track, capacity: nat, sub: int, start: int, n: nat)
    requires Proper(tr) && QuietStep(tr, capacity, MicOp(sub, start, n))
    ensures Mic(tr, capacity, sub, start, n) == Taking(tr, capacity, sub, start, n)
  {
  }

  lemma CapShows(tr: Track, m: Match, capacity: nat)
    requires Shows(tr, m)
    ensures Shows(Cap(tr, capacity), m)
  {
  }

  /** The window always ends at the last tap period whose middle has been taken. */
  lemma {:induction false} WindowPosition(capacity: nat, ops: seq<Op>)
    ensures Run(capacity, ops).floor + |Run(capacity, ops).periods| == Middles(Samples(ops))
    ensures |Run(capacity, ops).periods| <= capacity
  {
    if ops != [] {
      var tr := Run(capacity, ops[..|ops| - 1]);
      WindowPosition(capacity, ops[..|ops| - 1]);
      SamplesOf(capacity, ops[..|ops| - 1]);
      match ops[|ops| - 1]
      case MicOp(sub, start, n) =>
        MiddlesGrow(tr.samples, n);
      case AfeOp(_, _) =>
    }
  }

  /** Two runs whose events take the same periods and bring the same records, in whatever
      interleaving, with nothing giving up waiting, keep the same periods, and each kept period is
      its key's one record or none. */
  lemma SameEventsSamePeriods(capacity: nat, ops: seq<Op>, ops': seq<Op>)
    requires Quiet(capacity, ops) && Quiet(capacity, ops')
    requires NewRecords(Events(ops)) && NewRecords(Events(ops')) && Distinct(Taken(Events(ops)))
    requires Taken(Events(ops)) == Taken(Events(ops')) && Arrived(Events(ops)) == Arrived(Events(ops'))
    requires Samples(ops) == Samples(ops')
    ensures Run(capacity, ops).periods == Run(capacity, ops').periods && Run(capacity, ops).floor == Run(capacity, ops').floor
    ensures KeptRight(Run(capacity, ops), Taken(Events(ops)), Arrived(Events(ops)))
  {
    KeptAre(capacity, ops);
    KeptAre(capacity, ops');
    FloorOf(capacity, ops);
    FloorOf(capacity, ops');
    SameKept(Run(capacity, ops), Run(capacity, ops'), Taken(Events(ops)), Arrived(Events(ops)));
  }

  lemma SameKept(tr: Track, tr': Track, keys: seq<Key>, records: map<Key, Record>)
    requires KeptRight(tr, keys, records) && KeptRight(tr', keys, records) && tr.floor == tr'.floor
    ensures tr.periods == tr'.periods
  {
    forall i | 0 <= i < |tr.periods|
      ensures tr.periods[i] == tr'.periods[i]
    {
      assert tr.periods[i] == Get(records, keys[tr.floor + i]);
    }
  }

  /** The window ends at the last key, and each kept period is its key's record or none. */
  ghost predicate KeptRight(tr: Track, keys: seq<Key>, records: map<Key, Record>) {
    && tr.floor + |tr.periods| == |keys|
    && forall i :: 0 <= i < |tr.periods| ==> tr.periods[i] == Get(records, keys[tr.floor + i])
  }

  lemma KeptAre(capacity: nat, ops: seq<Op>)
    requires Quiet(capacity, ops) && NewRecords(Events(ops)) && Distinct(Taken(Events(ops)))
    ensures KeptRight(Run(capacity, ops), Taken(Events(ops)), Arrived(Events(ops)))
  {
    TrackShowsMatch(capacity, ops);
    PlaySettles(Events(ops));
    WindowIsKept(Run(capacity, ops), Play(Events(ops)), Taken(Events(ops)), Arrived(Events(ops)));
  }

  lemma WindowIsKept(tr: Track, m: Match, keys: seq<Key>, records: map<Key, Record>)
    requires Shows(tr, m) && Settled(m, keys, records)
    ensures KeptRight(tr, keys, records)
  {
    forall i | 0 <= i < |tr.periods|
      ensures tr.periods[i] == Get(records, keys[tr.floor + i])
    {
      assert m.periods[tr.floor..][i] == m.periods[tr.floor + i];
    }
  }

  lemma {:induction false} FloorOf(capacity: nat, ops: seq<Op>)
    ensures Run(capacity, ops).floor == if Middles(Samples(ops)) <= capacity then 0 else Middles(Samples(ops)) - capacity
  {
    if ops != [] {
      var tr := Run(capacity, ops[..|ops| - 1]);
      FloorOf(capacity, ops[..|ops| - 1]);
      WindowPosition(capacity, ops[..|ops| - 1]);
      SamplesOf(capacity, ops[..|ops| - 1]);
      match ops[|ops| - 1]
      case MicOp(sub, start, n) =>
        MiddlesGrow(tr.samples, n);
      case AfeOp(_, _) =>
    }
  }

  // ---- when the periods' keys are distinct ----

  /** Each subscription's blocks come in one stretch and its capture positions never go back. */
  predicate OneStretch(ops: seq<Op>) {
    forall i, k :: 0 <= i < k < |ops| && ops[i].MicOp? && ops[k].MicOp? && ops[i].sub == ops[k].sub ==>
      && ops[i].start + ops[i].n <= ops[k].start
      && forall m :: i < m < k && ops[m].MicOp? ==> ops[m].sub == ops[i].sub
  }

  /** Keys of the current subscription never run ahead of `offset` periods. */
  predicate Spread(keys: seq<Key>, sub: int, offset: int) {
    Distinct(keys) && forall j :: 0 <= j < |keys| && keys[j].0 == sub ==> keys[j].1 - j <= offset
  }

  lemma SpreadStep(keys: seq<Key>, sub: int, offset: int, key: Key)
    requires Spread(keys, sub, offset) && key == (sub, offset + |keys|)
    ensures Spread(keys + [key], sub, offset)
  {
  }

  lemma {:induction false} BlockSpreads(keys: seq<Key>, sub: int, start: int, t: nat, lo: nat, hi: nat)
    requires |keys| == lo <= hi && Spread(keys, sub, (start - t + HALF) / AFE_PERIOD_SAMPLES)
    ensures var keys' := keys + Taken(BlockEvents(sub, start, t, lo, hi));
      && |keys'| == hi && Spread(keys', sub, (start - t + HALF) / AFE_PERIOD_SAMPLES)
      && forall j :: lo <= j < hi ==> keys'[j].0 == sub
    decreases hi
  {
    if hi > lo {
      BlockSpreads(keys, sub, start, t, lo, hi - 1);
      BlockSnoc(keys, sub, start, t, lo, hi);
      SpreadStep(keys + Taken(BlockEvents(sub, start, t, lo, hi - 1)), sub, (start - t + HALF) / AFE_PERIOD_SAMPLES, KeyOf(sub, start, t, hi - 1));
    } else {
      assert keys + Taken(BlockEvents(sub, start, t, lo, hi)) == keys;
    }
  }

  lemma {:induction false} BlockSnoc(keys: seq<Key>, sub: int, start: int, t: nat, lo: nat, hi: nat)
    requires lo < hi
    ensures keys + Taken(BlockEvents(sub, start, t, lo, hi)) == (keys + Taken(BlockEvents(sub, start, t, lo, hi - 1))) + [KeyOf(sub, start, t, hi - 1)]
  {
    var es, key := BlockEvents(sub, start, t, lo, hi - 1), KeyOf(sub, start, t, hi - 1);
    assert (es + [Take(key)])[..|es|] == es;
    assert Taken(BlockEvents(sub, start, t, lo, hi)) == Taken(es) + [key];
  }

  predicate Seen(ops: seq<Op>, sub: int) {
    exists i :: 0 <= i < |ops| && ops[i].MicOp? && ops[i].sub == sub
  }

  /** The last block taken, if any. */
  function LastBlock(ops: seq<Op>): (r: Option<Op>)
    ensures r.None? <==> forall i :: 0 <= i < |ops| ==> !ops[i].MicOp?
    ensures r.Some? ==> exists i :: 0 <= i < |ops| && ops[i] == r.value && r.value.MicOp? && forall k :: i < k < |ops| ==> !ops[k].MicOp?
  {
    if ops == [] then None
    else if ops[|ops| - 1].MicOp? then Some(ops[|ops| - 1])
    else
      var r := LastBlock(ops[..|ops| - 1]);
      assert r.Some? ==> exists i :: 0 <= i < |ops| - 1 && ops[i] == r.value && forall k :: i < k < |ops| - 1 ==> !ops[k].MicOp?;
      r
  }

  /** Where the current subscription's capture positions stand against the tap's, in periods. */
  function Offset(block: Op, samples: nat): int
    requires block.MicOp?
  {
    (block.start + block.n - samples + HALF) / AFE_PERIOD_SAMPLES
  }

  ghost predicate Stretched(ops: seq<Op>, keys: seq<Key>) {
    && Distinct(keys) && |keys| == Middles(Samples(ops))
    && (forall j :: 0 <= j < |keys| ==> Seen(ops, keys[j].0))
    && (LastBlock(ops).Some? ==> Spread(keys, LastBlock(ops).value.sub, Offset(LastBlock(ops).value, Samples(ops))))
  }

  lemma {:induction false} StretchSpreads(ops: seq<Op>)
    requires OneStretch(ops)
    ensures Stretched(ops, Taken(Events(ops)))
  {
    if ops != [] {
      var front, op := ops[..|ops| - 1], ops[|ops| - 1];
      StretchSpreads(front);
      PlayJoins(Events(front), OpEvents(op, Samples(front)));
      assert ops == front + [op];
      StretchStep(front, op, Taken(Events(front)));
    }
  }

  lemma StretchStep(front: seq<Op>, op: Op, keys: seq<Key>)
    requires OneStretch(front + [op]) && Stretched(front, keys)
    ensures Stretched(front + [op], keys + Taken(OpEvents(op, Samples(front))))
  {
    assert (front + [op])[..|front|] == front;
    SeenGrows(front, op);
    match op
    case AfeOp(sub, r) =>
      assert [Arrive(PeriodKey(sub, r), r)][..0] == [];
      assert keys + Taken(OpEvents(op, Samples(front))) == keys;
    case MicOp(sub, start, n) =>
      StretchBlock(front, op, keys);
  }

  lemma StretchBlock(front: seq<Op>, op: Op, keys: seq<Key>)
    requires op.MicOp? && OneStretch(front + [op]) && Stretched(front, keys)
    ensures Stretched(front + [op], keys + Taken(OpEvents(op, Samples(front))))
  {
    NextBlock(front, op, keys);
    var keys' := OpKeys(keys, op, Samples(front));
    BlockIsStretched(front, op, keys, keys');
  }

  /** More keys, all of one subscription. */
  predicate Grown(keys: seq<Key>, keys': seq<Key>, sub: int) {
    |keys| <= |keys'| && forall j :: 0 <= j < |keys'| ==> if j < |keys| then keys'[j] == keys[j] else keys'[j].0 == sub
  }

  lemma OpKeys(keys: seq<Key>, op: Op, t: nat) returns (keys': seq<Key>)
    requires op.MicOp? && |keys| == Middles(t) && Spread(keys, op.sub, (op.start - t + HALF) / AFE_PERIOD_SAMPLES)
    ensures keys' == keys + Taken(OpEvents(op, t)) && |keys'| == Middles(t + op.n)
    ensures Spread(keys', op.sub, (op.start - t + HALF) / AFE_PERIOD_SAMPLES) && Grown(keys, keys', op.sub)
  {
    MiddlesGrow(t, op.n);
    BlockSpreads(keys, op.sub, op.start, t, Middles(t), Middles(t + op.n));
    keys' := keys + Taken(OpEvents(op, t));
  }

  lemma BlockIsStretched(front: seq<Op>, op: Op, keys: seq<Key>, keys': seq<Key>)
    requires op.MicOp? && Stretched(front, keys) && |keys'| == Middles(Samples(front) + op.n)
    requires Grown(keys, keys', op.sub)
    requires Spread(keys', op.sub, (op.start - Samples(front) + HALF) / AFE_PERIOD_SAMPLES)
    ensures Stretched(front + [op], keys')
  {
    var ops := front + [op];
    assert ops[..|ops| - 1] == front && Samples(ops) == Samples(front) + op.n && LastBlock(ops) == Some(op);
    SeenGrows(front, op);
    forall j | 0 <= j < |keys'|
      ensures Seen(ops, keys'[j].0)
    {
      if j < |keys| {
        assert Seen(front, keys[j].0);
      }
    }
  }

  lemma SeenGrows(front: seq<Op>, op: Op)
    ensures forall sub :: Seen(front, sub) ==> Seen(front + [op], sub)
    ensures op.MicOp? ==> Seen(front + [op], op.sub)
  {
    forall sub | Seen(front, sub)
      ensures Seen(front + [op], sub)
    {
      var i :| 0 <= i < |front| && front[i].MicOp? && front[i].sub == sub;
      assert (front + [op])[i].MicOp?;
    }
    assert (front + [op])[|front|] == op;
  }

  /** A block that goes on in the current subscription, or starts one never seen, stays spread. */
  lemma NextBlock(front: seq<Op>, op: Op, keys: seq<Key>)
    requires op.MicOp? && OneStretch(front + [op]) && Stretched(front, keys)
    ensures Spread(keys, op.sub, (op.start - Samples(front) + HALF) / AFE_PERIOD_SAMPLES)
  {
    var all := front + [op];
    forall j | 0 <= j < |keys| && keys[j].0 == op.sub
      ensures keys[j].1 - j <= (op.start - Samples(front) + HALF) / AFE_PERIOD_SAMPLES
    {
      var i :| 0 <= i < |front| && front[i].MicOp? && front[i].sub == op.sub;
      var last := LastBlock(front).value;
      var m :| 0 <= m < |front| && front[m] == last && forall k :: m < k < |front| ==> !front[k].MicOp?;
      assert all[i] == front[i] && all[m] == last && all[|front|] == op;
      assert last.sub == op.sub;
      assert last.start + last.n <= op.start;
    }
  }

  /** With each subscription taken in one stretch at advancing capture positions, no two periods
      share a key, so the tap is order independent. */
  lemma StretchIsDistinct(ops: seq<Op>)
    requires OneStretch(ops)
    ensures Distinct(Taken(Events(ops)))
  {
    StretchSpreads(ops);
  }

  /** Advancing positions alone are not enough: going back to an earlier subscription can put two
      tap periods in one capture period. */
  lemma ReturningSubscriptionShares()
    ensures var ops := [MicOp(1, 0, 641), MicOp(2, 0, 1270), MicOp(1, 641, 10)];
      Taken(Events(ops)) == [(1, 0), (1, 0)]
  {
    var a, b, c := MicOp(1, 0, 641), MicOp(2, 0, 1270), MicOp(1, 641, 10);
    assert [a, b, c][..2] == [a, b] && [a, b][..1] == [a] && [a][..0] == [];
    assert Samples([]) == 0 && Samples([a]) == 641 && Samples([a, b]) == 1911;
    assert Middles(0) == 0 && Middles(641) == 1 && Middles(1911) == 1 && Middles(1921) == 2;
    assert OpEvents(a, 0) == BlockEvents(1, 0, 0, 0, 0) + [Take((1, 0))] == [Take((1, 0))];
    assert OpEvents(b, 641) == [];
    assert OpEvents(c, 1911) == BlockEvents(1, 641, 1911, 1, 1) + [Take((1, 0))] == [Take((1, 0))];
    assert Events([a]) == [] + [Take((1, 0))] && Events([a, b]) == Events([a]) + [];
    var es := Events([a, b, c]);
    assert es == [Take((1, 0)), Take((1, 0))] && es[..1] == [Take((1, 0))] && es[..1][..0] == [];
    assert Taken(es[..1]) == [(1, 0)];
  }
}

/** Order independence over the tap's own operations: the blocks come in one order, and the records
    anywhere between them. */
module TapOrder {
  import opened Basics
  import opened OrderedDicts
  import opened Matching
  import opened TrackSpec

  /** The blocks of a run, in order. */
  function Blocks(ops: seq<Op>): seq<Op> {
    if ops == [] then []
    else if ops[|ops| - 1].MicOp? then Blocks(ops[..|ops| - 1]) + [ops[|ops| - 1]]
    else Blocks(ops[..|ops| - 1])
  }

  /** No subscription brings two records of one period. */
  predicate NewOps(ops: seq<Op>) {
    forall i, k :: 0 <= i < k < |ops| && ops[i].AfeOp? && ops[k].AfeOp? ==>
      PeriodKey(ops[i].sub, ops[i].record) != PeriodKey(ops[k].sub, ops[k].record)
  }

  predicate Brings(ops: seq<Op>, sub: int, r: Record) { AfeOp(sub, r) in ops }

  /** The same blocks in the same order, and the same records in any order and at any time. */
  ghost predicate Interleaved(ops: seq<Op>, ops': seq<Op>) {
    && Blocks(ops) == Blocks(ops') && NewOps(ops) && NewOps(ops')
    && forall sub, r :: Brings(ops, sub, r) <==> Brings(ops', sub, r)
  }

  lemma {:induction false} EventsSnoc(front: seq<Op>, op: Op)
    ensures Events(front + [op]) == Events(front) + OpEvents(op, Samples(front))
    ensures Taken(Events(front + [op])) == Taken(Events(front)) + Taken(OpEvents(op, Samples(front)))
    ensures Samples(front + [op]) == Samples(front) + if op.MicOp? then op.n else 0
  {
    assert (front + [op])[..|front + [op]| - 1] == front;
    PlayJoins(Events(front), OpEvents(op, Samples(front)));
  }

  lemma OneArrival(k: Key, r: Record)
    ensures Taken([Arrive(k, r)]) == []
  {
    assert [Arrive(k, r)][..0] == [];
  }

  /** The periods taken depend on the blocks alone. */
  lemma {:induction false} TakenIsOfBlocks(ops: seq<Op>)
    ensures Taken(Events(ops)) == Taken(Events(Blocks(ops))) && Samples(ops) == Samples(Blocks(ops))
  {
    if ops != [] {
      var front, op := ops[..|ops| - 1], ops[|ops| - 1];
      assert ops == front + [op];
      TakenIsOfBlocks(front);
      TakenStep(front, Blocks(front), op);
    }
  }

  lemma {:induction false} TakenStep(front: seq<Op>, blocks: seq<Op>, op: Op)
    requires Taken(Events(front)) == Taken(Events(blocks)) && Samples(front) == Samples(blocks)
    ensures var blocks' := if op.MicOp? then blocks + [op] else blocks;
      Taken(Events(front + [op])) == Taken(Events(blocks')) && Samples(front + [op]) == Samples(blocks')
  {
    EventsSnoc(front, op);
    if op.MicOp? {
      EventsSnoc(blocks, op);
    } else {
      OneArrival(PeriodKey(op.sub, op.record), op.record);
      assert OpEvents(op, Samples(front)) == [Arrive(PeriodKey(op.sub, op.record), op.record)];
    }
  }

  /** The records a run brings, by period. */
  function Brought(ops: seq<Op>): map<Key, Record> {
    if ops == [] then map[]
    else
      var m, op := Brought(ops[..|ops| - 1]), ops[|ops| - 1];
      if op.AfeOp? then m[PeriodKey(op.sub, op.record) := op.record] else m
  }

  lemma {:induction false} BlockBringsNothing(es: seq<Event>, sub: int, start: int, t: nat, lo: nat, hi: nat)
    ensures Arrived(es + BlockEvents(sub, start, t, lo, hi)) == Arrived(es)
    ensures NewRecords(es) ==> NewRecords(es + BlockEvents(sub, start, t, lo, hi))
    decreases hi
  {
    if hi <= lo {
      assert es + BlockEvents(sub, start, t, lo, hi) == es;
    } else {
      BlockBringsNothing(es, sub, start, t, lo, hi - 1);
      var before := es + BlockEvents(sub, start, t, lo, hi - 1);
      assert es + BlockEvents(sub, start, t, lo, hi) == before + [Take(KeyOf(sub, start, t, hi - 1))];
      assert (before + [Take(KeyOf(sub, start, t, hi - 1))])[..|before|] == before;
    }
  }

  lemma {:induction false} ArrivedIsBrought(ops: seq<Op>)
    ensures Arrived(Events(ops)) == Brought(ops)
  {
    if ops != [] {
      var front, op := ops[..|ops| - 1], ops[|ops| - 1];
      assert ops == front + [op];
      ArrivedIsBrought(front);
      EventsSnoc(front, op);
      OpBrings(Events(front), op, Samples(front));
    }
  }

  /** What an operation's events bring after others. */
  lemma {:induction false} OpBrings(es: seq<Event>, op: Op, t: nat)
    ensures Arrived(es + OpEvents(op, t)) ==
      if op.AfeOp? then Arrived(es)[PeriodKey(op.sub, op.record) := op.record] else Arrived(es)
    ensures NewRecords(es) && (op.AfeOp? ==> PeriodKey(op.sub, op.record) !in Arrived(es)) ==> NewRecords(es + OpEvents(op, t))
  {
    match op
    case MicOp(sub, start, n) => BlockBringsNothing(es, sub, start, t, Middles(t), Middles(t + n));
    case AfeOp(sub, r) => OneBrings(es, PeriodKey(sub, r), r);
  }

  lemma {:induction false} OneBrings(es: seq<Event>, key: Key, r: Record)
    ensures Arrived(es + [Arrive(key, r)]) == Arrived(es)[key := r]
    ensures NewRecords(es) && key !in Arrived(es) ==> NewRecords(es + [Arrive(key, r)])
  {
    assert (es + [Arrive(key, r)])[..|es|] == es;
    ArrivedIs(es);
  }

  ghost predicate BroughtRight(ops: seq<Op>, m: map<Key, Record>) {
    && (forall sub, r :: Brings(ops, sub, r) ==> PeriodKey(sub, r) in m && m[PeriodKey(sub, r)] == r)
    && forall k :: k in m ==> Brings(ops, k.0, m[k]) && PeriodKey(k.0, m[k]) == k
  }

  lemma {:induction false} BroughtIs(ops: seq<Op>)
    requires NewOps(ops)
    ensures BroughtRight(ops, Brought(ops))
  {
    if ops != [] {
      var front, op := ops[..|ops| - 1], ops[|ops| - 1];
      BroughtIs(front);
      forall sub, r | Brings(ops, sub, r) && AfeOp(sub, r) != op
        ensures Brings(front, sub, r) && (op.AfeOp? ==> PeriodKey(sub, r) != PeriodKey(op.sub, op.record))
      {
        var i :| 0 <= i < |ops| && ops[i] == AfeOp(sub, r);
        assert front[i] == AfeOp(sub, r);
      }
      assert forall sub, r :: Brings(front, sub, r) ==> Brings(ops, sub, r);
      assert op.AfeOp? ==> Brings(ops, op.sub, op.record);
    }
  }

  lemma {:induction false} NewOpsNewRecords(ops: seq<Op>)
    requires NewOps(ops)
    ensures NewRecords(Events(ops))
  {
    if ops != [] {
      var front, op := ops[..|ops| - 1], ops[|ops| - 1];
      assert ops == front + [op];
      NewOpsNewRecords(front);
      EventsSnoc(front, op);
      if op.AfeOp? {
        NotYetBrought(front, op);
      }
      OpBrings(Events(front), op, Samples(front));
    }
  }

  lemma {:induction false} NotYetBrought(front: seq<Op>, op: Op)
    requires op.AfeOp? && NewOps(front + [op])
    ensures PeriodKey(op.sub, op.record) !in Arrived(Events(front))
  {
    var all, k := front + [op], PeriodKey(op.sub, op.record);
    assert forall i :: 0 <= i < |front| ==> all[i] == front[i];
    ArrivedIsBrought(front);
    BroughtIs(front);
    forall sub, r | Brings(front, sub, r)
      ensures PeriodKey(sub, r) != k
    {
      var i :| 0 <= i < |front| && front[i] == AfeOp(sub, r);
      assert all[|front|] == op && all[i] == front[i];
    }
  }

  /** Interleaving the same blocks and records differently changes neither the periods taken nor the
      records that come. */
  lemma {:induction false} SameEvents(ops: seq<Op>, ops': seq<Op>)
    requires Interleaved(ops, ops')
    ensures Taken(Events(ops)) == Taken(Events(ops')) && Samples(ops) == Samples(ops')
    ensures Arrived(Events(ops)) == Arrived(Events(ops'))
    ensures NewRecords(Events(ops)) && NewRecords(Events(ops'))
  {
    TakenIsOfBlocks(ops);
    TakenIsOfBlocks(ops');
    ArrivedIsBrought(ops);
    ArrivedIsBrought(ops');
    BroughtIs(ops);
    BroughtIs(ops');
    SameBrought(Brought(ops), Brought(ops'), ops, ops');
    NewOpsNewRecords(ops);
    NewOpsNewRecords(ops');
  }

  lemma {:induction false} SameBrought(m: map<Key, Record>, m': map<Key, Record>, ops: seq<Op>, ops': seq<Op>)
    requires BroughtRight(ops, m) && BroughtRight(ops', m') && Interleaved(ops, ops')
    ensures m == m'
  {
    forall k
      ensures k in m <==> k in m'
      ensures k in m ==> m[k] == m'[k]
    {
      if k in m {
        assert Brings(ops', k.0, m[k]);
      }
      if k in m' {
        assert Brings(ops, k.0, m'[k]);
      }
    }
  }

  /** Order independence of the recording tap: with each subscription taken in one stretch, the
      records may come in any order and at any time between the blocks; while nothing gives up
      waiting, the kept periods are the same, each its key's one record or none. */
  lemma {:induction false} TapOrderIndependent(capacity: nat, ops: seq<Op>, ops': seq<Op>)
    requires OneStretch(ops) && Interleaved(ops, ops') && Quiet(capacity, ops) && Quiet(capacity, ops')
    ensures Run(capacity, ops).periods == Run(capacity, ops').periods && Run(capacity, ops).floor == Run(capacity, ops').floor
    ensures KeptRight(Run(capacity, ops), Taken(Events(ops)), Brought(ops))
  {
    SameEvents(ops, ops');
    StretchIsDistinct(ops);
    ArrivedIsBrought(ops);
    SameEventsSamePeriods(capacity, ops, ops');
  }

  // ---- and only with distinct keys ----

  function Arrivals(ops: seq<Op>): nat {
    if ops == [] then 0 else Arrivals(ops[..|ops| - 1]) + if ops[|ops| - 1].AfeOp? then 1 else 0
  }

  predicate AllBlocks(ops: seq<Op>) {
    forall i :: 0 <= i < |ops| ==> ops[i].MicOp?
  }

  lemma NothingExpires(waiting: seq<(Key, nat)>, limit: int)
    requires Unique(waiting) && limit <= 0
    ensures Expired(waiting, limit) == waiting
  {
  }

  lemma {:induction false} BlockEarly(tr: Track, sub: int, start: int, t: nat, lo: nat, hi: nat)
    requires Proper(tr)
    ensures |TakeBlock(tr, sub, start, t, lo, hi).early| <= |tr.early|
    decreases hi
  {
    if hi > lo {
      BlockEarly(tr, sub, start, t, lo, hi - 1);
    }
  }

  predicate Short(ops: seq<Op>) { Middles(Samples(ops)) <= WAIT_PERIODS && Arrivals(ops) <= WAIT_PERIODS }

  lemma {:induction false} ShortFront(front: seq<Op>, op: Op)
    requires Short(front + [op])
    ensures Short(front)
  {
    assert (front + [op])[..|front|] == front;
    MiddlesGrow(Samples(front), if op.MicOp? then op.n else 0);
  }

  lemma {:induction false} ShortSnoc(capacity: nat, front: seq<Op>, op: Op)
    requires Short(front + [op]) && Short(front)
    requires Quiet(capacity, front) && |Run(capacity, front).early| <= Arrivals(front)
    ensures Quiet(capacity, front + [op]) && |Run(capacity, front + [op]).early| <= Arrivals(front + [op])
  {
    assert (front + [op])[..|front|] == front;
    ShortStep(capacity, front, op);
  }

  /** A run no longer than the wait, with no more records than that, has nothing give up. */
  lemma {:induction false} ShortIsQuiet(capacity: nat, ops: seq<Op>)
    requires Short(ops)
    ensures Quiet(capacity, ops) && |Run(capacity, ops).early| <= Arrivals(ops)
  {
    if ops != [] {
      var front, op := ops[..|ops| - 1], ops[|ops| - 1];
      assert ops == front + [op];
      ShortFront(front, op);
      ShortIsQuiet(capacity, front);
      ShortSnoc(capacity, front, op);
    }
  }

  lemma {:induction false} ShortStep(capacity: nat, front: seq<Op>, op: Op)
    requires Middles(Samples(front) + if op.MicOp? then op.n else 0) <= WAIT_PERIODS
    requires |Run(capacity, front).early| <= Arrivals(front) <= WAIT_PERIODS - if op.AfeOp? then 1 else 0
    ensures var tr := Run(capacity, front);
      QuietStep(tr, capacity, op) && |Apply(tr, capacity, op).early| <= Arrivals(front) + if op.AfeOp? then 1 else 0
  {
    SamplesOf(capacity, front);
    WindowPosition(capacity, front);
    if op.MicOp? {
      ShortBlock(Run(capacity, front), capacity, op.sub, op.start, op.n);
    }
  }

  lemma {:induction false} ShortBlock(tr: Track, capacity: nat, sub: int, start: int, n: nat)
    requires Proper(tr) && tr.floor + |tr.periods| == Middles(tr.samples) && Middles(tr.samples + n) <= WAIT_PERIODS
    ensures QuietStep(tr, capacity, MicOp(sub, start, n)) && |Mic(tr, capacity, sub, start, n).early| <= |tr.early|
  {
    MiddlesGrow(tr.samples, n);
    BlockEarly(tr.(samples := tr.samples + n), sub, start, tr.samples, Middles(tr.samples), Middles(tr.samples + n));
    var u := Taking(tr, capacity, sub, start, n);
    assert Limit(u) <= 0;
    NothingExpires(u.waiting, Limit(u));
  }

  lemma {:induction false} BlockIsTakes(es: seq<Event>, sub: int, start: int, t: nat, lo: nat, hi: nat)
    requires es == Takes(Taken(es))
    ensures var all := es + BlockEvents(sub, start, t, lo, hi); all == Takes(Taken(all))
    decreases hi
  {
    if hi <= lo {
      assert es + BlockEvents(sub, start, t, lo, hi) == es;
    } else {
      BlockIsTakes(es, sub, start, t, lo, hi - 1);
      var before, e := es + BlockEvents(sub, start, t, lo, hi - 1), Take(KeyOf(sub, start, t, hi - 1));
      assert es + BlockEvents(sub, start, t, lo, hi) == before + [e];
      TakesGrow(before, e.key);
    }
  }

  lemma {:induction false} TakesGrow(es: seq<Event>, key: Key)
    requires es == Takes(Taken(es))
    ensures es + [Take(key)] == Takes(Taken(es + [Take(key)]))
  {
    assert (es + [Take(key)])[..|es|] == es;
    TakesSnoc(Taken(es) + [key]);
    assert (Taken(es) + [key])[..|Taken(es)|] == Taken(es);
  }

  /** Blocks alone only take periods. */
  lemma {:induction false} BlocksTake(mics: seq<Op>)
    requires AllBlocks(mics)
    ensures Events(mics) == Takes(Taken(Events(mics)))
  {
    if mics != [] {
      BlocksTake(mics[..|mics| - 1]);
      BlockTakesMore(mics[..|mics| - 1], mics[|mics| - 1]);
      Rebuilt(mics[|mics| - 1], mics);
    }
  }

  lemma {:induction false} BlockTakesMore(front: seq<Op>, op: Op)
    requires op.MicOp? && Events(front) == Takes(Taken(Events(front)))
    ensures Events(front + [op]) == Takes(Taken(Events(front + [op])))
  {
    var t := Samples(front);
    BlockComesLast(front, op);
    TakesAdded(Events(front + [op]), Events(front), op, t, Middles(t), Middles(t + op.n));
  }

  lemma {:induction false} BlockComesLast(front: seq<Op>, op: Op)
    requires op.MicOp?
    ensures var t := Samples(front);
      Events(front + [op]) == Events(front) + BlockEvents(op.sub, op.start, t, Middles(t), Middles(t + op.n))
  {
    EventsSnoc(front, op);
  }

  lemma {:induction false} TakesAdded(all: seq<Event>, es: seq<Event>, op: Op, t: nat, lo: nat, hi: nat)
    requires op.MicOp? && es == Takes(Taken(es)) && all == es + BlockEvents(op.sub, op.start, t, lo, hi)
    ensures all == Takes(Taken(all))
  {
    BlockIsTakes(es, op.sub, op.start, t, lo, hi);
  }

  lemma {:induction false} BlocksOnly(mics: seq<Op>)
    requires AllBlocks(mics)
    ensures Blocks(mics) == mics && Arrivals(mics) == 0 && NewOps(mics)
    ensures forall sub, r :: !Brings(mics, sub, r)
  {
    if mics != [] {
      var front, op := mics[..|mics| - 1], mics[|mics| - 1];
      BlocksOnly(front);
      assert mics == front + [op];
    }
  }

  lemma {:induction false} EventsAfter(before: seq<Op>, front: seq<Op>, op: Op, e: Event)
    requires Events(before) == [e] + Events(front) && Samples(before) == Samples(front)
    ensures Events(before + [op]) == [e] + Events(front + [op]) && Samples(before + [op]) == Samples(front + [op])
  {
    EventsSnoc(before, op);
    EventsSnoc(front, op);
    OneBefore(e, Events(front), OpEvents(op, Samples(front)));
  }

  lemma OneBefore(e: Event, es: seq<Event>, more: seq<Event>)
    ensures ([e] + es) + more == [e] + (es + more)
  {
  }

  lemma OneRecord(sub: int, r: Record)
    ensures Events([AfeOp(sub, r)]) == [Arrive(PeriodKey(sub, r), r)] && Samples([AfeOp(sub, r)]) == 0
  {
    assert [AfeOp(sub, r)][..0] == [];
  }

  /** One record before all the blocks. */
  lemma {:induction false} RecordBefore(mics: seq<Op>, sub: int, r: Record)
    ensures var ops := [AfeOp(sub, r)] + mics;
      Events(ops) == [Arrive(PeriodKey(sub, r), r)] + Events(mics) && Samples(ops) == Samples(mics)
  {
    if mics == [] {
      assert [AfeOp(sub, r)] + mics == [AfeOp(sub, r)];
      OneRecord(sub, r);
    } else {
      var front, op := mics[..|mics| - 1], mics[|mics| - 1];
      RecordBefore(front, sub, r);
      EventsAfter([AfeOp(sub, r)] + front, front, op, Arrive(PeriodKey(sub, r), r));
      Rebuilt(AfeOp(sub, r), mics);
    }
  }

  lemma Rebuilt(first: Op, rest: seq<Op>)
    requires rest != []
    ensures rest[..|rest| - 1] + [rest[|rest| - 1]] == rest
    ensures [first] + rest[..|rest| - 1] + [rest[|rest| - 1]] == [first] + rest
  {
  }

  lemma {:induction false} BlocksAfter(mics: seq<Op>, sub: int, r: Record)
    requires AllBlocks(mics)
    ensures Arrivals([AfeOp(sub, r)] + mics) == 1 && Blocks([AfeOp(sub, r)] + mics) == mics
  {
    if mics == [] {
      assert [AfeOp(sub, r)] + mics == [AfeOp(sub, r)] && [AfeOp(sub, r)][..0] == [];
      assert Blocks([AfeOp(sub, r)]) == Blocks([AfeOp(sub, r)][..0]);
    } else {
      var front, op := mics[..|mics| - 1], mics[|mics| - 1];
      BlocksAfter(front, sub, r);
      BlockLast([AfeOp(sub, r)] + front, op);
      Rebuilt(AfeOp(sub, r), mics);
    }
  }

  lemma {:induction false} BlockLast(front: seq<Op>, op: Op)
    requires op.MicOp?
    ensures Blocks(front + [op]) == Blocks(front) + [op] && Arrivals(front + [op]) == Arrivals(front)
  {
    assert (front + [op])[..|front|] == front;
  }

  /** One record after all the blocks. */
  lemma {:induction false} RecordAtEnd(mics: seq<Op>, sub: int, r: Record)
    requires AllBlocks(mics)
    ensures var ops := mics + [AfeOp(sub, r)];
      && Events(ops) == Events(mics) + [Arrive(PeriodKey(sub, r), r)] && Samples(ops) == Samples(mics)
      && Arrivals(ops) == 1 && Blocks(ops) == mics
  {
    var ops := mics + [AfeOp(sub, r)];
    assert ops[..|ops| - 1] == mics;
    BlocksOnly(mics);
  }

  lemma {:induction false} OneRecordInterleaves(mics: seq<Op>, sub: int, r: Record)
    requires AllBlocks(mics)
    ensures Interleaved([AfeOp(sub, r)] + mics, mics + [AfeOp(sub, r)])
  {
    BlocksAfter(mics, sub, r);
    RecordAtEnd(mics, sub, r);
    BlocksOnly(mics);
    var ops, ops' := [AfeOp(sub, r)] + mics, mics + [AfeOp(sub, r)];
    forall sub', r'
      ensures Brings(ops, sub', r') <==> sub' == sub && r' == r
      ensures Brings(ops', sub', r') <==> sub' == sub && r' == r
    {
      assert !Brings(mics, sub', r');
      assert ops[0] == AfeOp(sub, r) && ops'[|mics|] == AfeOp(sub, r);
    }
  }

  /** Two of the periods share a key: their record brought first or last makes two runs of the tap
      that differ, though nothing gives up waiting in either. */
  lemma {:induction false} SharedKeyRuns(capacity: nat, mics: seq<Op>) returns (ops: seq<Op>, ops': seq<Op>)
    requires AllBlocks(mics) && !Distinct(Taken(Events(mics)))
    requires Middles(Samples(mics)) <= capacity && Middles(Samples(mics)) <= WAIT_PERIODS
    ensures Blocks(ops) == mics && Interleaved(ops, ops') && Quiet(capacity, ops) && Quiet(capacity, ops')
    ensures Run(capacity, ops).periods != Run(capacity, ops').periods
  {
    var keys := Taken(Events(mics));
    var i, j :| 0 <= i < j < |keys| && keys[i] == keys[j];
    var first := FirstOf(keys, keys[i]);
    var sub, r := keys[i].0, Record(keys[i].1 * AFE_PERIOD_SAMPLES, 0);
    assert PeriodKey(sub, r) == keys[i];
    ops, ops' := [AfeOp(sub, r)] + mics, mics + [AfeOp(sub, r)];
    OneRecordInterleaves(mics, sub, r);
    BlocksTake(mics);
    RecordBefore(mics, sub, r);
    BlocksAfter(mics, sub, r);
    RecordAtEnd(mics, sub, r);
    RecordFirst(keys[i], r, keys, first);
    RecordAfter(keys, keys[i], r, first, j);
    WholeWindow(capacity, ops);
    WholeWindow(capacity, ops');
  }

  /** A run that fits the wait and the window shows every period of its matching. */
  lemma {:induction false} WholeWindow(capacity: nat, ops: seq<Op>)
    requires Middles(Samples(ops)) <= capacity && Middles(Samples(ops)) <= WAIT_PERIODS && Arrivals(ops) <= WAIT_PERIODS
    ensures Quiet(capacity, ops) && Run(capacity, ops).periods == Play(Events(ops)).periods
  {
    ShortIsQuiet(capacity, ops);
    TrackShowsMatch(capacity, ops);
    FloorOf(capacity, ops);
  }

  ghost predicate AnyOrder(capacity: nat, mics: seq<Op>) {
    forall ops, ops' :: Blocks(ops) == mics && Interleaved(ops, ops') && Quiet(capacity, ops) && Quiet(capacity, ops') ==>
      Run(capacity, ops).periods == Run(capacity, ops').periods
  }

  /** The exact condition on the blocks taken: within the wait and the window, the order in which
      records come never matters if and only if no two tap periods fall in one capture period. */
  lemma {:induction false} TapOrderIndependentIff(capacity: nat, mics: seq<Op>)
    requires AllBlocks(mics) && Middles(Samples(mics)) <= capacity && Middles(Samples(mics)) <= WAIT_PERIODS
    ensures AnyOrder(capacity, mics) <==> Distinct(Taken(Events(mics)))
  {
    if Distinct(Taken(Events(mics))) {
      forall ops, ops' | Blocks(ops) == mics && Interleaved(ops, ops') && Quiet(capacity, ops) && Quiet(capacity, ops')
        ensures Run(capacity, ops).periods == Run(capacity, ops').periods
      {
        SameEvents(ops, ops');
        TakenIsOfBlocks(ops);
        SameEventsSamePeriods(capacity, ops, ops');
      }
    } else {
      var ops, ops' := SharedKeyRuns(capacity, mics);
    }
  }

  /** The subscription that comes back: the same three blocks and the same record, brought first or
      last, leave different periods in the tap. */
  lemma {:induction false} ReturningSubscriptionDiffers(capacity: nat)
    requires capacity >= 2
    ensures var mics, r := [MicOp(1, 0, 641), MicOp(2, 0, 1270), MicOp(1, 641, 10)], Record(0, 0);
      var ops, ops' := [AfeOp(1, r)] + mics, mics + [AfeOp(1, r)];
      && Interleaved(ops, ops') && Quiet(capacity, ops) && Quiet(capacity, ops')
      && |Run(capacity, ops).periods| == 2 == |Run(capacity, ops').periods|
      && Run(capacity, ops).periods[0] == Some(r) && Run(capacity, ops').periods[0] == None
  {
    var mics, r := [MicOp(1, 0, 641), MicOp(2, 0, 1270), MicOp(1, 641, 10)], Record(0, 0);
    var keys, k := [(1, 0), (1, 0)], (1, 0);
    ReturningSubscriptionShares();
    ReturningSamples();
    OneRecordInterleaves(mics, 1, r);
    BlocksTake(mics);
    RecordBefore(mics, 1, r);
    BlocksAfter(mics, 1, r);
    RecordAtEnd(mics, 1, r);
    assert PeriodKey(1, r) == k;
    RecordFirst(k, r, keys, 0);
    RecordAfter(keys, k, r, 0, 1);
    WholeWindow(capacity, [AfeOp(1, r)] + mics);
    WholeWindow(capacity, mics + [AfeOp(1, r)]);
  }

  lemma ReturningSamples()
    ensures var mics := [MicOp(1, 0, 641), MicOp(2, 0, 1270), MicOp(1, 641, 10)];
      Samples(mics) == 1921 && Middles(1921) == 2
  {
    var a, b, c := MicOp(1, 0, 641), MicOp(2, 0, 1270), MicOp(1, 641, 10);
    assert [a, b, c][..2] == [a, b] && [a, b][..1] == [a] && [a][..0] == [];
    assert Samples([a]) == 641 && Samples([a, b]) == 1911;
  }
}

module AfeTracks {
  import opened Basics
  import opened OrderedDicts
  import opened Matching
  import opened TrackSpec

  datatype SeriesFault = WhollyOlder

  /** The first period starting at or after tap sample b: ceil(b / 1280). */
  function PeriodsEnd(b: nat): (e: nat)
    ensures AFE_PERIOD_SAMPLES * (e - 1) < b <= AFE_PERIOD_SAMPLES * e
  {
    -((0 - b) / AFE_PERIOD_SAMPLES)
  }

  /** The tap in place: its view moves by `TrackSpec.Mic` and `TrackSpec.AfeAll`, so the theorems
      above are about it. */
  class AfeTrack {
    const capacity: nat
    var samples: nat
    var floor: nat
    var periods: seq<Option<Record>>
    var waiting: seq<(Key, nat)>
    var early: seq<(Key, Record)>

    function View(): Track
      reads this
    {
      Track(samples, floor, periods, waiting, early)
    }

    predicate Valid()
      reads this
    {
      Proper(View())
    }

    constructor (capacity: nat)
      ensures Valid() && this.capacity == capacity && View() == Run(capacity, [])
    {
      this.capacity := capacity;
      samples, floor, periods, waiting, early := 0, 0, [], [], [];
    }

    /** The tap took capture samples [start, start + n) of a subscription. */
    method Mic(sub: int, start: int, n: nat)
      requires Valid()
      modifies this
      ensures Valid() && View() == TrackSpec.Mic(old(View()), capacity, sub, start, n)
    {
      MiddlesGrow(samples, n);
      TakeUpTo(sub, start, n, Middles(samples), Middles(samples + n));
      GiveUp(floor + |periods| - WAIT_PERIODS);
    }

    /** The block's periods join the window, and the oldest beyond its capacity leave. */
    method TakeUpTo(sub: int, start: int, n: nat, first: nat, end: nat)
      requires Valid() && first <= end
      modifies this
      ensures Valid() && View() == TakingTo(old(View()), capacity, sub, start, n, first, end)
    {
      var t := samples;
      samples := samples + n;
      TakePeriods(sub, start, t, first, end);
      DropOldest();
    }

    /** Claims tap periods [first, end), in order. */
    method TakePeriods(sub: int, start: int, t: nat, first: nat, end: nat)
      requires Valid() && first <= end
      modifies this
      ensures Valid() && View() == TakeBlock(old(View()), sub, start, t, first, end)
    {
      for j := first to end
        invariant Valid() && View() == TakeBlock(old(View()), sub, start, t, first, j)
      {
        Claim((sub, (start + j * AFE_PERIOD_SAMPLES + HALF - t) / AFE_PERIOD_SAMPLES), j);
        assert TakeBlock(old(View()), sub, start, t, first, j + 1)
          == TakeOne(TakeBlock(old(View()), sub, start, t, first, j), KeyOf(sub, start, t, j), j);
      }
    }

    /** One more period: its record if that came early, else it waits. */
    method Claim(key: Key, j: nat)
      requires Valid()
      modifies this
      ensures Valid() && View() == TakeOne(old(View()), key, j)
    {
      var i := IndexOf(early, key);
      if i.Some? {
        periods := periods + [Some(early[i.value].1)];
        early := Remove(early, key);
      } else {
        waiting := Put(waiting, key, j);
        periods := periods + [None];
      }
    }

    method DropOldest()
      requires Valid()
      modifies this`periods, this`floor
      ensures Valid() && View() == Cap(old(View()), capacity)
    {
      while |periods| > capacity
        invariant Cap(View(), capacity) == Cap(old(View()), capacity)
      {
        periods := periods[1..];
        floor := floor + 1;
      }
    }

    method GiveUp(limit: int)
      requires Valid()
      modifies this`waiting
      ensures Valid() && waiting == Expired(old(waiting), limit)
    {
      while waiting != [] && waiting[0].1 < limit
        invariant Valid() && Expired(waiting, limit) == Expired(old(waiting), limit)
        decreases |waiting|
      {
        waiting := waiting[1..];
      }
    }

    /** Hands in records of one subscription: each goes to its waiting period or is kept early. */
    method Afe(sub: int, records: seq<Record>)
      requires Valid()
      modifies this
      ensures Valid() && View() == AfeAll(old(View()), sub, records)
    {
      for n := 0 to |records|
        invariant Valid() && View() == AfeAll(old(View()), sub, records[..n])
      {
        assert records[..n + 1][..n] == records[..n];
        var r := records[n];
        var key := (sub, r.start / AFE_PERIOD_SAMPLES);
        var i := IndexOf(waiting, key);
        if i.None? {
          early := Put(early, key, r);
          if |early| > WAIT_PERIODS {
            early := early[1..];
          }
        } else {
          var j := waiting[i.value].1;
          waiting := Remove(waiting, key);
          if floor <= j < floor + |periods| {
            periods := periods[j - floor := Some(r)];
          }
        }
      }
      assert records[..|records|] == records;
    }

    /** Tap period j as kept: none outside the window. */
    function Kept(j: int): Option<Record>
      reads this
    {
      if floor <= j < floor + |periods| then periods[j - floor] else None
    }

    /** The kept records of the periods touching tap samples [a, b), or none if all of those are
        empty. It fails exactly if they all lie below the window. */
    method Series(a: nat, b: nat) returns (r: Result<Option<seq<Option<Record>>>, SeriesFault>)
      requires Valid() && a <= b
      ensures r.Err? <==> PeriodsEnd(b) < floor
      ensures r.Ok? ==>
        var first, last := a / AFE_PERIOD_SAMPLES, PeriodsEnd(b);
        if forall j :: first <= j < last ==> Kept(j).None? then r.value.None?
        else r.value.Some? && |r.value.value| == last - first && forall j :: first <= j < last ==> r.value.value[j - first] == Kept(j)
    {
      var first, last := a / AFE_PERIOD_SAMPLES, PeriodsEnd(b);
      var lo := if (if first < floor then floor else first) < last then (if first < floor then floor else first) else last;
      var top := if last < floor + |periods| then last else floor + |periods|;
      var hi := if top < lo then lo else top;
      if lo < floor {
        return Err(WhollyOlder);
      }
      var records := [];
      var some := false;
      for j := first to last
        invariant |records| == j - first && forall k :: first <= k < j ==> records[k - first] == Kept(k)
        invariant some <==> exists k :: first <= k < j && Kept(k).Some?
      {
        var kept := if lo <= j < hi then periods[j - floor] else None;
        assert kept == Kept(j);
        some := some || kept.Some?;
        records := records + [kept];
      }
      r := Ok(if some then Some(records) else None);
    }
  }
}
