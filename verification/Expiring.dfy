/** Which record each tap period shows, in any run: periods that give up waiting and early records that
    are pushed out included (controller/em_afe.py, `AfeTrack`). */
module Expiring {
  import opened Basics
  import opened OrderedDicts
  import opened Matching
  import opened TrackSpec
  import opened TapOrder

  /** The keys of the periods taken, in order. */
  function Keys(ops: seq<Op>): seq<Key> { Taken(Events(ops)) }

  /** How many periods the tap has taken. */
  function Count(ops: seq<Op>): nat { Middles(Samples(ops)) }

  function KeyAt(op: Op): Key
    requires op.AfeOp?
  {
    PeriodKey(op.sub, op.record)
  }

  predicate Came(ops: seq<Op>, x: nat) { x < |ops| && ops[x].AfeOp? }

  /** One of these periods is record x's, and had not given up when it came. */
  predicate Claimed(ops: seq<Op>, keys: seq<Key>, x: nat)
    requires Came(ops, x)
  {
    exists j :: 0 <= j < |keys| && keys[j] == KeyAt(ops[x]) && Count(ops[..x]) <= j + WAIT_PERIODS
  }

  /** The records after x that no period has claimed. */
  function Later(ops: seq<Op>, keys: seq<Key>, x: nat): set<nat> {
    set y: nat | x < y < |ops| && ops[y].AfeOp? && !Claimed(ops, keys, y)
  }

  /** So many that x, the oldest, is pushed out. */
  predicate Crowded(ops: seq<Op>, x: nat) { |Later(ops, Keys(ops), x)| >= WAIT_PERIODS }

  /** When the record at e came, it pushed out x. */
  predicate PushedBy(ops: seq<Op>, x: nat, e: nat) {
    x < e && Came(ops, e) && Crowded(ops[..e + 1], x)
  }

  /** Record x is period j's: it has its key, came while j had not given up, and was not pushed out
      before j was taken. */
  ghost predicate Placed(ops: seq<Op>, keys: seq<Key>, x: nat, j: nat) {
    && Came(ops, x) && j < |keys| && keys[j] == KeyAt(ops[x]) && Count(ops[..x]) <= j + WAIT_PERIODS
    && forall e: nat :: PushedBy(ops, x, e) ==> j < Count(ops[..e])
  }

  ghost predicate Unplaced(ops: seq<Op>, keys: seq<Key>, j: nat) {
    forall x: nat :: !Placed(ops, keys, x, j)
  }

  /** Period j shows its record, and none if it has none. */
  ghost predicate Shown(ops: seq<Op>, keys: seq<Key>, j: nat, p: Option<Record>) {
    && (forall x: nat :: Placed(ops, keys, x, j) ==> p == Some(ops[x].record))
    && (Unplaced(ops, keys, j) ==> p.None?)
  }

  /** The window ends at the newest period, and each period in it shows its record. */
  ghost predicate ShowsRecords(ops: seq<Op>, keys: seq<Key>, tr: Track) {
    && tr.floor + |tr.periods| == |keys|
    && forall i :: 0 <= i < |tr.periods| ==> Shown(ops, keys, tr.floor + i, tr.periods[i])
  }

  /** What every period taken shows, kept in the window or not. */
  ghost predicate Told(ops: seq<Op>, keys: seq<Key>, all: seq<Option<Record>>) {
    |all| == |keys| && forall j :: 0 <= j < |all| ==> Shown(ops, keys, j, all[j])
  }

  predicate Window(all: seq<Option<Record>>, tr: Track) {
    tr.floor + |tr.periods| == |all| && all[tr.floor..] == tr.periods
  }

  // ---- what waits, and what is early ----

  /** The empty periods from the limit on, oldest first. */
  predicate Waits(keys: seq<Key>, all: seq<Option<Record>>, waiting: seq<(Key, nat)>, limit: int) {
    && |all| == |keys|
    && (forall a, b :: 0 <= a < b < |waiting| ==> waiting[a].1 < waiting[b].1)
    && (forall a :: 0 <= a < |waiting| ==> WaitsAt(keys, all, waiting[a], limit))
    && (forall j: nat {:trigger IsIn(keys, waiting, j)} :: limit <= j < |keys| && all[j].None? ==> IsIn(keys, waiting, j))
  }

  predicate IsIn(keys: seq<Key>, waiting: seq<(Key, nat)>, j: nat)
    requires j < |keys|
  {
    exists a :: 0 <= a < |waiting| && waiting[a] == (keys[j], j)
  }

  predicate WaitsAt(keys: seq<Key>, all: seq<Option<Record>>, w: (Key, nat), limit: int)
    requires |all| == |keys|
  {
    limit <= w.1 < |keys| && keys[w.1] == w.0 && all[w.1].None?
  }

  /** Record x is unclaimed and no record before `end` pushed it out. */
  ghost predicate Held(ops: seq<Op>, keys: seq<Key>, x: nat, end: nat) {
    Came(ops, x) && !Claimed(ops, keys, x) && forall e: nat :: e < end ==> !PushedBy(ops, x, e)
  }

  /** The held records, oldest first. */
  ghost predicate HeldAre(ops: seq<Op>, keys: seq<Key>, at: seq<nat>, end: nat) {
    && Ascends(at) && (forall p :: 0 <= p < |at| ==> Held(ops, keys, at[p], end))
    && (forall x: nat :: Held(ops, keys, x, end) ==> x in at)
  }

  predicate Listed(ops: seq<Op>, early: seq<(Key, Record)>, at: seq<nat>) {
    |early| == |at| && forall p :: 0 <= p < |at| ==> IsAt(ops, early[p], at[p])
  }

  predicate IsAt(ops: seq<Op>, w: (Key, Record), x: nat) {
    Came(ops, x) && w == (KeyAt(ops[x]), ops[x].record)
  }

  predicate Ascends(at: seq<nat>) {
    forall p, q :: 0 <= p < q < |at| ==> at[p] < at[q]
  }

  /** What the tap holds against what it should: `all` and `at` stand for the ideal. */
  predicate Holds(ops: seq<Op>, keys: seq<Key>, all: seq<Option<Record>>, at: seq<nat>, tr: Track, limit: int) {
    && Proper(tr) && Window(all, tr) && Waits(keys, all, tr.waiting, limit)
    && Listed(ops, tr.early, at) && |tr.early| <= WAIT_PERIODS
  }

  ghost predicate Ideal(ops: seq<Op>, keys: seq<Key>, all: seq<Option<Record>>, at: seq<nat>) {
    Told(ops, keys, all) && HeldAre(ops, keys, at, |ops|)
  }

  ghost predicate Sound(ops: seq<Op>, keys: seq<Key>, tr: Track, limit: int) {
    exists all: seq<Option<Record>>, at: seq<nat> :: Ideal(ops, keys, all, at) && Holds(ops, keys, all, at, tr, limit)
  }

  // ---- counting the early ones ----

  lemma {:induction false} SubsetSize(a: set<nat>, b: set<nat>)
    requires a <= b
    ensures |a| <= |b|
  {
    if a != {} {
      var x :| x in a;
      SubsetSize(a - {x}, b - {x});
    }
  }

  function Members(at: seq<nat>): set<nat> { set p | 0 <= p < |at| :: at[p] }

  lemma {:induction false} AscendingSize(at: seq<nat>)
    requires Ascends(at)
    ensures |Members(at)| == |at|
  {
    if at != [] {
      var n := |at| - 1;
      AscendingSize(at[..n]);
      assert Members(at) == Members(at[..n]) + {at[n]};
      assert at[n] !in Members(at[..n]);
    }
  }

  /** What pushes out a younger record pushes out an older one. */
  lemma {:induction false} OlderGoesFirst(ops: seq<Op>, x: nat, y: nat, e: nat)
    requires x <= y && PushedBy(ops, y, e)
    ensures PushedBy(ops, x, e)
  {
    var to := ops[..e + 1];
    SubsetSize(Later(to, Keys(to), y), Later(to, Keys(to), x));
  }

  /** Those after an early record are exactly the unclaimed records after it. */
  lemma {:induction false} LaterAreHeld(ops: seq<Op>, keys: seq<Key>, at: seq<nat>, end: nat, p: nat)
    requires HeldAre(ops, keys, at, end) && p < |at|
    ensures |Later(ops, keys, at[p])| == |at| - 1 - p
  {
    var rest := at[p + 1..];
    AscendingSize(rest);
    forall y | y in Later(ops, keys, at[p])
      ensures y in Members(rest)
    {
      forall e: nat | e < end
        ensures !PushedBy(ops, y, e)
      {
        if PushedBy(ops, y, e) {
          OlderGoesFirst(ops, at[p], y, e);
        }
      }
      assert Held(ops, keys, y, end);
      var q :| 0 <= q < |at| && at[q] == y;
      assert rest[q - (p + 1)] == y;
    }
    forall y | y in Members(rest)
      ensures y in Later(ops, keys, at[p])
    {
      var q :| 0 <= q < |rest| && rest[q] == y;
      assert Held(ops, keys, at[p + 1 + q], end);
    }
    assert Later(ops, keys, at[p]) == Members(rest);
  }

  // ---- one more operation leaves the earlier ones as they were ----

  lemma Prefixes(front: seq<Op>, op: Op)
    ensures forall k :: 0 <= k <= |front| ==> (front + [op])[..k] == front[..k]
    ensures forall x: nat :: x < |front| ==> (Came(front + [op], x) <==> Came(front, x))
  {
  }

  lemma {:induction false} ClaimedStays(front: seq<Op>, op: Op, keys: seq<Key>, x: nat)
    requires Came(front, x)
    ensures Claimed(front + [op], keys, x) <==> Claimed(front, keys, x)
  {
    Prefixes(front, op);
    var ops := front + [op];
    assert ops[x] == front[x] && ops[..x] == front[..x];
  }

  lemma {:induction false} PushedStays(front: seq<Op>, op: Op, x: nat, e: nat)
    requires e < |front|
    ensures PushedBy(front + [op], x, e) <==> PushedBy(front, x, e)
  {
    Prefixes(front, op);
    assert (front + [op])[..e + 1] == front[..e + 1];
  }

  lemma {:induction false} CountGrows(ops: seq<Op>, k: nat)
    requires k <= |ops|
    ensures Count(ops[..k]) <= Count(ops)
  {
    if k < |ops| {
      var front := ops[..|ops| - 1];
      assert ops[..k] == front[..k] && Samples(front) <= Samples(ops);
      CountGrows(front, k);
      MiddlesGrow(Samples(front), Samples(ops) - Samples(front));
    } else {
      assert ops[..k] == ops;
    }
  }

  lemma {:induction false} PlacedStays(front: seq<Op>, op: Op, keys: seq<Key>, x: nat, j: nat)
    requires x < |front| && (op.MicOp? || j < Count(front))
    ensures Placed(front + [op], keys, x, j) <==> Placed(front, keys, x, j)
  {
    var ops := front + [op];
    Prefixes(front, op);
    assert ops[x] == front[x] && ops[..x] == front[..x] && ops[..|front|] == front;
    forall e: nat | e < |ops|
      ensures (PushedBy(ops, x, e) ==> j < Count(ops[..e])) <==> (PushedBy(front, x, e) ==> j < Count(front[..e]))
    {
      if e < |front| {
        PushedStays(front, op, x, e);
        assert ops[..e] == front[..e];
      }
    }
    assert forall e: nat :: PushedBy(ops, x, e) ==> e < |ops|;
    assert forall e: nat :: PushedBy(front, x, e) ==> e < |front|;
  }

  lemma {:induction false} HeldStays(front: seq<Op>, op: Op, keys: seq<Key>, x: nat)
    requires x < |front|
    ensures Held(front + [op], keys, x, |front|) <==> Held(front, keys, x, |front|)
  {
    Prefixes(front, op);
    if Came(front, x) {
      ClaimedStays(front, op, keys, x);
      forall e: nat | e < |front|
        ensures PushedBy(front + [op], x, e) <==> PushedBy(front, x, e)
      {
        PushedStays(front, op, x, e);
      }
    }
  }

  // ---- blocks ----

  lemma {:induction false} KeysCount(ops: seq<Op>)
    ensures |Keys(ops)| == Count(ops)
  {
    if ops != [] {
      var front, op := ops[..|ops| - 1], ops[|ops| - 1];
      KeysCount(front);
      assert ops == front + [op];
      EventsSnoc(front, op);
      OpLength(op, Samples(front));
    }
  }

  lemma {:induction false} OpLength(op: Op, t: nat)
    ensures |Taken(OpEvents(op, t))| == Middles(t + if op.MicOp? then op.n else 0) - Middles(t)
  {
    match op
    case MicOp(sub, start, n) =>
      MiddlesGrow(t, n);
      BlockLength(sub, start, t, Middles(t), Middles(t + n));
    case AfeOp(sub, r) =>
      assert [Arrive(PeriodKey(sub, r), r)][..0] == [];
  }

  lemma {:induction false} BlockLength(sub: int, start: int, t: nat, lo: nat, hi: nat)
    requires lo <= hi
    ensures |Taken(BlockEvents(sub, start, t, lo, hi))| == hi - lo
    decreases hi
  {
    if lo < hi {
      BlockLength(sub, start, t, lo, hi - 1);
      BlockSnoc([], sub, start, t, lo, hi);
      assert [] + Taken(BlockEvents(sub, start, t, lo, hi)) == Taken(BlockEvents(sub, start, t, lo, hi));
      assert [] + Taken(BlockEvents(sub, start, t, lo, hi - 1)) == Taken(BlockEvents(sub, start, t, lo, hi - 1));
    }
  }

  /** A block leaves what each record and each earlier period is as it was. */
  lemma {:induction false} BlockComes(front: seq<Op>, op: Op, keys: seq<Key>, all: seq<Option<Record>>, at: seq<nat>)
    requires op.MicOp? && Ideal(front, keys, all, at)
    ensures Ideal(front + [op], keys, all, at)
  {
    var ops := front + [op];
    SamePlaces(front, op, keys);
    forall x: nat
      ensures Held(ops, keys, x, |ops|) <==> Held(front, keys, x, |front|)
    {
      if x < |front| {
        HeldStays(front, op, keys, x);
      }
      assert !Came(ops, |front|);
    }
    forall j | 0 <= j < |all|
      ensures Shown(ops, keys, j, all[j])
    {
      assert Shown(front, keys, j, all[j]);
    }
  }

  lemma {:induction false} ListedStays(front: seq<Op>, op: Op, early: seq<(Key, Record)>, at: seq<nat>)
    requires Listed(front, early, at)
    ensures Listed(front + [op], early, at)
  {
    forall p | 0 <= p < |at|
      ensures IsAt(front + [op], early[p], at[p])
    {
      assert IsAt(front, early[p], at[p]);
    }
  }

  lemma {:induction false} SamePlaces(front: seq<Op>, op: Op, keys: seq<Key>)
    requires op.MicOp?
    ensures forall x: nat, j: nat :: Placed(front + [op], keys, x, j) <==> Placed(front, keys, x, j)
    ensures forall j: nat :: Unplaced(front + [op], keys, j) <==> Unplaced(front, keys, j)
  {
    forall x: nat, j: nat
      ensures Placed(front + [op], keys, x, j) <==> Placed(front, keys, x, j)
    {
      if x < |front| {
        PlacedStays(front, op, keys, x, j);
      }
      assert !Came(front + [op], |front|);
    }
  }

  /** A longer list of periods leaves the earlier ones as they were. */
  lemma {:induction false} MoreKeys(ops: seq<Op>, keys: seq<Key>, key: Key)
    ensures forall x: nat, j: nat :: j < |keys| ==> (Placed(ops, keys + [key], x, j) <==> Placed(ops, keys, x, j))
    ensures forall j: nat :: j < |keys| ==> (Unplaced(ops, keys + [key], j) <==> Unplaced(ops, keys, j))
  {
    assert forall j: nat :: j < |keys| ==> (keys + [key])[j] == keys[j];
  }

  lemma {:induction false} NowClaimed(ops: seq<Op>, keys: seq<Key>, key: Key, x: nat)
    requires Came(ops, x) && Count(ops) <= |keys|
    ensures Claimed(ops, keys + [key], x) <==> Claimed(ops, keys, x) || KeyAt(ops[x]) == key
  {
    CountGrows(ops, x);
    var more := keys + [key];
    assert more[|keys|] == key;
    if Claimed(ops, keys, x) {
      var j :| 0 <= j < |keys| && keys[j] == KeyAt(ops[x]) && Count(ops[..x]) <= j + WAIT_PERIODS;
      assert more[j] == KeyAt(ops[x]);
    }
  }

  lemma PlacedOnce(ops: seq<Op>, keys: seq<Key>, x: nat, x': nat, j: nat)
    requires NewOps(ops) && Placed(ops, keys, x, j) && Placed(ops, keys, x', j)
    ensures x == x'
  {
  }

  lemma {:induction false} ShownBy(ops: seq<Op>, keys: seq<Key>, x: nat, j: nat)
    requires NewOps(ops) && Placed(ops, keys, x, j)
    ensures Shown(ops, keys, j, Some(ops[x].record))
  {
    forall x': nat | Placed(ops, keys, x', j)
      ensures x' == x
    {
      PlacedOnce(ops, keys, x, x', j);
    }
  }

  // ---- one period is taken ----

  /** The ideal after one more period: it gets its held record, or is empty. */
  lemma {:induction false} IdealTakes(ops: seq<Op>, keys: seq<Key>, all: seq<Option<Record>>, at: seq<nat>, key: Key, p: nat)
    requires Ideal(ops, keys, all, at) && NewOps(ops) && key !in keys && Count(ops) <= |keys|
    requires p < |at| && KeyAt(ops[at[p]]) == key
    ensures Ideal(ops, keys + [key], all + [Some(ops[at[p]].record)], at[..p] + at[p + 1..])
  {
    var x := at[p];
    assert Held(ops, keys, x, |ops|);
    CountGrows(ops, x);
    assert Placed(ops, keys + [key], x, |keys|);
    ShownBy(ops, keys + [key], x, |keys|);
    ToldMore(ops, keys, all, key, Some(ops[x].record));
    HeldTaken(ops, keys, at, key, p);
  }

  lemma {:induction false} IdealTakesNone(ops: seq<Op>, keys: seq<Key>, all: seq<Option<Record>>, at: seq<nat>, key: Key)
    requires Ideal(ops, keys, all, at) && key !in keys && Count(ops) <= |keys|
    requires forall p :: 0 <= p < |at| ==> KeyAt(ops[at[p]]) != key
    ensures Ideal(ops, keys + [key], all + [None], at)
  {
    forall x: nat
      ensures !Placed(ops, keys + [key], x, |keys|)
    {
      if Placed(ops, keys + [key], x, |keys|) {
        PlacedIsHeld(ops, keys, key, x);
      }
    }
    ToldMore(ops, keys, all, key, None);
    HeldUntaken(ops, keys, at, key);
  }

  /** A record placed at the next period was held. */
  lemma {:induction false} PlacedIsHeld(ops: seq<Op>, keys: seq<Key>, key: Key, x: nat)
    requires key !in keys && Count(ops) <= |keys| && Placed(ops, keys + [key], x, |keys|)
    ensures Held(ops, keys, x, |ops|) && KeyAt(ops[x]) == key
  {
    forall e: nat
      ensures !PushedBy(ops, x, e)
    {
      if e < |ops| {
        CountGrows(ops, e);
      }
    }
  }

  lemma {:induction false} ToldMore(ops: seq<Op>, keys: seq<Key>, all: seq<Option<Record>>, key: Key, got: Option<Record>)
    requires Told(ops, keys, all) && Shown(ops, keys + [key], |keys|, got)
    ensures Told(ops, keys + [key], all + [got])
  {
    MoreKeys(ops, keys, key);
    forall j | 0 <= j < |all|
      ensures Shown(ops, keys + [key], j, all[j])
    {
      assert Shown(ops, keys, j, all[j]);
    }
  }

  lemma {:induction false} HeldUntaken(ops: seq<Op>, keys: seq<Key>, at: seq<nat>, key: Key)
    requires HeldAre(ops, keys, at, |ops|) && Count(ops) <= |keys|
    requires forall p :: 0 <= p < |at| ==> KeyAt(ops[at[p]]) != key
    ensures HeldAre(ops, keys + [key], at, |ops|)
  {
    forall p | 0 <= p < |at|
      ensures Held(ops, keys + [key], at[p], |ops|)
    {
      assert Held(ops, keys, at[p], |ops|);
      NowClaimed(ops, keys, key, at[p]);
    }
    forall x: nat | Held(ops, keys + [key], x, |ops|)
      ensures x in at
    {
      NowClaimed(ops, keys, key, x);
      assert Held(ops, keys, x, |ops|);
    }
  }

  lemma {:induction false} HeldTaken(ops: seq<Op>, keys: seq<Key>, at: seq<nat>, key: Key, p: nat)
    requires HeldAre(ops, keys, at, |ops|) && NewOps(ops) && Count(ops) <= |keys|
    requires p < |at| && Came(ops, at[p]) && KeyAt(ops[at[p]]) == key
    ensures HeldAre(ops, keys + [key], at[..p] + at[p + 1..], |ops|)
  {
    var rest := at[..p] + at[p + 1..];
    forall q | 0 <= q < |rest|
      ensures Held(ops, keys + [key], rest[q], |ops|)
    {
      var o := if q < p then q else q + 1;
      assert Held(ops, keys, at[o], |ops|);
      NowClaimed(ops, keys, key, at[o]);
    }
    forall x: nat | Held(ops, keys + [key], x, |ops|)
      ensures x in rest
    {
      NowClaimed(ops, keys, key, x);
      assert Held(ops, keys, x, |ops|);
      var o :| 0 <= o < |at| && at[o] == x;
      assert rest[if o < p then o else o - 1] == x;
    }
  }

  /** The tap with one more period holds the new ideal. */
  lemma {:induction false} TakesEarly(ops: seq<Op>, keys: seq<Key>, all: seq<Option<Record>>, at: seq<nat>, tr: Track, limit: int, key: Key, p: nat)
    requires Holds(ops, keys, all, at, tr, limit) && IndexOf(tr.early, key) == Some(p)
    ensures p < |at| && Came(ops, at[p]) && KeyAt(ops[at[p]]) == key
    ensures Holds(ops, keys + [key], all + [Some(ops[at[p]].record)], at[..p] + at[p + 1..], TakeOne(tr, key, |keys|), limit)
  {
    var u, rest := TakeOne(tr, key, |keys|), at[..p] + at[p + 1..];
    assert IsAt(ops, tr.early[p], at[p]);
    assert u.early == tr.early[..p] + tr.early[p + 1..];
    forall q | 0 <= q < |rest|
      ensures IsAt(ops, u.early[q], rest[q])
    {
      var o := if q < p then q else q + 1;
      assert IsAt(ops, tr.early[o], at[o]);
    }
    WaitsStay(keys, all, tr.waiting, limit, key, tr.early[p].1);
    assert (all + [Some(tr.early[p].1)])[u.floor..] == all[u.floor..] + [Some(tr.early[p].1)];
  }

  lemma {:induction false} WaitsStay(keys: seq<Key>, all: seq<Option<Record>>, waiting: seq<(Key, nat)>, limit: int, key: Key, r: Record)
    requires Waits(keys, all, waiting, limit)
    ensures Waits(keys + [key], all + [Some(r)], waiting, limit)
  {
    forall a | 0 <= a < |waiting|
      ensures WaitsAt(keys + [key], all + [Some(r)], waiting[a], limit)
    {
      assert WaitsAt(keys, all, waiting[a], limit);
    }
    forall j: nat | limit <= j < |keys + [key]| && (all + [Some(r)])[j].None?
      ensures IsIn(keys + [key], waiting, j)
    {
      assert IsIn(keys, waiting, j);
    }
  }

  lemma {:induction false} TakesNone(ops: seq<Op>, keys: seq<Key>, all: seq<Option<Record>>, at: seq<nat>, tr: Track, limit: int, key: Key)
    requires Holds(ops, keys, all, at, tr, limit) && IndexOf(tr.early, key).None? && key !in keys && limit <= |keys|
    ensures forall p :: 0 <= p < |at| ==> Came(ops, at[p]) && KeyAt(ops[at[p]]) != key
    ensures Holds(ops, keys + [key], all + [None], at, TakeOne(tr, key, |keys|), limit)
  {
    forall p | 0 <= p < |at|
      ensures Came(ops, at[p]) && KeyAt(ops[at[p]]) != key
    {
      assert IsAt(ops, tr.early[p], at[p]);
    }
    NextWaits(keys, all, tr.waiting, limit, key);
    assert (all + [None])[tr.floor..] == all[tr.floor..] + [None];
  }

  lemma {:induction false} NextWaits(keys: seq<Key>, all: seq<Option<Record>>, waiting: seq<(Key, nat)>, limit: int, key: Key)
    requires Unique(waiting) && Waits(keys, all, waiting, limit) && key !in keys && limit <= |keys|
    ensures Waits(keys + [key], all + [None], Put(waiting, key, |keys|), limit)
  {
    forall a | 0 <= a < |waiting|
      ensures waiting[a].0 != key
    {
      assert WaitsAt(keys, all, waiting[a], limit);
    }
    OneMoreWaits(keys, all, waiting, limit, key);
  }

  lemma {:induction false} OneMoreWaits(keys: seq<Key>, all: seq<Option<Record>>, waiting: seq<(Key, nat)>, limit: int, key: Key)
    requires Waits(keys, all, waiting, limit) && limit <= |keys|
    ensures Waits(keys + [key], all + [None], waiting + [(key, |keys|)], limit)
  {
    var more: seq<(Key, nat)> := waiting + [(key, |keys|)];
    forall a | 0 <= a < |more|
      ensures WaitsAt(keys + [key], all + [None], more[a], limit) && (a < |waiting| ==> more[a].1 < |keys|)
    {
      if a < |waiting| {
        assert WaitsAt(keys, all, waiting[a], limit);
      }
    }
    forall j: nat | limit <= j < |keys + [key]| && (all + [None])[j].None?
      ensures IsIn(keys + [key], more, j)
    {
      if j < |keys| {
        assert IsIn(keys, waiting, j);
        var a :| 0 <= a < |waiting| && waiting[a] == (keys[j], j);
        assert more[a] == waiting[a];
      } else {
        assert more[|waiting|] == (key, |keys|);
      }
    }
  }

  lemma {:induction false} TakesOne(ops: seq<Op>, keys: seq<Key>, all: seq<Option<Record>>, at: seq<nat>, tr: Track, limit: int, key: Key)
    returns (all': seq<Option<Record>>, at': seq<nat>)
    requires Ideal(ops, keys, all, at) && Holds(ops, keys, all, at, tr, limit)
    requires NewOps(ops) && key !in keys && Count(ops) <= |keys| && limit <= |keys|
    ensures Ideal(ops, keys + [key], all', at') && Holds(ops, keys + [key], all', at', TakeOne(tr, key, |keys|), limit)
  {
    var i := IndexOf(tr.early, key);
    if i.Some? {
      var p := i.value;
      TakesEarly(ops, keys, all, at, tr, limit, key, p);
      IdealTakes(ops, keys, all, at, key, p);
      all', at' := all + [Some(ops[at[p]].record)], at[..p] + at[p + 1..];
    } else {
      TakesNone(ops, keys, all, at, tr, limit, key);
      IdealTakesNone(ops, keys, all, at, key);
      all', at' := all + [None], at;
    }
  }

  predicate AreKeys(more: seq<Key>, sub: int, start: int, t: nat, lo: nat) {
    forall i :: 0 <= i < |more| ==> more[i] == KeyOf(sub, start, t, lo + i)
  }

  lemma {:induction false} BlockTakes(
    ops: seq<Op>, keys: seq<Key>, more: seq<Key>, tr: Track, limit: int, sub: int, start: int, t: nat, lo: nat, hi: nat)
    requires Sound(ops, keys, tr, limit) && Proper(tr) && NewOps(ops) && Count(ops) <= lo && limit <= lo
    requires |keys| == lo && |keys + more| == hi && Distinct(keys + more) && AreKeys(more, sub, start, t, lo)
    ensures Sound(ops, keys + more, TakeBlock(tr, sub, start, t, lo, hi), limit)
    decreases hi, 0
  {
    if more == [] {
      assert keys + more == keys;
    } else {
      LastKey(keys, more, sub, start, t, lo, hi);
      BlockGoesOn(ops, keys, more[..|more| - 1], more[|more| - 1], keys + more, tr, limit, sub, start, t, lo, hi, hi - 1);
    }
  }

  lemma {:induction false} BlockGoesOn(
    ops: seq<Op>, keys: seq<Key>, front: seq<Key>, key: Key, keys': seq<Key>, tr: Track, limit: int,
    sub: int, start: int, t: nat, lo: nat, hi: nat, mid: nat)
    requires Sound(ops, keys, tr, limit) && Proper(tr) && NewOps(ops) && Count(ops) <= lo <= mid && limit <= lo && hi == mid + 1
    requires |keys| == lo && |keys + front| == mid && Distinct(keys + front) && AreKeys(front, sub, start, t, lo)
    requires keys' == (keys + front) + [key] && key !in keys + front && key == KeyOf(sub, start, t, mid)
    ensures Sound(ops, keys', TakeBlock(tr, sub, start, t, lo, hi), limit)
    decreases mid, 1
  {
    BlockTakes(ops, keys, front, tr, limit, sub, start, t, lo, mid);
    LastTaken(tr, sub, start, t, lo, hi);
    SoundTakes(ops, keys + front, keys', TakeBlock(tr, sub, start, t, lo, mid), TakeBlock(tr, sub, start, t, lo, hi), limit, key, mid);
  }

  lemma {:induction false} LastKey(keys: seq<Key>, more: seq<Key>, sub: int, start: int, t: nat, lo: nat, hi: nat)
    requires more != [] && |keys| == lo && |keys + more| == hi && Distinct(keys + more) && AreKeys(more, sub, start, t, lo)
    ensures var front, key := more[..|more| - 1], more[|more| - 1];
      && keys + more == (keys + front) + [key] && |keys + front| == hi - 1 && Distinct(keys + front) && key !in keys + front
      && key == KeyOf(sub, start, t, hi - 1) && AreKeys(front, sub, start, t, lo)
  {
    var front, key := more[..|more| - 1], more[|more| - 1];
    assert keys + more == (keys + front) + [key];
    DistinctFront(keys + front, key);
  }

  lemma {:induction false} BlockKeys(sub: int, start: int, t: nat, lo: nat, hi: nat)
    requires lo <= hi
    ensures |Taken(BlockEvents(sub, start, t, lo, hi))| == hi - lo && AreKeys(Taken(BlockEvents(sub, start, t, lo, hi)), sub, start, t, lo)
    decreases hi
  {
    BlockLength(sub, start, t, lo, hi);
    if lo < hi {
      BlockKeys(sub, start, t, lo, hi - 1);
      BlockSnoc([], sub, start, t, lo, hi);
      assert [] + Taken(BlockEvents(sub, start, t, lo, hi)) == Taken(BlockEvents(sub, start, t, lo, hi));
      assert [] + Taken(BlockEvents(sub, start, t, lo, hi - 1)) == Taken(BlockEvents(sub, start, t, lo, hi - 1));
    }
  }

  lemma {:induction false} SoundTakes(ops: seq<Op>, keys: seq<Key>, keys': seq<Key>, tr: Track, tr': Track, limit: int, key: Key, n: nat)
    requires |keys| == n && Sound(ops, keys, tr, limit) && Proper(tr) && NewOps(ops) && key !in keys && Count(ops) <= n && limit <= n
    requires keys' == keys + [key] && tr' == TakeOne(tr, key, n)
    ensures Sound(ops, keys', tr', limit)
  {
    var all: seq<Option<Record>>, at: seq<nat> :| Ideal(ops, keys, all, at) && Holds(ops, keys, all, at, tr, limit);
    var all', at' := TakesOne(ops, keys, all, at, tr, limit, key);
  }

  lemma {:induction false} LastTaken(tr: Track, sub: int, start: int, t: nat, lo: nat, hi: nat)
    requires Proper(tr) && lo < hi
    ensures TakeBlock(tr, sub, start, t, lo, hi) == TakeOne(TakeBlock(tr, sub, start, t, lo, hi - 1), KeyOf(sub, start, t, hi - 1), hi - 1)
  {
  }

  lemma {:induction false} DistinctFront(keys: seq<Key>, key: Key)
    requires Distinct(keys + [key])
    ensures Distinct(keys) && key !in keys
  {
    var more := keys + [key];
    assert more[|keys|] == key;
    assert forall j :: 0 <= j < |keys| ==> more[j] == keys[j];
  }

  lemma {:induction false} CapKeeps(all: seq<Option<Record>>, tr: Track, capacity: nat)
    requires Window(all, tr)
    ensures Window(all, Cap(tr, capacity))
  {
  }

  /** Giving up drops exactly what the limit has passed. */
  lemma {:induction false} GivesUp(keys: seq<Key>, all: seq<Option<Record>>, waiting: seq<(Key, nat)>, limit: int, limit': int)
    requires Unique(waiting) && Waits(keys, all, waiting, limit) && limit <= limit'
    ensures Waits(keys, all, Expired(waiting, limit'), limit')
  {
    if waiting != [] && waiting[0].1 < limit' {
      FirstGoes(keys, all, waiting, limit);
      GivesUp(keys, all, waiting[1..], waiting[0].1 + 1, limit');
    } else {
      forall a | 0 <= a < |waiting|
        ensures WaitsAt(keys, all, waiting[a], limit')
      {
        assert WaitsAt(keys, all, waiting[a], limit);
        assert waiting[0].1 <= waiting[a].1;
      }
      forall j: nat | limit' <= j < |keys| && all[j].None?
        ensures IsIn(keys, waiting, j)
      {
      }
    }
  }

  lemma {:induction false} FirstGoes(keys: seq<Key>, all: seq<Option<Record>>, waiting: seq<(Key, nat)>, limit: int)
    requires waiting != [] && Waits(keys, all, waiting, limit)
    ensures Waits(keys, all, waiting[1..], waiting[0].1 + 1)
  {
    var rest, next := waiting[1..], waiting[0].1 + 1;
    assert WaitsAt(keys, all, waiting[0], limit);
    forall a | 0 <= a < |rest|
      ensures WaitsAt(keys, all, rest[a], next)
    {
      assert WaitsAt(keys, all, waiting[a + 1], limit);
    }
    forall j: nat | next <= j < |keys| && all[j].None?
      ensures IsIn(keys, rest, j)
    {
      assert IsIn(keys, waiting, j);
      var a :| 0 <= a < |waiting| && waiting[a] == (keys[j], j);
      assert rest[a - 1] == waiting[a];
    }
  }

  // ---- records ----

  /** What the latest record is to each period: only its own, if it claims it, changes. */
  lemma {:induction false} ArrivesAt(front: seq<Op>, op: Op, keys: seq<Key>, j: nat)
    requires op.AfeOp? && j < |keys| && Count(front) == |keys|
    ensures Placed(front + [op], keys, |front|, j) <==> keys[j] == KeyAt(op) && Count(front) <= j + WAIT_PERIODS
  {
    var ops := front + [op];
    assert ops[..|front|] == front && ops[|front|] == op;
    forall e: nat
      ensures !PushedBy(ops, |front|, e)
    {
    }
  }

  lemma {:induction false} UnplacedStays(front: seq<Op>, op: Op, keys: seq<Key>, j: nat)
    requires op.AfeOp? && j < |keys| && Count(front) == |keys| && !Placed(front + [op], keys, |front|, j)
    ensures Unplaced(front, keys, j) <==> Unplaced(front + [op], keys, j)
  {
    forall x: nat
      ensures Placed(front + [op], keys, x, j) <==> Placed(front, keys, x, j)
    {
      if x < |front| {
        PlacedStays(front, op, keys, x, j);
      }
    }
  }

  lemma {:induction false} ShownStays(front: seq<Op>, op: Op, keys: seq<Key>, j: nat, p: Option<Record>)
    requires op.AfeOp? && j < |keys| && Count(front) == |keys| && !Placed(front + [op], keys, |front|, j)
    requires Shown(front, keys, j, p)
    ensures Shown(front + [op], keys, j, p)
  {
    UnplacedStays(front, op, keys, j);
    forall x: nat | Placed(front + [op], keys, x, j)
      ensures p == Some((front + [op])[x].record)
    {
      PlacedStays(front, op, keys, x, j);
    }
  }

  lemma OtherKey(front: seq<Op>, op: Op, x: nat)
    requires op.AfeOp? && NewOps(front + [op]) && Came(front, x)
    ensures KeyAt(front[x]) != KeyAt(op)
  {
    assert (front + [op])[x] == front[x] && (front + [op])[|front|] == op;
  }

  lemma {:induction false} NotPushed(front: seq<Op>, op: Op, keys: seq<Key>, at: seq<nat>, p: nat)
    requires op.AfeOp? && keys == Keys(front + [op]) && HeldAre(front + [op], keys, at, |front|)
    requires |at| - WAIT_PERIODS <= p < |at|
    ensures Held(front + [op], keys, at[p], |front| + 1)
  {
    assert (front + [op])[..|front| + 1] == front + [op];
    LaterAreHeld(front + [op], keys, at, |front|, p);
    assert Held(front + [op], keys, at[p], |front|);
  }

  lemma {:induction false} OldestPushed(front: seq<Op>, op: Op, keys: seq<Key>, at: seq<nat>)
    requires op.AfeOp? && keys == Keys(front + [op]) && HeldAre(front + [op], keys, at, |front|) && |at| > WAIT_PERIODS
    ensures at[0] < |front| && !Held(front + [op], keys, at[0], |front| + 1)
  {
    assert (front + [op])[..|front| + 1] == front + [op];
    LaterAreHeld(front + [op], keys, at, |front|, 0);
    assert Held(front + [op], keys, at[0], |front|) && Held(front + [op], keys, at[1], |front|);
    assert PushedBy(front + [op], at[0], |front|);
  }

  /** The newest record joins the early ones; if that is one too many, the oldest is pushed out. */
  lemma {:induction false} PushesOldest(front: seq<Op>, op: Op, keys: seq<Key>, at: seq<nat>)
    requires op.AfeOp? && keys == Keys(front + [op])
    requires HeldAre(front + [op], keys, at, |front|) && |at| <= WAIT_PERIODS + 1
    ensures HeldAre(front + [op], keys, Newest(at), |front| + 1)
  {
    var k := if |at| > WAIT_PERIODS then 1 else 0;
    forall p | k <= p < |at|
      ensures Held(front + [op], keys, at[p], |front| + 1)
    {
      NotPushed(front, op, keys, at, p);
    }
    if k == 1 {
      OldestPushed(front, op, keys, at);
    }
    StillHeld(front + [op], keys, at, k, |front|, |front| + 1);
  }

  lemma {:induction false} StillHeld(ops: seq<Op>, keys: seq<Key>, at: seq<nat>, k: nat, end: nat, next: nat)
    requires HeldAre(ops, keys, at, end) && k <= |at| && end <= next
    requires forall p :: k <= p < |at| ==> Held(ops, keys, at[p], next)
    requires forall p :: 0 <= p < k ==> !Held(ops, keys, at[p], next)
    ensures HeldAre(ops, keys, at[k..], next)
  {
    forall x: nat | Held(ops, keys, x, next)
      ensures x in at[k..]
    {
      assert Held(ops, keys, x, end);
      var p :| 0 <= p < |at| && at[p] == x;
      assert at[k..][p - k] == x;
    }
  }

  /** The ideal after a record: one empty period not given up gets it, or it is held. */
  lemma {:induction false} IdealGets(front: seq<Op>, op: Op, keys: seq<Key>, all: seq<Option<Record>>, at: seq<nat>, j: nat)
    requires op.AfeOp? && NewOps(front + [op]) && Distinct(keys) && Count(front) == |keys| && keys == Keys(front + [op]) && |at| <= WAIT_PERIODS
    requires Ideal(front, keys, all, at) && j < |keys| && keys[j] == KeyAt(op) && Count(front) <= j + WAIT_PERIODS
    ensures Ideal(front + [op], keys, all[j := Some(op.record)], at)
  {
    var ops, next := front + [op], all[j := Some(op.record)];
    assert ops[..|front|] == front && ops[|front|] == op;
    ArrivesAt(front, op, keys, j);
    ShownBy(ops, keys, |front|, j);
    forall k | 0 <= k < |next|
      ensures Shown(ops, keys, k, next[k])
    {
      if k != j {
        ArrivesAt(front, op, keys, k);
        assert Shown(front, keys, k, all[k]);
        ShownStays(front, op, keys, k, all[k]);
      }
    }
    assert Claimed(ops, keys, |front|);
    HeldStay(front, op, keys, at);
    PushesOldest(front, op, keys, at);
  }

  lemma {:induction false} HeldStay(front: seq<Op>, op: Op, keys: seq<Key>, at: seq<nat>)
    requires op.AfeOp? && HeldAre(front, keys, at, |front|)
    ensures HeldAre(front + [op], keys, if Claimed(front + [op], keys, |front|) then at else at + [|front|], |front|)
  {
    var ops := front + [op];
    var more := if Claimed(ops, keys, |front|) then at else at + [|front|];
    assert ops[|front|] == op;
    forall p | 0 <= p < |at|
      ensures Held(ops, keys, at[p], |front|) && at[p] < |front|
    {
      assert Held(front, keys, at[p], |front|);
      HeldStays(front, op, keys, at[p]);
    }
    forall x: nat | Held(ops, keys, x, |front|)
      ensures x in more
    {
      if x < |front| {
        HeldStays(front, op, keys, x);
      } else {
        assert more[|at|] == x;
      }
    }
  }

  lemma {:induction false} IdealHolds(front: seq<Op>, op: Op, keys: seq<Key>, all: seq<Option<Record>>, at: seq<nat>)
    requires op.AfeOp? && Count(front) == |keys| && keys == Keys(front + [op]) && |at| <= WAIT_PERIODS
    requires Ideal(front, keys, all, at) && !Claimed(front + [op], keys, |front|)
    ensures Ideal(front + [op], keys, all, Newest(at + [|front|]))
  {
    ToldStays(front, op, keys, all);
    HeldStay(front, op, keys, at);
    PushesOldest(front, op, keys, at + [|front|]);
  }

  lemma {:induction false} ToldStays(front: seq<Op>, op: Op, keys: seq<Key>, all: seq<Option<Record>>)
    requires op.AfeOp? && Count(front) == |keys| && Told(front, keys, all) && !Claimed(front + [op], keys, |front|)
    ensures Told(front + [op], keys, all)
  {
    var ops := front + [op];
    assert ops[|front|] == op;
    forall k | 0 <= k < |all|
      ensures Shown(ops, keys, k, all[k])
    {
      assert !Placed(ops, keys, |front|, k);
      assert Shown(front, keys, k, all[k]);
      ShownStays(front, op, keys, k, all[k]);
    }
  }

  /** The newest, as many as are kept early. */
  function Newest<T>(xs: seq<T>): seq<T> {
    if |xs| > WAIT_PERIODS then xs[1..] else xs
  }

  lemma {:induction false} NotClaimed(front: seq<Op>, op: Op, keys: seq<Key>, all: seq<Option<Record>>, waiting: seq<(Key, nat)>)
    requires op.AfeOp? && Count(front) == |keys| && NewOps(front + [op]) && Told(front, keys, all)
    requires Waits(keys, all, waiting, Count(front) - WAIT_PERIODS) && IndexOf(waiting, KeyAt(op)).None?
    ensures !Claimed(front + [op], keys, |front|)
  {
    assert (front + [op])[..|front|] == front && (front + [op])[|front|] == op;
    forall j | 0 <= j < |keys| && keys[j] == KeyAt(op)
      ensures Count(front) > j + WAIT_PERIODS
    {
      if Count(front) <= j + WAIT_PERIODS {
        assert !IsIn(keys, waiting, j);
        assert Shown(front, keys, j, all[j]);
        var x: nat :| Placed(front, keys, x, j);
        OtherKey(front, op, x);
      }
    }
  }

  /** The period that waits for the newest record takes it. */
  lemma {:induction false} WaitingGets(
    front: seq<Op>, op: Op, keys: seq<Key>, all: seq<Option<Record>>, at: seq<nat>, tr: Track, limit: int, i: nat)
    requires op.AfeOp? && Holds(front, keys, all, at, tr, limit) && IndexOf(tr.waiting, KeyAt(op)) == Some(i)
    ensures var j := tr.waiting[i].1;
      && limit <= j < |keys| && keys[j] == KeyAt(op)
      && Holds(front + [op], keys, all[j := Some(op.record)], at, Afe(tr, op.sub, op.record), limit)
  {
    var j, u := tr.waiting[i].1, Afe(tr, op.sub, op.record);
    assert WaitsAt(keys, all, tr.waiting[i], limit);
    ListedStays(front, op, tr.early, at);
    OneFewerWaits(keys, all, tr.waiting, limit, i, op.record);
    assert u.waiting == tr.waiting[..i] + tr.waiting[i + 1..];
    assert all[j := Some(op.record)][u.floor..] == u.periods;
  }

  lemma {:induction false} OneFewerWaits(keys: seq<Key>, all: seq<Option<Record>>, waiting: seq<(Key, nat)>, limit: int, i: nat, r: Record)
    requires Waits(keys, all, waiting, limit) && i < |waiting|
    ensures waiting[i].1 < |all| && Waits(keys, all[waiting[i].1 := Some(r)], waiting[..i] + waiting[i + 1..], limit)
  {
    assert WaitsAt(keys, all, waiting[i], limit);
    var next, rest := all[waiting[i].1 := Some(r)], waiting[..i] + waiting[i + 1..];
    forall a | 0 <= a < |rest|
      ensures WaitsAt(keys, next, rest[a], limit)
    {
      var b := if a < i then a else a + 1;
      assert rest[a] == waiting[b] && WaitsAt(keys, all, waiting[b], limit);
    }
    forall k: nat | limit <= k < |keys| && next[k].None?
      ensures IsIn(keys, rest, k)
    {
      assert IsIn(keys, waiting, k);
      var b :| 0 <= b < |waiting| && waiting[b] == (keys[k], k);
      assert rest[if b < i then b else b - 1] == waiting[b];
    }
  }

  /** A record that claims none joins the early ones. */
  lemma {:induction false} EarlyGets(front: seq<Op>, op: Op, keys: seq<Key>, all: seq<Option<Record>>, at: seq<nat>, tr: Track, limit: int)
    requires op.AfeOp? && NewOps(front + [op]) && Holds(front, keys, all, at, tr, limit) && IndexOf(tr.waiting, KeyAt(op)).None?
    ensures Holds(front + [op], keys, all, Newest(at + [|front|]), Afe(tr, op.sub, op.record), limit)
  {
    var ops, more := front + [op], tr.early + [(KeyAt(op), op.record)];
    ListedStays(front, op, tr.early, at);
    forall p | 0 <= p < |tr.early|
      ensures tr.early[p].0 != KeyAt(op)
    {
      assert IsAt(front, tr.early[p], at[p]);
      OtherKey(front, op, at[p]);
    }
    assert Put(tr.early, KeyAt(op), op.record) == more;
    assert IsAt(ops, (KeyAt(op), op.record), |front|);
    ListedNewest(ops, more, at + [|front|]);
  }

  lemma {:induction false} ListedNewest(ops: seq<Op>, early: seq<(Key, Record)>, at: seq<nat>)
    requires Listed(ops, early, at)
    ensures Listed(ops, Newest(early), Newest(at))
  {
    var k := if |at| > WAIT_PERIODS then 1 else 0;
    forall p | 0 <= p < |at| - k
      ensures IsAt(ops, early[k..][p], at[k..][p])
    {
      assert IsAt(ops, early[k + p], at[k + p]);
    }
  }

  // ---- whole runs ----

  lemma {:induction false} RecordKeeps(front: seq<Op>, op: Op, keys: seq<Key>, tr: Track)
    requires op.AfeOp? && NewOps(front + [op]) && Distinct(keys) && keys == Keys(front + [op]) && Count(front) == |keys|
    requires Sound(front, keys, tr, Count(front) - WAIT_PERIODS) && Proper(tr)
    ensures Sound(front + [op], keys, Afe(tr, op.sub, op.record), Count(front) - WAIT_PERIODS)
  {
    var limit, i := Count(front) - WAIT_PERIODS, IndexOf(tr.waiting, KeyAt(op));
    var all: seq<Option<Record>>, at: seq<nat> :| Ideal(front, keys, all, at) && Holds(front, keys, all, at, tr, limit);
    if i.Some? {
      RecordGiven(front, op, keys, all, at, tr, limit, i.value);
    } else {
      RecordKept(front, op, keys, all, at, tr, limit);
    }
  }

  lemma {:induction false} RecordGiven(
    front: seq<Op>, op: Op, keys: seq<Key>, all: seq<Option<Record>>, at: seq<nat>, tr: Track, limit: int, i: nat)
    requires op.AfeOp? && NewOps(front + [op]) && Distinct(keys) && keys == Keys(front + [op]) && Count(front) == |keys|
    requires Ideal(front, keys, all, at) && Holds(front, keys, all, at, tr, limit) && limit == Count(front) - WAIT_PERIODS
    requires IndexOf(tr.waiting, KeyAt(op)) == Some(i)
    ensures Sound(front + [op], keys, Afe(tr, op.sub, op.record), limit)
  {
    WaitingGets(front, op, keys, all, at, tr, limit, i);
    IdealGets(front, op, keys, all, at, tr.waiting[i].1);
  }

  lemma {:induction false} RecordKept(front: seq<Op>, op: Op, keys: seq<Key>, all: seq<Option<Record>>, at: seq<nat>, tr: Track, limit: int)
    requires op.AfeOp? && NewOps(front + [op]) && keys == Keys(front + [op]) && Count(front) == |keys|
    requires Ideal(front, keys, all, at) && Holds(front, keys, all, at, tr, limit) && limit == Count(front) - WAIT_PERIODS
    requires IndexOf(tr.waiting, KeyAt(op)).None?
    ensures Sound(front + [op], keys, Afe(tr, op.sub, op.record), limit)
  {
    NotClaimed(front, op, keys, all, tr.waiting);
    EarlyGets(front, op, keys, all, at, tr, limit);
    IdealHolds(front, op, keys, all, at);
  }

  lemma {:induction false} RecordTakesNone(front: seq<Op>, op: Op)
    requires op.AfeOp?
    ensures Keys(front + [op]) == Keys(front) && Count(front + [op]) == Count(front) == |Keys(front)|
  {
    KeysCount(front);
    EventsSnoc(front, op);
    assert [Arrive(KeyAt(op), op.record)][..0] == [];
  }

  lemma {:induction false} CappedKeeps(capacity: nat, ops: seq<Op>, keys: seq<Key>, tr: Track, limit: int, limit': int)
    requires Sound(ops, keys, tr, limit) && Proper(tr) && limit <= limit'
    ensures var c := Cap(tr, capacity); Sound(ops, keys, c.(waiting := Expired(c.waiting, limit')), limit')
  {
    var all: seq<Option<Record>>, at: seq<nat> :| Ideal(ops, keys, all, at) && Holds(ops, keys, all, at, tr, limit);
    CapKeeps(all, tr, capacity);
    GivesUp(keys, all, tr.waiting, limit, limit');
    var c := Cap(tr, capacity);
    assert Holds(ops, keys, all, at, c.(waiting := Expired(c.waiting, limit')), limit');
  }

  lemma {:induction false} SoundComes(front: seq<Op>, op: Op, keys: seq<Key>, tr: Track, limit: int)
    requires op.MicOp? && Sound(front, keys, tr, limit)
    ensures Sound(front + [op], keys, tr, limit) && tr.floor + |tr.periods| == |keys|
  {
    var all: seq<Option<Record>>, at: seq<nat> :| Ideal(front, keys, all, at) && Holds(front, keys, all, at, tr, limit);
    BlockComes(front, op, keys, all, at);
    ListedStays(front, op, tr.early, at);
    assert Holds(front + [op], keys, all, at, tr, limit);
  }

  lemma {:induction false} SoundAnyway(ops: seq<Op>, keys: seq<Key>, tr: Track, limit: int, samples: nat)
    requires Sound(ops, keys, tr, limit)
    ensures Sound(ops, keys, tr.(samples := samples), limit)
  {
    var all: seq<Option<Record>>, at: seq<nat> :| Ideal(ops, keys, all, at) && Holds(ops, keys, all, at, tr, limit);
    assert Holds(ops, keys, all, at, tr.(samples := samples), limit);
  }

  /** One block: its periods are taken, the window is cut, and what the limit has passed gives up. */
  lemma {:induction false} BlockKeeps(capacity: nat, front: seq<Op>, op: Op, tr: Track)
    requires op.MicOp? && NewOps(front) && Distinct(Keys(front + [op])) && Proper(tr) && tr.samples == Samples(front)
    requires Sound(front, Keys(front), tr, Count(front) - WAIT_PERIODS)
    ensures Sound(front + [op], Keys(front + [op]), Mic(tr, capacity, op.sub, op.start, op.n), Count(front + [op]) - WAIT_PERIODS)
  {
    var lo, hi := Count(front), Count(front + [op]);
    BlockAdds(front, op);
    BlockCounts(front, op);
    BlockKeys(op.sub, op.start, tr.samples, lo, hi);
    BlockSteps(capacity, front, op, Keys(front), Taken(BlockEvents(op.sub, op.start, tr.samples, lo, hi)), Keys(front + [op]), tr, lo, hi);
  }

  lemma {:induction false} BlockSteps(
    capacity: nat, front: seq<Op>, op: Op, keys: seq<Key>, more: seq<Key>, keys': seq<Key>, tr: Track, lo: nat, hi: nat)
    requires op.MicOp? && NewOps(front) && keys' == keys + more && Distinct(keys') && Proper(tr)
    requires Sound(front, keys, tr, lo - WAIT_PERIODS) && AreKeys(more, op.sub, op.start, tr.samples, lo)
    requires |keys| == lo <= hi == |keys'| && Count(front) <= lo && lo == Middles(tr.samples) && hi == Middles(tr.samples + op.n)
    ensures Sound(front + [op], keys', Mic(tr, capacity, op.sub, op.start, op.n), hi - WAIT_PERIODS)
  {
    var t := tr.(samples := tr.samples + op.n);
    SoundAnyway(front, keys, tr, lo - WAIT_PERIODS, t.samples);
    BlockTakes(front, keys, more, t, lo - WAIT_PERIODS, op.sub, op.start, tr.samples, lo, hi);
    var taken := TakeBlock(t, op.sub, op.start, tr.samples, lo, hi);
    SoundComes(front, op, keys', taken, lo - WAIT_PERIODS);
    CappedKeeps(capacity, front + [op], keys', taken, lo - WAIT_PERIODS, hi - WAIT_PERIODS);
    MicIs(capacity, tr, op, taken, lo, hi);
  }

  lemma {:induction false} BlockAdds(front: seq<Op>, op: Op)
    requires op.MicOp?
    ensures Keys(front + [op]) == Keys(front) + Taken(BlockEvents(op.sub, op.start, Samples(front), Count(front), Count(front + [op])))
    ensures Samples(front + [op]) == Samples(front) + op.n
  {
    EventsSnoc(front, op);
  }

  lemma {:induction false} BlockCounts(front: seq<Op>, op: Op)
    ensures |Keys(front)| == Count(front) <= Count(front + [op]) == |Keys(front + [op])|
  {
    KeysCount(front);
    KeysCount(front + [op]);
    CountGrows(front + [op], |front|);
    assert (front + [op])[..|front|] == front;
  }

  lemma {:induction false} MicIs(capacity: nat, tr: Track, op: Op, taken: Track, lo: nat, hi: nat)
    requires Proper(tr) && op.MicOp? && taken.floor + |taken.periods| == hi && Proper(taken)
    requires lo == Middles(tr.samples) && hi == Middles(tr.samples + op.n)
    requires taken == TakeBlock(tr.(samples := tr.samples + op.n), op.sub, op.start, tr.samples, lo, hi)
    ensures var c := Cap(taken, capacity);
      Mic(tr, capacity, op.sub, op.start, op.n) == c.(waiting := Expired(c.waiting, hi - WAIT_PERIODS))
  {
    assert Taking(tr, capacity, op.sub, op.start, op.n) == Cap(taken, capacity);
  }

  lemma {:induction false} RunLast(capacity: nat, front: seq<Op>, op: Op)
    ensures Run(capacity, front + [op]) == Apply(Run(capacity, front), capacity, op)
  {
    assert (front + [op])[..|front|] == front;
  }

  lemma {:induction false} OpKeeps(capacity: nat, front: seq<Op>, op: Op, tr: Track, tr': Track)
    requires NewOps(front + [op]) && NewOps(front) && Distinct(Keys(front + [op])) && Distinct(Keys(front))
    requires Proper(tr) && tr.samples == Samples(front) && tr' == Apply(tr, capacity, op)
    requires Sound(front, Keys(front), tr, Count(front) - WAIT_PERIODS)
    ensures Sound(front + [op], Keys(front + [op]), tr', Count(front + [op]) - WAIT_PERIODS)
  {
    if op.MicOp? {
      BlockKeeps(capacity, front, op, tr);
    } else {
      RecordTakesNone(front, op);
      RecordKeeps(front, op, Keys(front), tr);
    }
  }

  lemma {:induction false} RunIsSound(capacity: nat, ops: seq<Op>)
    requires NewOps(ops) && Distinct(Keys(ops))
    ensures Sound(ops, Keys(ops), Run(capacity, ops), Count(ops) - WAIT_PERIODS)
    decreases |ops|, 0
  {
    if ops == [] {
      EmptyIsSound(capacity);
    } else {
      LastSplit(ops);
      RunGoesOn(capacity, ops, ops[..|ops| - 1], ops[|ops| - 1]);
    }
  }

  lemma LastSplit(ops: seq<Op>)
    requires ops != []
    ensures ops == ops[..|ops| - 1] + [ops[|ops| - 1]]
  {
  }

  lemma {:induction false} RunGoesOn(capacity: nat, ops: seq<Op>, front: seq<Op>, op: Op)
    requires NewOps(ops) && Distinct(Keys(ops)) && ops == front + [op]
    ensures Sound(ops, Keys(ops), Run(capacity, ops), Count(ops) - WAIT_PERIODS)
    decreases |front|, 1
  {
    FrontIsApart(front, op);
    RunIsSound(capacity, front);
    RunLast(capacity, front, op);
    SamplesOf(capacity, front);
    OpKeeps(capacity, front, op, Run(capacity, front), Run(capacity, ops));
  }

  lemma EmptyIsSound(capacity: nat)
    ensures Sound([], Keys([]), Run(capacity, []), Count([]) - WAIT_PERIODS)
  {
    assert Ideal([], [], [], []) && Holds([], [], [], [], EMPTY, Count([]) - WAIT_PERIODS);
  }

  /** In any run, whatever gives up or is pushed out, the window ends at the newest period and each
      period in it shows exactly its record, if it has one. */
  lemma {:induction false} EachPeriodShowsItsRecord(capacity: nat, ops: seq<Op>)
    requires NewOps(ops) && Distinct(Keys(ops))
    ensures ShowsRecords(ops, Keys(ops), Run(capacity, ops))
  {
    RunIsSound(capacity, ops);
    SoundShows(ops, Keys(ops), Run(capacity, ops), Count(ops) - WAIT_PERIODS);
  }

  lemma {:induction false} SoundShows(ops: seq<Op>, keys: seq<Key>, tr: Track, limit: int)
    requires Sound(ops, keys, tr, limit)
    ensures ShowsRecords(ops, keys, tr)
  {
    var all: seq<Option<Record>>, at: seq<nat> :| Ideal(ops, keys, all, at) && Holds(ops, keys, all, at, tr, limit);
    forall i | 0 <= i < |tr.periods|
      ensures Shown(ops, keys, tr.floor + i, tr.periods[i])
    {
      assert all[tr.floor..][i] == all[tr.floor + i];
      assert Shown(ops, keys, tr.floor + i, all[tr.floor + i]);
    }
  }

  lemma {:induction false} FrontIsApart(front: seq<Op>, op: Op)
    requires NewOps(front + [op]) && Distinct(Keys(front + [op]))
    ensures NewOps(front) && Distinct(Keys(front))
  {
    EventsSnoc(front, op);
    var more := Keys(front + [op]);
    assert forall j :: 0 <= j < |Keys(front)| ==> more[j] == Keys(front)[j];
    assert forall i :: 0 <= i < |front| ==> (front + [op])[i] == front[i];
  }

  /** A record that comes after its period was taken is shown exactly if no more than 250 periods have
      been taken since that one; otherwise the period stays empty. */
  lemma {:induction false} LateRecord(capacity: nat, ops: seq<Op>, x: nat, j: nat)
    requires NewOps(ops) && Distinct(Keys(ops)) && Came(ops, x) && j < |Keys(ops)| && Keys(ops)[j] == KeyAt(ops[x])
    requires j < Count(ops[..x])
    ensures var tr := Run(capacity, ops); tr.floor + |tr.periods| == |Keys(ops)| && (tr.floor <= j ==>
      tr.periods[j - tr.floor] == if Count(ops[..x]) - j <= WAIT_PERIODS then Some(ops[x].record) else None)
  {
    EachPeriodShowsItsRecord(capacity, ops);
    PlacedLate(ops, Keys(ops), x, j);
    LateShows(ops, Keys(ops), Run(capacity, ops), x, j);
  }

  lemma {:induction false} PlacedLate(ops: seq<Op>, keys: seq<Key>, x: nat, j: nat)
    requires Came(ops, x) && j < |keys| && keys[j] == KeyAt(ops[x]) && j < Count(ops[..x])
    ensures Placed(ops, keys, x, j) <==> Count(ops[..x]) - j <= WAIT_PERIODS
  {
    forall e: nat | PushedBy(ops, x, e)
      ensures j < Count(ops[..e])
    {
      assert ops[..e][..x] == ops[..x];
      CountGrows(ops[..e], x);
    }
  }

  lemma {:induction false} LateShows(ops: seq<Op>, keys: seq<Key>, tr: Track, x: nat, j: nat)
    requires NewOps(ops) && ShowsRecords(ops, keys, tr) && Came(ops, x) && j < |keys| && keys[j] == KeyAt(ops[x])
    ensures tr.floor <= j ==> tr.periods[j - tr.floor] == (if Placed(ops, keys, x, j) then Some(ops[x].record) else None)
  {
    if tr.floor <= j {
      assert Shown(ops, keys, tr.floor + (j - tr.floor), tr.periods[j - tr.floor]);
      OnlyOwn(ops, keys, x, j);
    }
  }

  lemma OnlyOwn(ops: seq<Op>, keys: seq<Key>, x: nat, j: nat)
    requires NewOps(ops) && Came(ops, x) && j < |keys| && keys[j] == KeyAt(ops[x])
    ensures Unplaced(ops, keys, j) || Placed(ops, keys, x, j)
  {
  }
}
