/** What the shared reference ring keeps (controller/em_audio_timeline.py, `ReferenceTimeline`): every
    epoch reads back what was first handed in for it, until the floor passes it. */
module Epochs {
  import opened Basics
  import opened Intervals
  import opened RingSpec
  import opened ReferenceSpec
  import opened References

  type Handing = map<(int, int), int>

  /** The values of a write that are the first for their epoch's index. */
  function Firsts(m: Handing, epoch: int, first: int, data: seq<int>): (r: Handing)
    ensures forall e, i :: (e, i) in r <==> (e, i) in m || (e == epoch && first <= i < first + |data|)
    ensures forall e, i :: (e, i) in r ==>
      r[(e, i)] == if (e, i) in m then m[(e, i)] else if first <= i < first + |data| then data[i - first] else 0
  {
    if data == [] then m
    else
      var n := |data| - 1;
      var r := Firsts(m, epoch, first, data[..n]);
      if (epoch, first + n) in m then r else r[(epoch, first + n) := data[n]]
  }

  function Other(m: Handing, epoch: int): Handing {
    map k | k in m && k.0 != epoch :: m[k]
  }

  /** The first value handed in for each index of each epoch since the epoch's present segment was
      created. It knows no ring, no bounds and no floor. */
  function FirstHanded(capacity: int, ops: seq<RefOp>): Handing {
    if ops == [] then map[]
    else
      var front, op := ops[..|ops| - 1], ops[|ops| - 1];
      var m := FirstHanded(capacity, front);
      match op
      case TrimToOp(_) => m
      case WriteOp(epoch, first, data) =>
        Firsts(if Find(ReferenceSpec.Run(capacity, front).segments, epoch).None? then Other(m, epoch) else m, epoch, first, data)
  }

  predicate Holds(seg: Segment, x: int) { seg.lo <= x < seg.hi }

  /** Inside a segment, from the floor on, the ring knows exactly what was handed in, first copies. */
  ghost predicate Exact(seg: Segment, v: View<int>, m: Handing) {
    forall x :: Holds(seg, x) && v.floor <= x ==> ExactAt(seg, v, m, x)
  }

  /** No known sample lies outside the segments. */
  ghost predicate Covered(s: Reference) {
    forall x :: x in s.store.values ==> SomeHolds(s.segments, x)
  }

  predicate SomeHolds(segments: seq<Segment>, x: int) { exists i :: 0 <= i < |segments| && Holds(segments[i], x) }

  ghost predicate Kept(s: Reference, capacity: int, m: Handing) {
    && Bounded(s.store, capacity) && 0 <= Base(s.store) && 0 <= s.store.floor && Ordered(s.segments, Base(s.store))
    && (forall i :: 0 <= i < |s.segments| ==> Exact(s.segments[i], s.store, m)) && Covered(s)
  }

  // ---- dropping ----

  /** Only segments that end at or before the floor are dropped, oldest first, and one stays. */
  lemma {:induction false} DropsPassed(segments: seq<Segment>, floor: int) returns (k: nat)
    ensures k <= |segments| && DropForgotten(segments, floor) == segments[k..]
    ensures forall i :: 0 <= i < k ==> segments[i].hi <= floor
    ensures segments != [] ==> k < |segments| && (k == |segments| - 1 || floor < segments[k].hi)
  {
    if |segments| > 1 && segments[0].hi <= floor {
      k := DropsPassed(segments[1..], floor);
      assert segments[1..][k..] == segments[k + 1..];
      k := k + 1;
    } else {
      k := 0;
      assert segments[0..] == segments;
    }
  }

  lemma {:induction false} DropCovers(s: Reference, store: View<int>, base: int)
    requires Ordered(s.segments, base) && Covered(Reference(store, s.segments))
    requires forall x :: x in store.values ==> store.floor <= x
    ensures Covered(Reference(store, DropForgotten(s.segments, store.floor)))
  {
    var k := DropsPassed(s.segments, store.floor);
    forall x | x in store.values
      ensures SomeHolds(s.segments[k..], x)
    {
      var i :| 0 <= i < |s.segments| && Holds(s.segments[i], x);
      assert s.segments[k..][i - k] == s.segments[i];
    }
  }

  lemma {:induction false} DropStaysExact(segments: seq<Segment>, store: View<int>, base: int, m: Handing)
    requires Ordered(segments, base) && forall i :: 0 <= i < |segments| ==> Exact(segments[i], store, m)
    ensures var t := DropForgotten(segments, store.floor);
      Ordered(t, base) && forall i :: 0 <= i < |t| ==> Exact(t[i], store, m)
  {
    var k := DropsPassed(segments, store.floor);
    assert forall i :: 0 <= i < |segments| - k ==> segments[k..][i] == segments[k + i];
  }

  // ---- the steps ----

  lemma {:induction false} TrimStaysExact(s: Reference, x: int, m: Handing)
    requires forall i :: 0 <= i < |s.segments| ==> Exact(s.segments[i], s.store, m)
    ensures forall i :: 0 <= i < |s.segments| ==> Exact(s.segments[i], Trim(s.store, x), m)
  {
    forall i | 0 <= i < |s.segments|
      ensures Exact(s.segments[i], Trim(s.store, x), m)
    {
      assert Exact(s.segments[i], s.store, m);
    }
  }

  lemma {:induction false} TrimStaysKept(s: Reference, capacity: int, samples: int, m: Handing)
    requires capacity > 0 && Kept(s, capacity, m)
    ensures Kept(TrimTo(s, samples), capacity, m)
  {
    if s.store.frontier.Some? {
      CutStaysKept(s, capacity, s.store.frontier.value - samples, m);
      DropStaysKept(Reference(Trim(s.store, s.store.frontier.value - samples), s.segments), capacity, m);
    }
  }

  lemma {:induction false} CutStaysKept(s: Reference, capacity: int, x: int, m: Handing)
    requires capacity > 0 && Kept(s, capacity, m) && s.store.frontier.Some?
    ensures Kept(Reference(Trim(s.store, x), s.segments), capacity, m)
  {
    TrimStaysExact(s, x, m);
  }

  lemma {:induction false} DropStaysKept(s: Reference, capacity: int, m: Handing)
    requires Kept(s, capacity, m)
    ensures Kept(Reference(s.store, DropForgotten(s.segments, s.store.floor)), capacity, m)
  {
    DropStaysExact(s.segments, s.store, Base(s.store), m);
    DropCovers(s, s.store, Base(s.store));
  }

  lemma {:induction false} ClosedExact(seg: Segment, v: View<int>, base: int, epoch: int, m: Handing)
    requires Exact(seg, v, m) && seg.epoch != epoch
    ensures Exact(seg.(hi := Min(seg.hi, base)), v, Other(m, epoch))
  {
    var closed := seg.(hi := Min(seg.hi, base));
    forall x | Holds(closed, x) && v.floor <= x
      ensures ExactAt(closed, v, Other(m, epoch), x)
    {
      assert Holds(seg, x) && ExactAt(seg, v, m, x);
    }
  }

  lemma {:induction false} NewExact(seg: Segment, v: View<int>, capacity: int, epoch: int, m: Handing)
    requires Bounded(v, capacity) && seg.epoch == epoch && seg.lo == Base(v)
    ensures Exact(seg, v, Other(m, epoch))
  {
  }

  /** A new segment starts where nothing is known, and closing the others there loses nothing. */
  lemma {:induction false} OpenStaysKept(s: Reference, capacity: int, epoch: int, first: int, m: Handing)
    requires capacity > 0 && Kept(s, capacity, m) && Find(s.segments, epoch).None?
    ensures Kept(Reference(s.store, Opened(s, epoch, first)), capacity, Other(m, epoch))
  {
    var t, base, other := Opened(s, epoch, first), Base(s.store), Other(m, epoch);
    forall i | 0 <= i < |t|
      ensures Exact(t[i], s.store, other)
    {
      if i < |s.segments| {
        ClosedExact(s.segments[i], s.store, base, epoch, m);
      } else {
        NewExact(t[i], s.store, capacity, epoch, m);
      }
    }
    forall x | x in s.store.values
      ensures SomeHolds(t, x)
    {
      var i :| 0 <= i < |s.segments| && Holds(s.segments[i], x);
      assert x < base && Holds(t[i], x);
    }
  }

  /** What a ring write does to the indices it keeps. */
  lemma {:induction false} WriteIs(v: View<int>, capacity: int, a: int, part: seq<int>)
    requires capacity > 0 && Bounded(v, capacity) && 0 <= v.floor && 0 <= Base(v)
    ensures var u := Write(v, capacity, a, part);
      Bounded(u, capacity) && Base(v) <= Base(u) && Stores(v, u, a, part)
  {
  }

  /** A sample that a write lays into the ring is the one of the write that its segment holds there. */
  lemma {:induction false} ClipAt(seg: Segment, first: int, data: seq<int>, x: int)
    ensures var (a, part) := Clip(seg, first, data);
      && (a <= x < a + |part| <==> Holds(seg, x) && first <= x - seg.delta < first + |data|)
      && (a <= x < a + |part| ==> part[x - a] == data[x - seg.delta - first])
  {
    var a := Clip(seg, first, data).0;
    if a <= x < a + |Clip(seg, first, data).1| {
      ClipValue(seg, first, data, x - a);
      assert a + (x - a) - seg.delta - first == x - seg.delta - first;
    }
  }

  lemma {:induction false} ClipValue(seg: Segment, first: int, data: seq<int>, k: int)
    requires 0 <= k < |Clip(seg, first, data).1|
    ensures var (a, part) := Clip(seg, first, data);
      0 <= a + k - seg.delta - first < |data| && part[k] == data[a + k - seg.delta - first]
  {
  }

  lemma {:induction false} StoreStaysExact(s: Reference, capacity: int, i: nat, first: int, data: seq<int>, m: Handing, j: nat)
    requires capacity > 0 && Kept(s, capacity, m) && i < |s.segments| && j < |s.segments|
    ensures var (a, part) := Clip(s.segments[i], first, data);
      Exact(s.segments[j], Write(s.store, capacity, a, part), Firsts(m, s.segments[i].epoch, first, data))
  {
    var (a, part) := Clip(s.segments[i], first, data);
    assert i < j ==> s.segments[i].hi <= s.segments[j].lo && s.segments[i].epoch != s.segments[j].epoch;
    assert j < i ==> s.segments[j].hi <= s.segments[i].lo && s.segments[i].epoch != s.segments[j].epoch;
    WriteIs(s.store, capacity, a, part);
    assert Exact(s.segments[j], s.store, m);
    StoredExact(s.segments[i], s.segments[j], s.store, Write(s.store, capacity, a, part), m, first, data);
  }

  predicate Apart(p: Segment, q: Segment) { p.epoch != q.epoch && (p.hi <= q.lo || q.hi <= p.lo) }

  ghost predicate Stores(v: View<int>, u: View<int>, a: int, part: seq<int>) {
    && v.floor <= u.floor
    && (forall x :: u.floor <= x ==> (x in u.values <==> x in v.values || a <= x < a + |part|))
    && (forall x :: x in u.values ==> u.floor <= x && u.values[x] == if x in v.values then v.values[x] else part[x - a])
  }

  lemma {:induction false} StoredExact(into: Segment, seg: Segment, v: View<int>, u: View<int>, m: Handing, first: int, data: seq<int>)
    requires Exact(seg, v, m) && (into == seg || Apart(into, seg))
    requires Stores(v, u, Clip(into, first, data).0, Clip(into, first, data).1)
    ensures Exact(seg, u, Firsts(m, into.epoch, first, data))
  {
    var (a, part) := Clip(into, first, data);
    forall x | Holds(seg, x) && u.floor <= x
      ensures ExactAt(seg, u, Firsts(m, into.epoch, first, data), x)
    {
      ClipAt(into, first, data, x);
      assert ExactAt(seg, v, m, x);
      StoredAt(seg, v, u, m, into.epoch, first, data, a, part, x);
    }
  }

  predicate ExactAt(seg: Segment, v: View<int>, m: Handing, x: int) {
    && (x in v.values <==> (seg.epoch, x - seg.delta) in m)
    && (x in v.values ==> v.values[x] == m[(seg.epoch, x - seg.delta)])
  }

  lemma {:induction false} StoredAt(
    seg: Segment, v: View<int>, u: View<int>, m: Handing, epoch: int, first: int, data: seq<int>, a: int, part: seq<int>, x: int)
    requires ExactAt(seg, v, m, x) && (x in u.values <==> x in v.values || a <= x < a + |part|)
    requires x in u.values ==> u.values[x] == if x in v.values then v.values[x] else part[x - a]
    requires a <= x < a + |part| <==> seg.epoch == epoch && first <= x - seg.delta < first + |data|
    requires a <= x < a + |part| ==> part[x - a] == data[x - seg.delta - first]
    ensures ExactAt(seg, u, Firsts(m, epoch, first, data), x)
  {
  }

  lemma {:induction false} StoreStaysCovered(s: Reference, capacity: int, i: nat, first: int, data: seq<int>, m: Handing)
    requires capacity > 0 && Kept(s, capacity, m) && i < |s.segments|
    ensures var (a, part) := Clip(s.segments[i], first, data); Covered(Reference(Write(s.store, capacity, a, part), s.segments))
  {
    var (a, part) := Clip(s.segments[i], first, data);
    WriteIs(s.store, capacity, a, part);
    forall x | x in Write(s.store, capacity, a, part).values
      ensures SomeHolds(s.segments, x)
    {
      if x !in s.store.values {
        ClipAt(s.segments[i], first, data, x);
        assert Holds(s.segments[i], x);
      }
    }
  }

  /** A write that its segment clips away entirely hands in nothing that the ring should know. */
  lemma {:induction false} NothingStaysKept(s: Reference, capacity: int, i: nat, first: int, data: seq<int>, m: Handing)
    requires capacity > 0 && Kept(s, capacity, m) && i < |s.segments| && Clip(s.segments[i], first, data).1 == []
    ensures Kept(s, capacity, Firsts(m, s.segments[i].epoch, first, data))
  {
    forall j | 0 <= j < |s.segments|
      ensures Exact(s.segments[j], s.store, Firsts(m, s.segments[i].epoch, first, data))
    {
      assert Exact(s.segments[j], s.store, m);
      assert i < j ==> s.segments[i].epoch != s.segments[j].epoch;
      assert j < i ==> s.segments[j].epoch != s.segments[i].epoch;
      forall x | Holds(s.segments[j], x) && s.store.floor <= x
        ensures ExactAt(s.segments[j], s.store, Firsts(m, s.segments[i].epoch, first, data), x)
      {
        ClipAt(s.segments[i], first, data, x);
      }
    }
  }

  lemma {:induction false} WriteStaysKept(s: Reference, capacity: int, i: nat, first: int, data: seq<int>, m: Handing)
    requires capacity > 0 && Kept(s, capacity, m) && i < |s.segments|
    ensures Kept(WriteIn(s, capacity, i, first, data), capacity, Firsts(m, s.segments[i].epoch, first, data))
  {
    var (a, part) := Clip(s.segments[i], first, data);
    if part == [] {
      NothingStaysKept(s, capacity, i, first, data, m);
    } else {
      var store, m' := Write(s.store, capacity, a, part), Firsts(m, s.segments[i].epoch, first, data);
      WriteIs(s.store, capacity, a, part);
      forall j | 0 <= j < |s.segments|
        ensures Exact(s.segments[j], store, m')
      {
        StoreStaysExact(s, capacity, i, first, data, m, j);
      }
      StoreStaysCovered(s, capacity, i, first, data, m);
      DropStaysKept(Reference(store, s.segments), capacity, m');
    }
  }

  lemma {:induction false} EpochStaysKept(s: Reference, capacity: int, epoch: int, first: int, data: seq<int>, m: Handing)
    requires capacity > 0 && Kept(s, capacity, m)
    ensures Kept(WriteEpoch(s, capacity, epoch, first, data), capacity,
      Firsts(if Find(s.segments, epoch).None? then Other(m, epoch) else m, epoch, first, data))
  {
    var t := Reference(s.store, Opened(s, epoch, first));
    if Find(s.segments, epoch).None? {
      OpenStaysKept(s, capacity, epoch, first, m);
      assert t.segments[|s.segments|].epoch == epoch;
      WriteStaysKept(t, capacity, Find(t.segments, epoch).value, first, data, Other(m, epoch));
    } else {
      WriteStaysKept(t, capacity, Find(t.segments, epoch).value, first, data, m);
    }
  }

  /** After any run of writes and trims each segment holds, from the floor on, exactly the first value
      handed in for each index of its epoch, and everything the ring knows lies in some segment. */
  lemma {:induction false} EachEpochIsFirstCopies(capacity: int, ops: seq<RefOp>)
    requires capacity > 0
    ensures Kept(ReferenceSpec.Run(capacity, ops), capacity, FirstHanded(capacity, ops))
  {
    if ops != [] {
      var front, op := ops[..|ops| - 1], ops[|ops| - 1];
      EachEpochIsFirstCopies(capacity, front);
      var s, m := ReferenceSpec.Run(capacity, front), FirstHanded(capacity, front);
      match op
      case TrimToOp(samples) => TrimStaysKept(s, capacity, samples, m);
      case WriteOp(epoch, first, data) => EpochStaysKept(s, capacity, epoch, first, data, m);
    }
  }

  // ---- reading back ----

  /** What the timeline has at an index of an epoch, if it has it. */
  function At(s: Reference, epoch: int, i: int): Option<int> {
    var found := Find(s.segments, epoch);
    if found.None? then None
    else
      var seg := s.segments[found.value];
      if Holds(seg, i + seg.delta) && i + seg.delta in s.store.values then Some(s.store.values[i + seg.delta]) else None
  }

  /** Where that is in the ring. */
  function Place(s: Reference, epoch: int, i: int): int {
    var found := Find(s.segments, epoch);
    if found.None? then i else i + s.segments[found.value].delta
  }

  /** The epoch has a segment around the index, which the floor has not passed. */
  predicate InReach(s: Reference, epoch: int, i: int) {
    var found := Find(s.segments, epoch);
    found.Some? && Holds(s.segments[found.value], i + s.segments[found.value].delta) && s.store.floor <= i + s.segments[found.value].delta
  }

  /** Within reach the timeline has exactly what was first handed in since the segment was created. */
  lemma {:induction false} ReachHasFirstHanded(capacity: int, ops: seq<RefOp>, epoch: int, i: int)
    requires capacity > 0 && InReach(ReferenceSpec.Run(capacity, ops), epoch, i)
    ensures At(ReferenceSpec.Run(capacity, ops), epoch, i) == Get(FirstHanded(capacity, ops), (epoch, i))
  {
    EachEpochIsFirstCopies(capacity, ops);
    KeptInReach(ReferenceSpec.Run(capacity, ops), capacity, FirstHanded(capacity, ops), epoch, i);
  }

  lemma {:induction false} KeptInReach(s: Reference, capacity: int, m: Handing, epoch: int, i: int)
    requires Kept(s, capacity, m) && InReach(s, epoch, i)
    ensures At(s, epoch, i) == Get(m, (epoch, i))
  {
    var seg := s.segments[Find(s.segments, epoch).value];
    assert Exact(seg, s.store, m) && ExactAt(seg, s.store, m, i + seg.delta);
  }

  /** What a read must return: an answer is right if and only if every index of it is within reach and has
      the answer's value as its first one handed in. */
  lemma {:induction false} ReadsBack(capacity: int, ops: seq<RefOp>, epoch: int, a: int, got: seq<int>)
    requires capacity > 0 && got != []
    ensures ReadsFrom(ReferenceSpec.Run(capacity, ops), epoch, a, got) <==>
      forall i :: a <= i < a + |got| ==>
        InReach(ReferenceSpec.Run(capacity, ops), epoch, i) && Get(FirstHanded(capacity, ops), (epoch, i)) == Some(got[i - a])
  {
    var s, m := ReferenceSpec.Run(capacity, ops), FirstHanded(capacity, ops);
    EachEpochIsFirstCopies(capacity, ops);
    if ReadsFrom(s, epoch, a, got) {
      forall i | a <= i < a + |got|
        ensures InReach(s, epoch, i) && Get(m, (epoch, i)) == Some(got[i - a])
      {
        ReadIsAt(s, capacity, epoch, a, got, i);
        ReachHasFirstHanded(capacity, ops, epoch, i);
      }
    } else if forall i :: a <= i < a + |got| ==> InReach(s, epoch, i) && Get(m, (epoch, i)) == Some(got[i - a]) {
      ReachIsRead(capacity, ops, epoch, a, got);
    }
  }

  lemma {:induction false} ReadIsAt(s: Reference, capacity: int, epoch: int, a: int, got: seq<int>, i: int)
    requires Bounded(s.store, capacity) && ReadsFrom(s, epoch, a, got) && a <= i < a + |got|
    ensures InReach(s, epoch, i) && At(s, epoch, i) == Some(got[i - a])
  {
    var delta := s.segments[Find(s.segments, epoch).value].delta;
    assert a + delta <= i + delta < a + delta + |got|;
    assert i + delta in s.store.values;
  }

  lemma {:induction false} ReachIsRead(capacity: int, ops: seq<RefOp>, epoch: int, a: int, got: seq<int>)
    requires capacity > 0 && got != []
    requires forall i :: a <= i < a + |got| ==>
      InReach(ReferenceSpec.Run(capacity, ops), epoch, i) && Get(FirstHanded(capacity, ops), (epoch, i)) == Some(got[i - a])
    ensures ReadsFrom(ReferenceSpec.Run(capacity, ops), epoch, a, got)
  {
    var s := ReferenceSpec.Run(capacity, ops);
    forall i | a <= i < a + |got|
      ensures InReach(s, epoch, i) && At(s, epoch, i) == Some(got[i - a])
    {
      ReachHasFirstHanded(capacity, ops, epoch, i);
    }
    HeldIsRead(s, epoch, a, got);
  }

  lemma {:induction false} HeldIsRead(s: Reference, epoch: int, a: int, got: seq<int>)
    requires got != [] && forall i :: a <= i < a + |got| ==> InReach(s, epoch, i) && At(s, epoch, i) == Some(got[i - a])
    ensures ReadsFrom(s, epoch, a, got)
  {
    assert InReach(s, epoch, a) && InReach(s, epoch, a + |got| - 1);
    var delta := s.segments[Find(s.segments, epoch).value].delta;
    forall x | a + delta <= x < a + delta + |got|
      ensures x in s.store.values && got[x - (a + delta)] == s.store.values[x]
    {
      assert InReach(s, epoch, x - delta);
    }
  }

  lemma {:induction false} FindIs(segments: seq<Segment>, base: int, k: nat)
    requires Ordered(segments, base) && k < |segments|
    ensures Find(segments, segments[k].epoch) == Some(k)
  {
    forall i | 0 <= i < |segments| && i != k
      ensures segments[i].epoch != segments[k].epoch
    {
    }
  }

  /** Dropping leaves every sample from the floor on where it was. */
  lemma {:induction false} DropKeepsAt(segments: seq<Segment>, store: View<int>, base: int, epoch: int, i: int)
    requires Ordered(segments, base) && At(Reference(store, segments), epoch, i).Some? && store.floor <= Place(Reference(store, segments), epoch, i)
    ensures var t := Reference(store, DropForgotten(segments, store.floor));
      At(t, epoch, i) == At(Reference(store, segments), epoch, i) && Place(t, epoch, i) == Place(Reference(store, segments), epoch, i)
  {
    var k := DropsPassed(segments, store.floor);
    SuffixKeepsAt(segments, k, store, base, epoch, i);
  }

  lemma {:induction false} SuffixKeepsAt(segments: seq<Segment>, k: nat, store: View<int>, base: int, epoch: int, i: int)
    requires k <= |segments| && (forall n :: 0 <= n < k ==> segments[n].hi <= store.floor) && Ordered(segments, base)
    requires At(Reference(store, segments), epoch, i).Some? && store.floor <= Place(Reference(store, segments), epoch, i)
    ensures var t := Reference(store, segments[k..]);
      At(t, epoch, i) == At(Reference(store, segments), epoch, i) && Place(t, epoch, i) == Place(Reference(store, segments), epoch, i)
  {
    var j := Find(segments, epoch).value;
    assert k <= j && segments[k..][j - k] == segments[j];
    SuffixOrdered(segments, base, k);
    FindIs(segments[k..], base, j - k);
  }

  lemma {:induction false} SuffixOrdered(segments: seq<Segment>, base: int, k: nat)
    requires Ordered(segments, base) && k <= |segments|
    ensures Ordered(segments[k..], base)
  {
    assert forall n :: 0 <= n < |segments| - k ==> segments[k..][n] == segments[k + n];
  }

  lemma {:induction false} OpenKeepsAt(s: Reference, capacity: int, m: Handing, target: int, first: int, epoch: int, i: int)
    requires capacity > 0 && Kept(s, capacity, m) && At(s, epoch, i).Some?
    ensures var t := Reference(s.store, Opened(s, target, first)); At(t, epoch, i) == At(s, epoch, i) && Place(t, epoch, i) == Place(s, epoch, i)
  {
    if Find(s.segments, target).None? {
      var j := Find(s.segments, epoch).value;
      OpenStaysKept(s, capacity, target, first, m);
      FindIs(Opened(s, target, first), Base(s.store), j);
      ClosedAt(s, Opened(s, target, first), j, epoch, i);
    }
  }

  /** An earlier segment that is closed where nothing is known has what it had. */
  lemma {:induction false} ClosedAt(s: Reference, t: seq<Segment>, j: nat, epoch: int, i: int)
    requires At(s, epoch, i).Some? && Find(s.segments, epoch) == Some(j) && j < |t| && Find(t, epoch) == Some(j)
    requires t[j] == s.segments[j].(hi := Min(s.segments[j].hi, Base(s.store))) && forall x :: x in s.store.values ==> x < Base(s.store)
    ensures At(Reference(s.store, t), epoch, i) == At(s, epoch, i) && Place(Reference(s.store, t), epoch, i) == Place(s, epoch, i)
  {
  }

  lemma {:induction false} WriteKeepsAt(s: Reference, capacity: int, m: Handing, k: nat, first: int, data: seq<int>, epoch: int, i: int)
    requires capacity > 0 && Kept(s, capacity, m) && k < |s.segments| && At(s, epoch, i).Some?
    requires WriteIn(s, capacity, k, first, data).store.floor <= Place(s, epoch, i)
    ensures var t := WriteIn(s, capacity, k, first, data); At(t, epoch, i) == At(s, epoch, i) && Place(t, epoch, i) == Place(s, epoch, i)
  {
    var (a, part) := Clip(s.segments[k], first, data);
    if part != [] {
      var u := Write(s.store, capacity, a, part);
      WriteIs(s.store, capacity, a, part);
      StoreKeepsAt(s, u, a, part, epoch, i);
      DropKeepsAt(s.segments, u, Base(s.store), epoch, i);
    }
  }

  lemma {:induction false} StoreKeepsAt(s: Reference, u: View<int>, a: int, part: seq<int>, epoch: int, i: int)
    requires Stores(s.store, u, a, part) && At(s, epoch, i).Some?
    ensures Place(Reference(u, s.segments), epoch, i) == Place(s, epoch, i)
    ensures u.floor <= Place(s, epoch, i) ==> At(Reference(u, s.segments), epoch, i) == At(s, epoch, i)
  {
  }

  lemma {:induction false} TrimKeepsAt(s: Reference, capacity: int, m: Handing, samples: int, epoch: int, i: int)
    requires capacity > 0 && Kept(s, capacity, m) && At(s, epoch, i).Some? && TrimTo(s, samples).store.floor <= Place(s, epoch, i)
    ensures var t := TrimTo(s, samples); At(t, epoch, i) == At(s, epoch, i) && Place(t, epoch, i) == Place(s, epoch, i)
  {
    if s.store.frontier.Some? {
      DropKeepsAt(s.segments, Trim(s.store, s.store.frontier.value - samples), Base(s.store), epoch, i);
    }
  }

  /** One write or trim leaves a sample readable, with its value and its place, unless the floor passes it. */
  lemma {:induction false} StepKeepsAt(s: Reference, capacity: int, m: Handing, op: RefOp, epoch: int, i: int)
    requires capacity > 0 && Kept(s, capacity, m) && At(s, epoch, i).Some? && ReferenceSpec.Apply(s, capacity, op).store.floor <= Place(s, epoch, i)
    ensures var t := ReferenceSpec.Apply(s, capacity, op); At(t, epoch, i) == At(s, epoch, i) && Place(t, epoch, i) == Place(s, epoch, i)
  {
    match op
    case TrimToOp(samples) => TrimKeepsAt(s, capacity, m, samples, epoch, i);
    case WriteOp(target, first, data) => EpochKeepsAt(s, capacity, m, target, first, data, epoch, i);
  }

  lemma {:induction false} EpochKeepsAt(s: Reference, capacity: int, m: Handing, target: int, first: int, data: seq<int>, epoch: int, i: int)
    requires capacity > 0 && Kept(s, capacity, m) && At(s, epoch, i).Some?
    requires WriteEpoch(s, capacity, target, first, data).store.floor <= Place(s, epoch, i)
    ensures var t := WriteEpoch(s, capacity, target, first, data); At(t, epoch, i) == At(s, epoch, i) && Place(t, epoch, i) == Place(s, epoch, i)
  {
    var t := Reference(s.store, Opened(s, target, first));
    OpenKeepsAt(s, capacity, m, target, first, epoch, i);
    var m' := OpenedKept(s, capacity, m, target, first);
    WriteKeepsAt(t, capacity, m', Find(t.segments, target).value, first, data, epoch, i);
  }

  lemma {:induction false} OpenedKept(s: Reference, capacity: int, m: Handing, target: int, first: int) returns (m': Handing)
    requires capacity > 0 && Kept(s, capacity, m)
    ensures Find(Opened(s, target, first), target).Some? && Kept(Reference(s.store, Opened(s, target, first)), capacity, m')
  {
    m' := m;
    if Find(s.segments, target).None? {
      m' := Other(m, target);
      OpenStaysKept(s, capacity, target, first, m);
      assert Opened(s, target, first)[|s.segments|].epoch == target;
    }
  }

  lemma {:induction false} FloorRises(capacity: int, ops: seq<RefOp>, op: RefOp)
    requires capacity > 0
    ensures ReferenceSpec.Run(capacity, ops).store.floor <= ReferenceSpec.Apply(ReferenceSpec.Run(capacity, ops), capacity, op).store.floor
  {
  }

  /** A sample that is readable stays so, whatever epochs are opened, closed and written since, until the
      floor passes its place in the ring. */
  lemma {:induction false} ReadableUntilPassed(capacity: int, ops: seq<RefOp>, more: seq<RefOp>, epoch: int, i: int)
    requires capacity > 0 && At(ReferenceSpec.Run(capacity, ops), epoch, i).Some?
    requires ReferenceSpec.Run(capacity, ops + more).store.floor <= Place(ReferenceSpec.Run(capacity, ops), epoch, i)
    ensures var s, t := ReferenceSpec.Run(capacity, ops), ReferenceSpec.Run(capacity, ops + more);
      At(t, epoch, i) == At(s, epoch, i) && Place(t, epoch, i) == Place(s, epoch, i)
  {
    if more == [] {
      assert ops + more == ops;
    } else {
      var front, op := more[..|more| - 1], more[|more| - 1];
      assert (ops + more)[..|ops + more| - 1] == ops + front;
      FloorRises(capacity, ops + front, op);
      ReadableUntilPassed(capacity, ops, front, epoch, i);
      EachEpochIsFirstCopies(capacity, ops + front);
      StepKeepsAt(ReferenceSpec.Run(capacity, ops + front), capacity, FirstHanded(capacity, ops + front), op, epoch, i);
    }
  }

  // ---- the ring beneath ----

  /** What each operation asks of the ring. */
  function RingOps(capacity: int, ops: seq<RefOp>): seq<RingSpec.Op<int>> {
    if ops == [] then []
    else
      var front, op := ops[..|ops| - 1], ops[|ops| - 1];
      var s, before := ReferenceSpec.Run(capacity, front), RingOps(capacity, front);
      match op
      case TrimToOp(samples) => if s.store.frontier.None? then before else before + [RingSpec.TrimOp(s.store.frontier.value - samples)]
      case WriteOp(epoch, first, data) =>
        var t := Opened(s, epoch, first);
        var found := Find(t, epoch);
        if found.None? then before
        else
          var (a, part) := Clip(t[found.value], first, data);
          if part == [] then before else before + [RingSpec.WriteOp(a, part)]
  }

  /** The store is a sample ring like any other, so what is proved of its floor holds here. */
  lemma {:induction false} StoreIsRing(capacity: int, ops: seq<RefOp>)
    requires capacity > 0
    ensures ReferenceSpec.Run(capacity, ops).store == RingSpec.Run(capacity, RingOps(capacity, ops))
    ensures FloorIs(ReferenceSpec.Run(capacity, ops).store, capacity, TopTrim(RingOps(capacity, ops)), Ends(RingOps(capacity, ops), true))
  {
    if ops != [] {
      var front := ops[..|ops| - 1];
      StoreIsRing(capacity, front);
      var before, now := RingOps(capacity, front), RingOps(capacity, ops);
      assert now != before ==> now[..|now| - 1] == before;
    }
    RunFloor(capacity, RingOps(capacity, ops));
  }
}
