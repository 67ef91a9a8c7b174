/** Several reference epochs packed into one sample ring (controller/em_audio_timeline.py,
    `ReferenceTimeline` and `ReferenceView`). */
module ReferenceSpec {
  import opened Basics
  import opened Intervals
  import opened RingSpec

  /** Where an epoch lies in the ring: its sample i at ring index i + delta, for indices in [lo, hi). */
  datatype Segment = Segment(epoch: int, delta: int, lo: int, hi: int)

  datatype Reference = Reference(store: View<int>, segments: seq<Segment>)

  function Base(store: View<int>): int {
    if store.frontier.None? then 0 else store.frontier.value
  }

  function Find(segments: seq<Segment>, epoch: int): (r: Option<nat>)
    ensures r.Some? ==> r.value < |segments| && segments[r.value].epoch == epoch
    ensures r.None? ==> forall i :: 0 <= i < |segments| ==> segments[i].epoch != epoch
  {
    if segments == [] then None
    else if segments[|segments| - 1].epoch == epoch then Some(|segments| - 1)
    else Find(segments[..|segments| - 1], epoch)
  }

  /** Every segment ends at `base` at the latest. */
  function Closed(segments: seq<Segment>, base: int): (r: seq<Segment>)
    ensures |r| == |segments|
    ensures forall i :: 0 <= i < |r| ==> r[i] == segments[i].(hi := Min(segments[i].hi, base))
  {
    seq(|segments|, i requires 0 <= i < |segments| => segments[i].(hi := Min(segments[i].hi, base)))
  }

  /** The segments with one for `epoch`: a new one starts at the frontier and closes the others there. */
  function Opened(s: Reference, epoch: int, first: int): seq<Segment> {
    if Find(s.segments, epoch).Some? then s.segments
    else Closed(s.segments, Base(s.store)) + [Segment(epoch, Base(s.store) - first, Base(s.store), U64_MAX)]
  }

  /** Drop the oldest segments the floor has passed, always keeping one. */
  function DropForgotten(segments: seq<Segment>, floor: int): seq<Segment> {
    if |segments| > 1 && segments[0].hi <= floor then DropForgotten(segments[1..], floor) else segments
  }

  function WriteRing(s: Reference, capacity: int, a: int, part: seq<int>): Reference {
    var store := Write(s.store, capacity, a, part);
    Reference(store, DropForgotten(s.segments, store.floor))
  }

  /** The part of a write that lies in a segment, and its ring index. */
  function Clip(seg: Segment, first: int, data: seq<int>): (r: (int, seq<int>))
    ensures r.1 != [] ==> seg.lo <= r.0 && r.0 + |r.1| <= seg.hi
    ensures forall k :: 0 <= k < |r.1| ==> 0 <= r.0 + k - seg.delta - first < |data| && r.1[k] == data[r.0 + k - seg.delta - first]
    ensures |r.1| == Max(0, Min(first + seg.delta + |data|, seg.hi) - Max(first + seg.delta, seg.lo))
  {
    var g0 := first + seg.delta;
    var a, b := Max(g0, seg.lo), Min(g0 + |data|, seg.hi);
    if a >= b then (a, []) else (a, data[a - g0..b - g0])
  }

  /** The part of a write that lies in segment i goes to the ring. */
  function WriteIn(s: Reference, capacity: int, i: nat, first: int, data: seq<int>): Reference
    requires i < |s.segments|
  {
    var (a, part) := Clip(s.segments[i], first, data);
    if part == [] then s else WriteRing(s, capacity, a, part)
  }

  function WriteEpoch(s: Reference, capacity: int, epoch: int, first: int, data: seq<int>): Reference {
    var t := Reference(s.store, Opened(s, epoch, first));
    assert Find(s.segments, epoch).None? ==> t.segments[|s.segments|].epoch == epoch;
    WriteIn(t, capacity, Find(t.segments, epoch).value, first, data)
  }

  function TrimTo(s: Reference, samples: int): Reference {
    if s.store.frontier.None? then s
    else
      var store := Trim(s.store, s.store.frontier.value - samples);
      Reference(store, DropForgotten(s.segments, store.floor))
  }

  datatype RefOp = WriteOp(epoch: int, first: int, data: seq<int>) | TrimToOp(samples: int)

  function Apply(s: Reference, capacity: int, op: RefOp): Reference {
    match op
    case WriteOp(epoch, first, data) => WriteEpoch(s, capacity, epoch, first, data)
    case TrimToOp(samples) => TrimTo(s, samples)
  }

  function Run(capacity: int, ops: seq<RefOp>): Reference {
    if ops == [] then Reference(Empty(), []) else Apply(Run(capacity, ops[..|ops| - 1]), capacity, ops[|ops| - 1])
  }

  /** (epoch, index, value) of every sample handed to one write, clipped by nothing. */
  function Handed(epoch: int, first: int, data: seq<int>): set<(int, int, int)> {
    set k | 0 <= k < |data| :: (epoch, first + k, data[k])
  }

  function Without(w: set<(int, int, int)>, epoch: int): set<(int, int, int)> {
    set t | t in w && t.0 != epoch
  }

  /** Everything handed in for each epoch since its present segment was created: what a reader of
      that epoch may see. */
  function Written(capacity: int, ops: seq<RefOp>): set<(int, int, int)> {
    if ops == [] then {}
    else
      var front, op := ops[..|ops| - 1], ops[|ops| - 1];
      var w := Written(capacity, front);
      if op.TrimToOp? then w
      else if Find(Run(capacity, front).segments, op.epoch).None? then Without(w, op.epoch) + Handed(op.epoch, op.first, op.data)
      else w + Handed(op.epoch, op.first, op.data)
  }

  predicate Ordered(segments: seq<Segment>, base: int) {
    && (forall i, j :: 0 <= i < j < |segments| ==> segments[i].hi <= segments[j].lo && segments[i].epoch != segments[j].epoch)
    && (forall i :: 0 <= i < |segments| ==> 0 <= segments[i].lo <= base)
  }

  /** Every known sample inside a segment was handed in for that segment's epoch at that index. */
  ghost predicate Isolated(s: Reference, w: set<(int, int, int)>) {
    forall i :: 0 <= i < |s.segments| ==> Owned(s.segments[i], s.store.values, w)
  }

  ghost predicate Owned(seg: Segment, values: map<int, int>, w: set<(int, int, int)>) {
    forall x :: x in values && seg.lo <= x < seg.hi ==> (seg.epoch, x - seg.delta, values[x]) in w
  }

  /** A ring write only adds its own samples. */
  lemma WriteAdds(v: View<int>, capacity: int, first: int, data: seq<int>)
    requires capacity > 0 && Bounded(v, capacity) && 0 <= Base(v) && 0 <= v.floor && 0 <= first
    ensures var u := Write(v, capacity, first, data);
      && Bounded(u, capacity) && Base(v) <= Base(u) && v.floor <= u.floor
      && forall x :: x in u.values ==>
        (x in v.values && u.values[x] == v.values[x]) || (first <= x < first + |data| && u.values[x] == data[x - first])
  {
  }

  lemma {:induction false} DropIsSuffix(segments: seq<Segment>, floor: int)
    ensures exists k :: 0 <= k <= |segments| && DropForgotten(segments, floor) == segments[k..]
  {
    if |segments| > 1 && segments[0].hi <= floor {
      DropIsSuffix(segments[1..], floor);
      var k :| 0 <= k <= |segments| - 1 && DropForgotten(segments[1..], floor) == segments[1..][k..];
      assert segments[1..][k..] == segments[k + 1..];
    } else {
      assert segments[0..] == segments;
    }
  }

  lemma SuffixKeeps(segments: seq<Segment>, k: nat, base: int, values: map<int, int>, w: set<(int, int, int)>)
    requires k <= |segments| && Ordered(segments, base)
    requires forall i :: 0 <= i < |segments| ==> Owned(segments[i], values, w)
    ensures Ordered(segments[k..], base) && forall i :: 0 <= i < |segments| - k ==> Owned(segments[k..][i], values, w)
  {
    assert forall i :: 0 <= i < |segments| - k ==> segments[k..][i] == segments[k + i];
  }

  lemma FewerOwned(seg: Segment, more: map<int, int>, fewer: map<int, int>, w: set<(int, int, int)>)
    requires Owned(seg, more, w) && forall x :: x in fewer ==> x in more && fewer[x] == more[x]
    ensures Owned(seg, fewer, w)
  {
  }

  /** Dropping segments and forgetting samples keeps epochs isolated. */
  lemma DropKeeps(s: Reference, store: View<int>, base: int, w: set<(int, int, int)>)
    requires Ordered(s.segments, base) && Isolated(s, w)
    requires forall x :: x in store.values ==> x in s.store.values && store.values[x] == s.store.values[x]
    ensures var t := Reference(store, DropForgotten(s.segments, store.floor)); Ordered(t.segments, base) && Isolated(t, w)
  {
    DropIsSuffix(s.segments, store.floor);
    var k: nat :| k <= |s.segments| && DropForgotten(s.segments, store.floor) == s.segments[k..];
    SuffixKeeps(s.segments, k, base, s.store.values, w);
    forall i | 0 <= i < |s.segments| - k
      ensures Owned(s.segments[k..][i], store.values, w)
    {
      FewerOwned(s.segments[k..][i], s.store.values, store.values, w);
    }
  }

  /** Opening a segment: nothing known lies in it yet, so the epoch starts from nothing. */
  lemma OpenKeeps(s: Reference, capacity: int, epoch: int, first: int, w: set<(int, int, int)>)
    requires capacity > 0 && Bounded(s.store, capacity) && 0 <= Base(s.store)
    requires Ordered(s.segments, Base(s.store)) && Isolated(s, w)
    ensures var t := Opened(s, epoch, first);
      && Ordered(t, Base(s.store)) && Find(t, epoch).Some?
      && Isolated(Reference(s.store, t), if Find(s.segments, epoch).None? then Without(w, epoch) else w)
  {
    var t := Opened(s, epoch, first);
    if Find(s.segments, epoch).None? {
      assert t[|s.segments|].epoch == epoch;
      forall i | 0 <= i < |t|
        ensures Owned(t[i], s.store.values, Without(w, epoch))
      {
        if i < |s.segments| {
          assert Owned(s.segments[i], s.store.values, w);
        }
      }
    }
  }

  lemma StoreKeeps(s: Reference, i: nat, a: int, part: seq<int>, store: View<int>, w: set<(int, int, int)>)
    requires i < |s.segments| && Ordered(s.segments, Base(s.store)) && Isolated(s, w)
    requires s.segments[i].lo <= a && a + |part| <= s.segments[i].hi
    requires forall x :: x in store.values ==>
      (x in s.store.values && store.values[x] == s.store.values[x]) || (a <= x < a + |part| && store.values[x] == part[x - a])
    requires forall k :: 0 <= k < |part| ==> (s.segments[i].epoch, a + k - s.segments[i].delta, part[k]) in w
    ensures Isolated(Reference(store, s.segments), w)
  {
    forall j | 0 <= j < |s.segments|
      ensures Owned(s.segments[j], store.values, w)
    {
      assert Owned(s.segments[j], s.store.values, w);
      assert i < j ==> s.segments[i].hi <= s.segments[j].lo;
      assert j < i ==> s.segments[j].hi <= s.segments[i].lo;
      forall x | x in store.values && s.segments[j].lo <= x < s.segments[j].hi
        ensures (s.segments[j].epoch, x - s.segments[j].delta, store.values[x]) in w
      {
        if a <= x < a + |part| && store.values[x] == part[x - a] {
          assert (s.segments[i].epoch, a + (x - a) - s.segments[i].delta, part[x - a]) in w;
        }
      }
    }
  }

  /** The clipped part of a write still carries its own epoch indices. */
  lemma ClipIsHanded(seg: Segment, first: int, data: seq<int>)
    ensures var (a, part) := Clip(seg, first, data);
      forall k :: 0 <= k < |part| ==> (seg.epoch, a + k - seg.delta, part[k]) in Handed(seg.epoch, first, data)
  {
    var (a, part) := Clip(seg, first, data);
    forall k | 0 <= k < |part|
      ensures (seg.epoch, a + k - seg.delta, part[k]) in Handed(seg.epoch, first, data)
    {
      var n := a + k - seg.delta - first;
      assert (seg.epoch, first + n, data[n]) in Handed(seg.epoch, first, data);
    }
  }

  lemma WriteKeeps(s: Reference, capacity: int, i: nat, first: int, data: seq<int>, w: set<(int, int, int)>)
    requires capacity > 0 && Good(s, capacity, w) && i < |s.segments|
    requires Handed(s.segments[i].epoch, first, data) <= w
    ensures Good(WriteIn(s, capacity, i, first, data), capacity, w)
  {
    var (a, part) := Clip(s.segments[i], first, data);
    ClipIsHanded(s.segments[i], first, data);
    if part != [] {
      RingKeeps(s, capacity, i, a, part, w);
    }
  }

  lemma RingKeeps(s: Reference, capacity: int, i: nat, a: int, part: seq<int>, w: set<(int, int, int)>)
    requires capacity > 0 && Good(s, capacity, w) && i < |s.segments|
    requires s.segments[i].lo <= a && a + |part| <= s.segments[i].hi
    requires forall k :: 0 <= k < |part| ==> (s.segments[i].epoch, a + k - s.segments[i].delta, part[k]) in w
    ensures Good(WriteRing(s, capacity, a, part), capacity, w)
  {
    var store := Write(s.store, capacity, a, part);
    WriteAdds(s.store, capacity, a, part);
    StoreKeeps(s, i, a, part, store, w);
    DropKeeps(Reference(store, s.segments), store, Base(store), w);
  }

  ghost predicate Good(s: Reference, capacity: int, w: set<(int, int, int)>) {
    && Bounded(s.store, capacity) && 0 <= Base(s.store) && 0 <= s.store.floor
    && Ordered(s.segments, Base(s.store)) && Isolated(s, w)
  }

  lemma TrimKeeps(s: Reference, capacity: int, samples: int, w: set<(int, int, int)>)
    requires capacity > 0 && Good(s, capacity, w)
    ensures Good(TrimTo(s, samples), capacity, w)
  {
    if s.store.frontier.Some? {
      DropKeeps(s, Trim(s.store, s.store.frontier.value - samples), Base(s.store), w);
    }
  }

  /** Reference epochs never alias in the shared ring. After any run of writes (which open, close
      and re-create epochs) and trims, the segments are disjoint and in order, and every known ring
      sample inside an epoch's segment is one that was handed in for that epoch, at that epoch
      index, since the segment was created. */
  lemma {:induction false} EpochsNeverAlias(capacity: int, ops: seq<RefOp>)
    requires capacity > 0
    ensures Good(Run(capacity, ops), capacity, Written(capacity, ops))
  {
    if ops != [] {
      var front, op := ops[..|ops| - 1], ops[|ops| - 1];
      EpochsNeverAlias(capacity, front);
      var s, w, w' := Run(capacity, front), Written(capacity, front), Written(capacity, ops);
      match op
      case TrimToOp(samples) =>
        TrimKeeps(s, capacity, samples, w);
      case WriteOp(epoch, first, data) =>
        OpenThenWrite(s, capacity, epoch, first, data, w);
    }
  }

  lemma OpenThenWrite(s: Reference, capacity: int, epoch: int, first: int, data: seq<int>, w: set<(int, int, int)>)
    requires capacity > 0 && Good(s, capacity, w)
    ensures Good(WriteEpoch(s, capacity, epoch, first, data), capacity,
      (if Find(s.segments, epoch).None? then Without(w, epoch) else w) + Handed(epoch, first, data))
  {
    OpenKeeps(s, capacity, epoch, first, w);
    var kept := if Find(s.segments, epoch).None? then Without(w, epoch) else w;
    var t := Reference(s.store, Opened(s, epoch, first));
    Monotone(t, kept, kept + Handed(epoch, first, data));
    WriteKeeps(t, capacity, Find(t.segments, epoch).value, first, data, kept + Handed(epoch, first, data));
  }

  lemma Monotone(s: Reference, w: set<(int, int, int)>, w': set<(int, int, int)>)
    requires Isolated(s, w) && w <= w'
    ensures Isolated(s, w')
  {
    forall i | 0 <= i < |s.segments|
      ensures Owned(s.segments[i], s.store.values, w')
    {
      assert Owned(s.segments[i], s.store.values, w);
    }
  }
}

module References {
  import opened Basics
  import opened Intervals
  import RingSpec
  import opened Rings
  import opened ReferenceSpec

  /** `got` is what the ring holds at the place of samples a, a + 1, ... of the epoch. */
  ghost predicate ReadsFrom(s: Reference, epoch: int, a: int, got: seq<int>) {
    match Find(s.segments, epoch)
    case None => false
    case Some(i) =>
      var x0 := a + s.segments[i].delta;
      && s.segments[i].lo <= x0 && x0 + |got| <= s.segments[i].hi
      && forall x :: x0 <= x < x0 + |got| ==> x in s.store.values && got[x - x0] == s.store.values[x]
  }

  lemma ReadIsOwn(s: Reference, w: set<(int, int, int)>, epoch: int, a: int, got: seq<int>)
    requires Isolated(s, w) && ReadsFrom(s, epoch, a, got)
    ensures forall k :: 0 <= k < |got| ==> (epoch, a + k, got[k]) in w
  {
    var seg := s.segments[Find(s.segments, epoch).value];
    assert Owned(seg, s.store.values, w);
    forall k | 0 <= k < |got|
      ensures (epoch, a + k, got[k]) in w
    {
      var x := a + seg.delta + k;
      assert x in s.store.values && got[x - (a + seg.delta)] == s.store.values[x];
    }
  }

  /** Whatever the ring went through, a read of an epoch returns only samples handed in for that
      very epoch, at those very indices, since its segment was created. */
  lemma ReadsOnlyItsEpoch(capacity: int, ops: seq<RefOp>, epoch: int, a: int, got: seq<int>)
    requires capacity > 0 && ReadsFrom(Run(capacity, ops), epoch, a, got)
    ensures forall k :: 0 <= k < |got| ==> (epoch, a + k, got[k]) in Written(capacity, ops)
  {
    EpochsNeverAlias(capacity, ops);
    ReadIsOwn(Run(capacity, ops), Written(capacity, ops), epoch, a, got);
  }

  datatype ReadFailure = OutsideEpoch | Store(error: ReadError)

  class ReferenceTimeline {
    const store: SampleTimeline
    var segments: seq<Segment>

    ghost predicate Valid()
      reads this, store, store.known, store.silence, store.muted, store.buf
    {
      store.Valid()
    }

    ghost function View(): Reference
      reads this, store
    {
      Reference(store.view, segments)
    }

    constructor (capacity: int)
      requires capacity > 0
      ensures Valid() && fresh(store) && fresh(store.known) && fresh(store.silence) && fresh(store.muted)
      ensures store.capacity == capacity && View() == Run(capacity, [])
    {
      store := new SampleTimeline(capacity);
      segments := [];
    }

    /** Place of an epoch's segment, opening one at the frontier when it has none. */
    method Open(epoch: int, first: int) returns (i: nat)
      requires Valid()
      modifies this
      ensures segments == Opened(old(View()), epoch, first)
      ensures i < |segments| && Find(segments, epoch) == Some(i)
    {
      var found := Find(segments, epoch);
      if found.Some? {
        return found.value;
      }
      var base := if store.frontier.None? then 0 else store.frontier.value;
      ghost var was := segments;
      for k := 0 to |segments|
        invariant |segments| == |was|
        invariant forall j :: 0 <= j < |was| ==> segments[j] == if j < k then was[j].(hi := Min(was[j].hi, base)) else was[j]
      {
        segments := segments[k := segments[k].(hi := Min(segments[k].hi, base))];
      }
      assert segments == Closed(was, base);
      i := |segments|;
      segments := segments + [Segment(epoch, base - first, base, U64_MAX)];
    }

    method Forget()
      modifies this`segments
      ensures segments == DropForgotten(old(segments), store.view.floor)
      requires Valid()
    {
      while |segments| > 1 && segments[0].hi <= store.floor
        invariant DropForgotten(segments, store.view.floor) == DropForgotten(old(segments), store.view.floor)
        decreases |segments|
      {
        segments := segments[1..];
      }
    }

    /** Takes samples of an epoch from index `first` on (`silent` if they are digital silence);
        `added` are the epoch's indices that were unknown before. */
    method Write(epoch: int, first: int, pcm: seq<int>, silent: bool) returns (added: seq<(int, int)>)
      requires Valid() && (silent ==> forall k :: 0 <= k < |pcm| ==> pcm[k] == 0)
      modifies this, store, store.known, store.silence, store.muted, store.buf
      ensures Valid() && (store.buf == old(store.buf) || fresh(store.buf))
      ensures View() == WriteEpoch(old(View()), store.capacity, epoch, first, pcm)
      ensures var delta := Opened(old(View()), epoch, first)[Find(Opened(old(View()), epoch, first), epoch).value].delta;
        && (forall x :: InRanges(added, x) <==> x + delta in store.view.values && x + delta !in old(store.view.values))
        && forall y :: store.silence.Has(y) <==> (old(store.silence.Has(y)) && store.floor <= y) || (silent && InRanges(added, y - delta))
    {
      var i := Open(epoch, first);
      added := WriteInto(i, first, pcm, silent);
    }

    /** A write clipped to segment i. */
    method WriteInto(i: nat, first: int, pcm: seq<int>, silent: bool) returns (added: seq<(int, int)>)
      requires Valid() && i < |segments| && (silent ==> forall k :: 0 <= k < |pcm| ==> pcm[k] == 0)
      modifies this`segments, store, store.known, store.silence, store.muted, store.buf
      ensures Valid() && (store.buf == old(store.buf) || fresh(store.buf))
      ensures View() == WriteIn(old(View()), store.capacity, i, first, pcm)
      ensures var delta := old(segments)[i].delta;
        && (forall x :: InRanges(added, x) <==> x + delta in store.view.values && x + delta !in old(store.view.values))
        && forall y :: store.silence.Has(y) <==> (old(store.silence.Has(y)) && store.floor <= y) || (silent && InRanges(added, y - delta))
    {
      var (a, part) := Clip(segments[i], first, pcm);
      added := [];
      if part != [] {
        added := WriteAt(segments[i].delta, a, part, silent);
      }
    }

    /** The ring's write, its new ranges told in the epoch's indices. */
    method WriteAt(delta: int, a: int, part: seq<int>, silent: bool) returns (added: seq<(int, int)>)
      requires Valid() && (silent ==> forall k :: 0 <= k < |part| ==> part[k] == 0)
      modifies this`segments, store, store.known, store.silence, store.muted, store.buf
      ensures Valid() && (store.buf == old(store.buf) || fresh(store.buf))
      ensures store.view == RingSpec.Write(old(store.view), store.capacity, a, part)
      ensures segments == DropForgotten(old(segments), store.view.floor)
      ensures forall x :: InRanges(added, x) <==> x + delta in store.view.values && x + delta !in old(store.view.values)
      ensures forall y :: store.silence.Has(y) <==> (old(store.silence.Has(y)) && store.floor <= y) || (silent && InRanges(added, y - delta))
    {
      var ranges := store.Write(a, part, silent);
      Forget();
      added := Shifted(ranges, -delta);
      ShiftedHas(ranges, -delta);
    }

    /** Drops all but the last `samples` ring indices, and the segments that are gone with them. */
    method TrimTo(samples: int)
      requires Valid()
      modifies this, store, store.known, store.silence, store.muted
      ensures Valid() && store.buf == old(store.buf)
      ensures View() == ReferenceSpec.TrimTo(old(View()), samples)
    {
      if store.frontier.Some? {
        store.TrimBefore(store.frontier.value - samples);
        Forget();
      }
    }

    /** [a, b) of an epoch as ring indices, when it lies in the epoch's segment. */
    function Span(epoch: int, a: int, b: int): (r: Option<(int, int)>)
      reads this
    {
      var found := Find(segments, epoch);
      if found.None? then None
      else
        var seg := segments[found.value];
        if a + seg.delta < seg.lo || b + seg.delta > seg.hi then None else Some((a + seg.delta, b + seg.delta))
    }

    /** The epoch has a segment around [a, b), and the ring knows all of it. */
    ghost predicate Readable(epoch: int, a: int, b: int)
      reads this, store
    {
      match Span(epoch, a, b)
      case None => false
      case Some((x, y)) => store.view.floor <= x && forall i :: x <= i < y ==> i in store.view.values
    }

    method Covers(epoch: int, a: int, b: int) returns (r: bool)
      requires Valid()
      ensures r <==> Readable(epoch, a, b)
    {
      var g := Span(epoch, a, b);
      r := false;
      if g.Some? {
        r := store.Covers(g.value.0, g.value.1);
      }
    }

    method IsSilent(epoch: int, a: int, b: int) returns (r: bool)
      requires Valid()
      ensures r <==> (
        Span(epoch, a, b).Some? && forall x :: Span(epoch, a, b).value.0 <= x < Span(epoch, a, b).value.1 ==> store.silence.Has(x))
      ensures r ==> forall x :: Span(epoch, a, b).value.0 <= x < Span(epoch, a, b).value.1 ==>
        x in store.view.values && store.view.values[x] == 0
    {
      var g := Span(epoch, a, b);
      r := false;
      if g.Some? {
        r := store.IsSilent(g.value.0, g.value.1);
      }
    }

    /** Samples [a, b) of an epoch: the ring's samples at the epoch's place. */
    method Read(epoch: int, a: int, b: int) returns (r: Result<seq<int>, ReadFailure>)
      requires Valid()
      ensures r.Err? && r.error == OutsideEpoch <==> Span(epoch, a, b).None?
      ensures r.Ok? <==> a <= b && Readable(epoch, a, b)
      ensures r.Ok? ==> ReadsFrom(View(), epoch, a, r.value) && |r.value| == b - a
    {
      var g := Span(epoch, a, b);
      if g.None? {
        return Err(OutsideEpoch);
      }
      var got := store.Read(g.value.0, g.value.1);
      if got.Err? {
        return Err(Store(got.error));
      }
      r := Ok(got.value);
    }
  }

  function Shifted(rs: seq<(int, int)>, shift: int): (s: seq<(int, int)>)
    ensures |s| == |rs| && forall i :: 0 <= i < |rs| ==> s[i] == (rs[i].0 + shift, rs[i].1 + shift)
  {
    seq(|rs|, i requires 0 <= i < |rs| => (rs[i].0 + shift, rs[i].1 + shift))
  }

  lemma ShiftedHas(rs: seq<(int, int)>, shift: int)
    ensures forall x :: InRanges(Shifted(rs, shift), x) <==> InRanges(rs, x - shift)
  {
    forall x
      ensures InRanges(Shifted(rs, shift), x) <==> InRanges(rs, x - shift)
    {
      if InRanges(rs, x - shift) {
        var i :| 0 <= i < |rs| && rs[i].0 <= x - shift < rs[i].1;
        assert Shifted(rs, shift)[i].0 <= x < Shifted(rs, shift)[i].1;
      }
    }
  }
}
