/** Fixed-size rings of samples and records (controller/em_audio_timeline.py, `SampleTimeline`,
    `CellTimeline`, `AfeTimeline`), and the unbounded first-copy-wins map they refine. */
module RingSpec {
  import opened Basics
  import opened Intervals
  import Slots

  /** What a ring of `capacity` indices remembers: floor, frontier and the value of each known index. */
  datatype View<T> = View(floor: int, frontier: Option<int>, values: map<int, T>)

  function Empty<T>(): View<T> { View(0, None, map[]) }

  function Trim<T>(v: View<T>, x: int): View<T> {
    if x <= v.floor then v
    else v.(floor := x, values := map i | i in v.values && x <= i :: v.values[i])
  }

  function Advance<T>(v: View<T>, capacity: int, end: int): View<T> {
    var frontier := if v.frontier.None? || end > v.frontier.value then end else v.frontier.value;
    var u := v.(frontier := Some(frontier));
    if frontier - v.floor > capacity then Trim(u, frontier - capacity) else u
  }

  /** The part of `data`, starting at index `first`, that lies at or past `lo`. */
  function Placed<T>(first: int, data: seq<T>, lo: int): (m: map<int, T>)
    ensures forall i :: i in m <==> first <= i < first + |data| && lo <= i
    ensures forall i :: i in m ==> m[i] == data[i - first]
  {
    if data == [] then map[]
    else
      var last := first + |data| - 1;
      var m := Placed(first, data[..|data| - 1], lo);
      if lo <= last then m[last := data[|data| - 1]] else m
  }

  function Write<T>(v: View<T>, capacity: int, first: int, data: seq<T>): View<T> {
    var end := first + |data|;
    if end <= v.floor then v
    else
      var u := Advance(v, capacity, end);
      u.(values := Placed(first, data, u.floor) + u.values)
  }

  function Mute<T>(v: View<T>, capacity: int, end: int): View<T> {
    if end > v.floor then Advance(v, capacity, end) else v
  }

  /** Every retained index lies in [floor, frontier), which is at most one ring long. */
  predicate Bounded<T>(v: View<T>, capacity: int) {
    match v.frontier
    case None => v.values == map[]
    case Some(f) => f - v.floor <= capacity && forall i <- v.values :: v.floor <= i < f
  }

  // ---- runs ----

  datatype Op<T> = WriteOp(first: int, data: seq<T>) | MuteOp(end: int) | TrimOp(to: int) | ClearOp

  function Apply<T>(v: View<T>, capacity: int, op: Op<T>): View<T> {
    match op
    case WriteOp(first, data) => Write(v, capacity, first, data)
    case MuteOp(end) => Mute(v, capacity, end)
    case TrimOp(to) => Trim(v, to)
    case ClearOp => Empty()
  }

  function Run<T>(capacity: int, ops: seq<Op<T>>): View<T> {
    if ops == [] then Empty() else Apply(Run(capacity, ops[..|ops| - 1]), capacity, ops[|ops| - 1])
  }

  /** The reference: a plain unbounded map in which the first copy of an index wins and only a
      clear forgets. It knows no capacity, floor or frontier. */
  function FirstCopies<T>(ops: seq<Op<T>>): map<int, T> {
    if ops == [] then map[]
    else
      var m := FirstCopies(ops[..|ops| - 1]);
      match ops[|ops| - 1]
      case WriteOp(first, data) => Placed(first, data, first) + m
      case MuteOp(_) => m
      case TrimOp(_) => m
      case ClearOp => map[]
  }

  function From<T>(m: map<int, T>, lo: int): map<int, T> {
    map i | i in m && lo <= i :: m[i]
  }

  /** A write that jumps past the whole ring trims first; the outcome is the plain advance. */
  lemma JumpIsAdvance<T>(v: View<T>, capacity: int, end: int)
    requires capacity > 0 && Bounded(v, capacity) && v.frontier.Some? && end - capacity > v.frontier.value
    ensures Advance(Trim(v, end - capacity), capacity, end) == Advance(v, capacity, end)
  {
  }

  lemma ApplyKeepsBounded<T>(v: View<T>, capacity: int, op: Op<T>)
    requires capacity > 0 && Bounded(v, capacity)
    ensures Bounded(Apply(v, capacity, op), capacity)
  {
  }

  /** In every reachable state the known indices fit one ring, so no two of them share a slot. */
  lemma {:induction false} RunBounded<T>(capacity: int, ops: seq<Op<T>>)
    requires capacity > 0
    ensures Bounded(Run(capacity, ops), capacity)
    ensures NoAlias(Run(capacity, ops).values, capacity)
  {
    if ops != [] {
      RunBounded(capacity, ops[..|ops| - 1]);
      ApplyKeepsBounded(Run(capacity, ops[..|ops| - 1]), capacity, ops[|ops| - 1]);
    }
    BoundedNoAlias(Run(capacity, ops), capacity);
  }

  /** No two known indices share a slot. */
  predicate NoAlias<T>(values: map<int, T>, capacity: int)
    requires capacity > 0
  {
    forall x, y :: x in values && y in values && Slots.Slot(x, capacity) == Slots.Slot(y, capacity) ==> x == y
  }

  lemma BoundedNoAlias<T>(v: View<T>, capacity: int)
    requires capacity > 0 && Bounded(v, capacity)
    ensures NoAlias(v.values, capacity)
  {
    forall x, y | x in v.values && y in v.values && x != y
      ensures Slots.Slot(x, capacity) != Slots.Slot(y, capacity)
    {
      Slots.Apart(Min(x, y), Max(x, y), capacity);
    }
  }

  lemma FromFrom<T>(m: map<int, T>, lo: int, hi: int)
    requires lo <= hi
    ensures From(From(m, lo), hi) == From(m, hi)
  {
  }

  lemma PlacedFrom<T>(first: int, data: seq<T>, m: map<int, T>, lo: int)
    ensures Placed(first, data, lo) + From(m, lo) == From(Placed(first, data, first) + m, lo)
  {
    var all := Placed(first, data, first) + m;
    assert forall i :: i in From(all, lo) <==> lo <= i && (first <= i < first + |data| || i in m);
    assert (Placed(first, data, lo) + From(m, lo)).Keys == From(all, lo).Keys;
  }

  lemma AdvanceRefines<T>(v: View<T>, capacity: int, end: int, m: map<int, T>)
    requires v.values == From(m, v.floor)
    ensures Advance(v, capacity, end).values == From(m, Advance(v, capacity, end).floor)
  {
    FromFrom(m, v.floor, Advance(v, capacity, end).floor);
  }

  lemma ApplyRefines<T>(v: View<T>, capacity: int, op: Op<T>, m: map<int, T>)
    requires capacity > 0 && v.values == From(m, v.floor)
    ensures match op
      case WriteOp(first, data) =>
        Apply(v, capacity, op).values == From(Placed(first, data, first) + m, Apply(v, capacity, op).floor)
      case ClearOp => Apply(v, capacity, op).values == map[]
      case _ => Apply(v, capacity, op).values == From(m, Apply(v, capacity, op).floor)
  {
    match op
    case WriteOp(first, data) =>
      AdvanceRefines(v, capacity, first + |data|, m);
      PlacedFrom(first, data, m, Apply(v, capacity, op).floor);
    case MuteOp(end) => AdvanceRefines(v, capacity, end, m);
    case TrimOp(to) => FromFrom(m, v.floor, Apply(v, capacity, op).floor);
    case ClearOp =>
  }

  /** The ring is the unbounded first-copy map cut at the floor: after any run of writes, mutes,
      trims and clears, it knows exactly the indices that map knows at or past the floor, with
      the same values. */
  lemma {:induction false} RingRefinesFirstCopies<T>(capacity: int, ops: seq<Op<T>>)
    requires capacity > 0
    ensures Run(capacity, ops).values == From(FirstCopies(ops), Run(capacity, ops).floor)
  {
    if ops != [] {
      var front, op := ops[..|ops| - 1], ops[|ops| - 1];
      RingRefinesFirstCopies(capacity, front);
      ApplyRefines(Run(capacity, front), capacity, op, FirstCopies(front));
    }
  }

  // ---- what the floor is ----

  /** The highest trim since the last clear, or 0. */
  function TopTrim<T>(ops: seq<Op<T>>): int {
    if ops == [] then 0
    else
      var top := TopTrim(ops[..|ops| - 1]);
      match ops[|ops| - 1]
      case TrimOp(to) => Max(top, to)
      case ClearOp => 0
      case _ => top
  }

  /** Where the writes since the last clear ended, and the mutes if they move the ring too. */
  function Ends<T>(ops: seq<Op<T>>, mutes: bool): set<int> {
    if ops == [] then {}
    else
      var ends := Ends(ops[..|ops| - 1], mutes);
      match ops[|ops| - 1]
      case WriteOp(first, data) => ends + {first + |data|}
      case MuteOp(end) => if mutes then ends + {end} else ends
      case TrimOp(_) => ends
      case ClearOp => {}
  }

  /** The floor is the highest trim, or one ring behind the frontier if that is higher; the frontier
      is the end of something, and everything that ended past both of them would have moved it. */
  predicate FloorIs<T>(v: View<T>, capacity: int, trim: int, ends: set<int>) {
    && v.floor == (if v.frontier.None? then trim else Max(trim, v.frontier.value - capacity))
    && (v.frontier.Some? ==> v.frontier.value in ends)
    && forall e :: e in ends ==> e <= v.floor || (v.frontier.Some? && e <= v.frontier.value)
  }

  lemma {:induction false} AdvanceFloor<T>(v: View<T>, capacity: int, end: int, trim: int, ends: set<int>)
    requires capacity > 0 && FloorIs(v, capacity, trim, ends)
    ensures FloorIs(Advance(v, capacity, end), capacity, trim, ends + {end})
  {
  }

  lemma {:induction false} RunFloor<T>(capacity: int, ops: seq<Op<T>>)
    requires capacity > 0
    ensures FloorIs(Run(capacity, ops), capacity, TopTrim(ops), Ends(ops, true))
  {
    if ops != [] {
      var front := ops[..|ops| - 1];
      RunFloor(capacity, front);
      match ops[|ops| - 1]
      case WriteOp(first, data) => AdvanceFloor(Run(capacity, front), capacity, first + |data|, TopTrim(front), Ends(front, true));
      case MuteOp(end) => AdvanceFloor(Run(capacity, front), capacity, end, TopTrim(front), Ends(front, true));
      case _ =>
    }
  }

  /** Nothing is forgotten early: an index written since the last clear, not trimmed, and within one
      ring of every end reached since, still has its first copy. */
  lemma {:induction false} RingRemembers<T>(capacity: int, ops: seq<Op<T>>, i: int)
    requires capacity > 0 && i in FirstCopies(ops) && TopTrim(ops) <= i
    requires forall e :: e in Ends(ops, true) ==> e - capacity <= i
    ensures i in Run(capacity, ops).values && Run(capacity, ops).values[i] == FirstCopies(ops)[i]
  {
    RunFloor(capacity, ops);
    RingRefinesFirstCopies(capacity, ops);
  }
}

module Rings {
  import opened Basics
  import opened Intervals
  import opened RingSpec
  import opened Slots

  /** The part of a map inside [a, b), and inside a range list. */
  function Cut<T>(p: map<int, T>, a: int, b: int): map<int, T> {
    map x | x in p && a <= x < b :: p[x]
  }

  function Part<T>(p: map<int, T>, rs: seq<(int, int)>): map<int, T> {
    map x | x in p && InRanges(rs, x) :: p[x]
  }

  lemma OnePart<T>(m: map<int, T>, p: map<int, T>, rs: seq<(int, int)>, a: int, b: int)
    requires a < b
    ensures m + Part(p, rs) + Cut(p, a, b) == m + Part(p, rs + [(a, b)])
  {
    Appended(rs, rs + [(a, b)], a, b);
  }

  lemma CutIs<T>(m: map<int, T>, first: int, data: seq<T>, a: int, b: int)
    requires first <= a <= b <= first + |data|
    ensures forall x :: a <= x < b ==> x in m + Cut(Placed(first, data, first), a, b)
    ensures forall x :: a <= x < b ==> (m + Cut(Placed(first, data, first), a, b))[x] == data[x - first]
  {
  }

  /** A range of a separated list shares nothing with the ranges before it. */
  lemma NextIsNew<T>(m: map<int, T>, p: map<int, T>, rs: seq<(int, int)>, k: nat)
    requires Separated(rs) && k < |rs| && forall x :: InRanges(rs, x) ==> x !in m
    ensures forall x :: rs[k].0 <= x < rs[k].1 ==> x !in m + Part(p, rs[..k])
    ensures m + Part(p, rs[..k]) + Cut(p, rs[k].0, rs[k].1) == m + Part(p, rs[..k + 1])
  {
    assert rs[..k + 1] == rs[..k] + [rs[k]];
    OnePart(m, p, rs[..k], rs[k].0, rs[k].1);
    assert forall x :: rs[k].0 <= x < rs[k].1 ==> InRanges(rs, x) && !InRanges(rs[..k], x);
  }

  lemma PartIsRest<T>(m: map<int, T>, first: int, data: seq<T>, floor: int, rs: seq<(int, int)>)
    requires forall x :: InRanges(rs, x) <==> Max(first, floor) <= x < first + |data| && x !in m
    ensures m + Part(Placed(first, data, first), rs) == Placed(first, data, floor) + m
  {
  }

  /** `now` is `was` with the data from index `first` on, wrapped at the end. */
  predicate Wrapped(was: seq<int>, now: seq<int>, first: int, data: seq<int>, cap: int)
    requires 0 < cap == |was| == |now|
  {
    var i := Slot(first, cap);
    forall k :: 0 <= k < cap ==>
      now[k] == (if i <= k < i + |data| then data[k - i] else if k < i + |data| - cap then data[k + cap - i] else was[k])
  }

  lemma WrappedIs(was: seq<int>, now: seq<int>, first: int, data: seq<int>, cap: int)
    requires 0 < cap == |was| == |now| && |data| <= cap && Wrapped(was, now, first, data, cap)
    ensures forall x :: first <= x < first + |data| ==> now[Slot(x, cap)] == data[x - first]
    ensures forall y :: first + |data| - cap <= y < first || first + |data| <= y < first + cap ==> now[Slot(y, cap)] == was[Slot(y, cap)]
  {
    forall x | first <= x < first + |data|
      ensures now[Slot(x, cap)] == data[x - first]
    {
      Walk(first, cap, x - first);
    }
    forall y | first + |data| - cap <= y < first || first + |data| <= y < first + cap
      ensures now[Slot(y, cap)] == was[Slot(y, cap)]
    {
      if y >= first {
        Walk(first, cap, y - first);
      } else {
        OneRing(y, cap);
        Walk(first, cap, y + cap - first);
      }
    }
  }

  datatype ReadError = NotKnown | NegativeLength

  /** The ring in place. `view` is what it stands for: a map that keeps the first copy of an index. */
  class SampleTimeline {
    const capacity: int
    var buf: array?<int>
    const known: IntervalSet
    const silence: IntervalSet
    const muted: IntervalSet
    var floor: int
    var frontier: Option<int>
    ghost var view: View<int>

    ghost predicate Valid()
      reads this, known, silence, muted, buf
    {
      && capacity > 0 && known != silence && known != muted && silence != muted
      && known.Valid() && silence.Valid() && muted.Valid()
      && view.floor == floor && view.frontier == frontier && Bounded(view, capacity)
      && (buf != null ==> buf.Length == capacity)
      && (view.values != map[] ==> buf != null)
      && (forall x :: known.Has(x) <==> x in view.values)
      && (forall x :: x in view.values ==> buf[Slot(x, capacity)] == view.values[x])
      && (forall x :: silence.Has(x) ==> x in view.values && view.values[x] == 0)
      && (forall x :: muted.Has(x) ==> floor <= x)
    }

    constructor (capacity: int)
      requires capacity > 0
      ensures Valid() && fresh(known) && fresh(silence) && fresh(muted) && buf == null
      ensures this.capacity == capacity && view == Empty()
    {
      this.capacity := capacity;
      buf := null;
      known := new IntervalSet();
      silence := new IntervalSet();
      muted := new IntervalSet();
      floor, frontier, view := 0, None, Empty();
    }

    method TrimBefore(sample: int)
      requires Valid()
      modifies this, known, silence, muted
      ensures Valid() && buf == old(buf)
      ensures view == Trim(old(view), sample)
      ensures forall x :: silence.Has(x) <==> old(silence.Has(x)) && floor <= x
      ensures forall x :: muted.Has(x) <==> old(muted.Has(x)) && floor <= x
    {
      if sample <= floor {
        return;
      }
      floor := sample;
      view := Trim(view, sample);
      known.TrimBefore(sample);
      silence.TrimBefore(sample);
      muted.TrimBefore(sample);
    }

    method AdvanceTo(end: int)
      requires Valid()
      modifies this, known, silence, muted
      ensures Valid() && buf == old(buf)
      ensures view == Advance(old(view), capacity, end)
      ensures forall x :: silence.Has(x) <==> old(silence.Has(x)) && floor <= x
      ensures forall x :: muted.Has(x) <==> old(muted.Has(x)) && floor <= x
    {
      var f := if frontier.None? || end > frontier.value then end else frontier.value;
      if f - floor > capacity {
        TrimBefore(f - capacity);
      }
      frontier := Some(f);
      view := view.(frontier := frontier);
    }

    /** Place samples in their slots, in at most two runs of the buffer. */
    method Store(first: int, pcm: seq<int>)
      requires capacity > 0 && |pcm| <= capacity && (buf != null ==> buf.Length == capacity)
      modifies this`buf, buf
      ensures buf != null && buf.Length == capacity && (old(buf) == null ==> fresh(buf)) && (old(buf) != null ==> buf == old(buf))
      ensures forall x :: first <= x < first + |pcm| ==> buf[Slot(x, capacity)] == pcm[x - first]
      ensures old(buf) != null ==>
        forall y :: first + |pcm| - capacity <= y < first || first + |pcm| <= y < first + capacity ==>
          buf[Slot(y, capacity)] == old(buf[Slot(y, capacity)])
    {
      if buf == null {
        buf := new int[capacity](_ => 0);
      }
      var n := |pcm|;
      var i := Slot(first, capacity);
      var head := Min(n, capacity - i);
      ghost var was := buf[..];
      forall k | 0 <= k < head {
        buf[i + k] := pcm[k];
      }
      if head < n {
        forall k | 0 <= k < n - head {
          buf[k] := pcm[head + k];
        }
      }
      WrappedIs(was, buf[..], first, pcm, capacity);
    }

    /** One `RingSpec.Write`; `added` are the indices it gave a value. */
    method Write(first: int, pcm: seq<int>, silent: bool) returns (added: seq<(int, int)>)
      requires Valid() && (silent ==> forall k :: 0 <= k < |pcm| ==> pcm[k] == 0)
      modifies this, known, silence, muted, buf
      ensures Valid() && (buf == old(buf) || fresh(buf))
      ensures view == RingSpec.Write(old(view), capacity, first, pcm)
      ensures Separated(added)
      ensures forall x :: InRanges(added, x) <==> x in view.values && x !in old(view.values)
      ensures forall x :: silence.Has(x) <==> (old(silence.Has(x)) && floor <= x) || (silent && InRanges(added, x))
      ensures forall x :: muted.Has(x) <==> old(muted.Has(x)) && floor <= x
    {
      var end := first + |pcm|;
      if end <= floor {
        assert forall x :: muted.Has(x) ==> floor <= x;
        return [];
      }
      MakeRoom(end);
      added := Fill(first, pcm, Max(first, floor), end, silent);
    }

    method MakeRoom(end: int)
      requires Valid() && floor < end
      modifies this, known, silence, muted
      ensures Valid() && buf == old(buf)
      ensures view == Advance(old(view), capacity, end)
      ensures forall x :: silence.Has(x) <==> old(silence.Has(x)) && floor <= x
      ensures forall x :: muted.Has(x) <==> old(muted.Has(x)) && floor <= x
    {
      if frontier.Some? && end - capacity > frontier.value {
        // Nothing retained would survive, so trimming first comes to the same.
        JumpIsAdvance(view, capacity, end);
        TrimBefore(end - capacity);
      }
      AdvanceTo(end);
    }

    /** The unknown part of [lo, end), range by range. */
    method Fill(first: int, pcm: seq<int>, lo: int, end: int, silent: bool) returns (added: seq<(int, int)>)
      requires Valid() && (silent ==> forall k :: 0 <= k < |pcm| ==> pcm[k] == 0)
      requires end == first + |pcm| && floor < end && lo == Max(first, floor) && frontier.Some? && end <= frontier.value
      modifies this, known, silence, buf
      ensures Valid() && (buf == old(buf) || fresh(buf))
      ensures view == old(view).(values := Placed(first, pcm, floor) + old(view).values)
      ensures Separated(added)
      ensures forall x :: InRanges(added, x) <==> lo <= x < end && x !in old(view.values)
      ensures forall x :: silence.Has(x) <==> old(silence.Has(x)) || (silent && InRanges(added, x))
    {
      ghost var u, p := view, Placed(first, pcm, first);
      added := known.Missing(lo, end);
      for k := 0 to |added|
        invariant Valid() && (buf == old(buf) || fresh(buf))
        invariant view == u.(values := u.values + Part(p, added[..k]))
        invariant forall x :: silence.Has(x) <==> old(silence.Has(x)) || (silent && InRanges(added[..k], x))
      {
        var (a, b) := added[k];
        assert added[..k + 1] == added[..k] + [(a, b)];
        Appended(added[..k], added[..k + 1], a, b);
        NextIsNew(u.values, p, added, k);
        WriteRange(first, pcm, a, b, silent);
      }
      assert added[..|added|] == added;
      PartIsRest(u.values, first, pcm, floor, added);
    }

    method WriteSilence(first: int, n: nat) returns (added: seq<(int, int)>)
      requires Valid()
      modifies this, known, silence, muted, buf
      ensures Valid() && (buf == old(buf) || fresh(buf))
      ensures view == RingSpec.Write(old(view), capacity, first, seq(n, _ => 0))
      ensures Separated(added)
      ensures forall x :: InRanges(added, x) <==> x in view.values && x !in old(view.values)
      ensures forall x :: silence.Has(x) <==> (old(silence.Has(x)) && floor <= x) || InRanges(added, x)
      ensures forall x :: muted.Has(x) <==> old(muted.Has(x)) && floor <= x
    {
      added := Write(first, seq(n, _ => 0), true);
    }

    method MarkMuted(first: int, end: int)
      requires Valid()
      modifies this, known, silence, muted
      ensures Valid() && buf == old(buf)
      ensures view == Mute(old(view), capacity, end)
      ensures forall x :: silence.Has(x) <==> old(silence.Has(x)) && floor <= x
      ensures forall x :: muted.Has(x) <==>
        floor <= x && (old(muted.Has(x)) || (old(floor) < end && first <= x < end))
    {
      if end > floor {
        AdvanceTo(end);
        var _ := muted.Add(Max(first, floor), end);
      }
    }

    method Clear()
      requires Valid()
      modifies this, known, silence, muted
      ensures Valid() && buf == old(buf) && view == Empty()
      ensures forall x :: !silence.Has(x) && !muted.Has(x)
    {
      known.Clear();
      silence.Clear();
      muted.Clear();
      floor, frontier, view := 0, None, Empty();
    }

    method Covers(a: int, b: int) returns (r: bool)
      requires Valid()
      ensures r <==> floor <= a && forall x :: a <= x < b ==> x in view.values
    {
      r := known.Covers(a, b);
      assert r ==> forall x :: a <= x < b ==> x in view.values by {
        forall x | r && a <= x < b ensures x in view.values { assert known.Has(x); }
      }
      assert !r ==> exists x :: a <= x < b && x !in view.values by {
        if !r {
          var x :| a <= x < b && !known.Has(x);
          assert x !in view.values;
        }
      }
      r := a >= floor && r;
    }

    /** Whether the silence set holds all of [a, b); by `Valid` those are known and zero. */
    method IsSilent(a: int, b: int) returns (r: bool)
      requires Valid()
      ensures r <==> forall x :: a <= x < b ==> silence.Has(x)
      ensures r ==> forall x :: a <= x < b ==> x in view.values && view.values[x] == 0
    {
      r := silence.Covers(a, b);
      forall x | r && a <= x < b
        ensures x in view.values && view.values[x] == 0
      {
        assert silence.Has(x);
      }
    }

    /** The values of [a, b), or an error if one is unknown or below the floor. */
    method Read(a: int, b: int) returns (r: Result<seq<int>, ReadError>)
      requires Valid()
      ensures r.Err? && r.error.NotKnown? <==> !(floor <= a && forall x :: a <= x < b ==> x in view.values)
      ensures r.Ok? <==> a <= b && floor <= a && forall x :: a <= x < b ==> x in view.values
      ensures r.Ok? ==> |r.value| == b - a && forall x :: a <= x < b ==> r.value[x - a] == view.values[x]
    {
      var known := Covers(a, b);
      if !known {
        return Err(NotKnown);
      }
      if b < a {
        return Err(NegativeLength);
      }
      if a == b {
        return Ok([]);
      }
      assert a in view.values && b - 1 in view.values;
      var out := Copy(a, b);
      r := Ok(out);
    }

    method Copy(a: int, b: int) returns (out: seq<int>)
      requires capacity > 0 && buf != null && buf.Length == capacity && a <= b <= a + capacity
      ensures |out| == b - a && forall x :: a <= x < b ==> out[x - a] == buf[Slot(x, capacity)]
    {
      var i := Slot(a, capacity);
      var head := Min(b - a, capacity - i);
      out := buf[i..i + head];
      if head < b - a {
        out := out + buf[..b - a - head];
      }
      forall x | a <= x < b
        ensures out[x - a] == buf[Slot(x, capacity)]
      {
        Walk(a, capacity, x - a);
      }
    }

    method WriteRange(first: int, pcm: seq<int>, a: int, b: int, silent: bool)
      requires Valid() && first <= a < b <= first + |pcm| && floor <= a && frontier.Some? && b <= frontier.value
      requires forall x :: a <= x < b ==> x !in view.values
      requires silent ==> forall k :: 0 <= k < |pcm| ==> pcm[k] == 0
      modifies this, known, silence, buf
      ensures Valid() && (old(buf) == null ==> fresh(buf)) && (old(buf) != null ==> buf == old(buf))
      ensures view == old(view).(values := old(view).values + Cut(Placed(first, pcm, first), a, b))
      ensures forall x :: silence.Has(x) <==> old(silence.Has(x)) || (silent && a <= x < b)
    {
      KnowRange(first, pcm, a, b);
      if silent {
        CutIs(old(view.values), first, pcm, a, b);
        MarkSilent(a, b);
      }
    }

    /** The samples of [a, b), none of them known before. */
    method KnowRange(first: int, pcm: seq<int>, a: int, b: int)
      requires Valid() && first <= a < b <= first + |pcm| && floor <= a && frontier.Some? && b <= frontier.value
      requires forall x :: a <= x < b ==> x !in view.values
      modifies this`view, this`buf, known, buf
      ensures Valid() && (old(buf) == null ==> fresh(buf)) && (old(buf) != null ==> buf == old(buf))
      ensures view == old(view).(values := old(view).values + Cut(Placed(first, pcm, first), a, b))
    {
      PlaceRange(first, pcm, a, b);
      var _ := known.Add(a, b);
    }

    method MarkSilent(a: int, b: int)
      requires Valid() && forall x :: a <= x < b ==> x in view.values && view.values[x] == 0
      modifies silence
      ensures Valid() && forall x :: silence.Has(x) <==> old(silence.Has(x)) || a <= x < b
    {
      var _ := silence.Add(a, b);
    }

    /** The samples of [a, b) in their slots: no other index of the ring uses those. */
    method PlaceRange(first: int, pcm: seq<int>, a: int, b: int)
      requires capacity > 0 && (buf != null ==> buf.Length == capacity) && Bounded(view, capacity) && (view.values != map[] ==> buf != null)
      requires first <= a < b <= first + |pcm| && view.floor <= a && view.frontier.Some? && b <= view.frontier.value
      requires forall x :: x in view.values ==> buf[Slot(x, capacity)] == view.values[x]
      modifies this`view, this`buf, buf
      ensures buf != null && buf.Length == capacity && (old(buf) == null ==> fresh(buf)) && (old(buf) != null ==> buf == old(buf))
      ensures view == old(view).(values := old(view).values + Cut(Placed(first, pcm, first), a, b))
      ensures forall x :: x in view.values ==> buf[Slot(x, capacity)] == view.values[x]
    {
      ghost var was, placed := view, Cut(Placed(first, pcm, first), a, b);
      Store(a, pcm[a - first..b - first]);
      view := was.(values := was.values + placed);
      forall x | x in view.values
        ensures buf[Slot(x, capacity)] == view.values[x]
      {
        if x in placed {
          assert a <= x < b;
        } else {
          assert x in was.values && was.floor <= x < was.frontier.value;
          assert b - capacity <= x < a || b <= x < a + capacity;
        }
      }
    }
  }
}
