/** Rings of records, one per grid step of capture samples: the device's cell records (grid 512)
    and native AFE period records (grid 1280) (controller/em_audio_timeline.py, `CellTimeline`
    and `AfeTimeline`). Both refine the same first-copy-wins map as the sample ring. */
module Records {
  import opened Basics
  import opened Intervals
  import opened RingSpec
  import opened Rings
  import opened Slots

  function Ceil(x: int, grid: int): (c: int)
    requires grid > 0
    ensures (c - 1) * grid < x <= c * grid
  {
    -(-x / grid)
  }

  function Scaled(rs: seq<(int, int)>, grid: int): (s: seq<(int, int)>)
    ensures |s| == |rs| && forall i :: 0 <= i < |rs| ==> s[i] == (rs[i].0 * grid, rs[i].1 * grid)
  {
    seq(|rs|, i requires 0 <= i < |rs| => (rs[i].0 * grid, rs[i].1 * grid))
  }

  /** The known steps of [lo, hi) with their records, ascending. */
  ghost function Listing<T>(values: map<int, T>, lo: int, hi: int): seq<(int, T)>
    decreases hi - lo
  {
    if hi <= lo then []
    else Listing(values, lo, hi - 1) + if hi - 1 in values then [(hi - 1, values[hi - 1])] else []
  }

  ghost predicate Lists<T>(out: seq<(int, T)>, values: map<int, T>, lo: int, hi: int) {
    && (forall i, j :: 0 <= i < j < |out| ==> out[i].0 < out[j].0)
    && (forall i :: 0 <= i < |out| ==> lo <= out[i].0 < hi && out[i].0 in values && out[i].1 == values[out[i].0])
    && (forall k :: k in values && lo <= k < hi ==> (k, values[k]) in out)
  }

  lemma {:induction false} ListingLists<T>(values: map<int, T>, lo: int, hi: int)
    ensures Lists(Listing(values, lo, hi), values, lo, hi)
    decreases hi - lo
  {
    if lo < hi {
      ListingLists(values, lo, hi - 1);
    }
  }

  /** Steps without a record add nothing, at either end. */
  lemma {:induction false} SkipAfter<T>(values: map<int, T>, lo: int, x: int, y: int)
    requires x <= y && forall k :: x <= k < y ==> k !in values
    ensures Listing(values, lo, y) == Listing(values, lo, x)
    decreases y - x
  {
    if x < y {
      SkipAfter(values, lo, x, y - 1);
    }
  }

  lemma {:induction false} SkipBefore<T>(values: map<int, T>, lo: int, from: int, hi: int)
    requires lo <= from && forall k :: lo <= k < from ==> k !in values
    ensures Listing(values, lo, hi) == Listing(values, from, hi)
    decreases hi - lo
  {
    if from < hi {
      SkipBefore(values, lo, from, hi - 1);
    } else if lo < hi {
      SkipAfter(values, lo, lo, hi);
    }
  }

  datatype RangeFault = Unaligned | Unknown

  class RecordTimeline<T(0)> {
    const grid: int
    const capacity: int
    var rec: array?<T>
    const known: IntervalSet
    var floor: int
    var frontier: Option<int>
    ghost var view: View<T>

    ghost predicate Valid()
      reads this, known, rec
    {
      && capacity > 0 && grid > 0 && known.Valid()
      && view.floor == floor && view.frontier == frontier && Bounded(view, capacity)
      && (rec != null ==> rec.Length == capacity)
      && (view.values != map[] ==> rec != null)
      && (forall k :: known.Has(k) <==> k in view.values)
      && (forall k :: k in view.values ==> rec[Slot(k, capacity)] == view.values[k])
    }

    constructor (grid: int, capacity: int)
      requires capacity > 0 && grid > 0
      ensures Valid() && fresh(known) && rec == null
      ensures this.capacity == capacity && this.grid == grid && view == Empty()
    {
      this.grid, this.capacity, rec := grid, capacity, null;
      known := new IntervalSet();
      floor, frontier, view := 0, None, Empty();
    }

    method TrimBeforePeriod(period: int)
      requires Valid()
      modifies this, known
      ensures Valid() && rec == old(rec) && view == Trim(old(view), period)
    {
      if period > floor {
        floor := period;
        view := Trim(view, period);
        known.TrimBefore(period);
      }
    }

    /** Only steps that end after `sample` stay. */
    method TrimBefore(sample: int)
      requires Valid()
      modifies this, known
      ensures Valid() && rec == old(rec) && view == Trim(old(view), sample / grid)
    {
      TrimBeforePeriod(sample / grid);
    }

    /** First copies only: a step already known keeps its record. `samples` are the steps that were
        new, scaled to capture samples; `added` is that list in steps. */
    method Write(firstSample: int, records: seq<T>) returns (samples: seq<(int, int)>, ghost added: seq<(int, int)>)
      requires Valid()
      modifies this, known, rec
      ensures Valid() && (rec == old(rec) || fresh(rec))
      ensures view == RingSpec.Write(old(view), capacity, firstSample / grid, records)
      ensures samples == Scaled(added, grid) && Separated(added)
      ensures forall k :: InRanges(added, k) <==> k in view.values && k !in old(view.values)
    {
      var k0 := firstSample / grid;
      var k1 := k0 + |records|;
      if k1 <= floor {
        return [], [];
      }
      Grow(k1);
      if rec == null {
        rec := new T[capacity];
      }
      var new_ := Fill(k0, records);
      return Scaled(new_, grid), new_;
    }

    method Grow(k1: int)
      requires Valid() && floor < k1
      modifies this, known
      ensures Valid() && rec == old(rec) && view == Advance(old(view), capacity, k1)
    {
      var f := if frontier.None? || k1 > frontier.value then k1 else frontier.value;
      if f - floor > capacity {
        TrimBeforePeriod(f - capacity);
      }
      frontier := Some(f);
      view := view.(frontier := frontier);
    }

    method Fill(k0: int, records: seq<T>) returns (added: seq<(int, int)>)
      requires Valid() && rec != null && frontier.Some? && floor < k0 + |records| <= frontier.value
      modifies this`view, known, rec
      ensures Valid()
      ensures view == old(view).(values := Placed(k0, records, floor) + old(view).values)
      ensures Separated(added)
      ensures forall k :: InRanges(added, k) <==> Max(k0, floor) <= k < k0 + |records| && k !in old(view.values)
    {
      ghost var u, p := view, Placed(k0, records, k0);
      added := known.Missing(Max(k0, floor), k0 + |records|);
      for n := 0 to |added|
        invariant Valid()
        invariant view == u.(values := u.values + Part(p, added[..n]))
      {
        NextIsNew(u.values, p, added, n);
        FillRange(k0, records, added[n].0, added[n].1);
      }
      assert added[..|added|] == added;
      PartIsRest(u.values, k0, records, floor, added);
    }

    method FillRange(k0: int, records: seq<T>, a: int, b: int)
      requires Valid() && rec != null && k0 <= a < b <= k0 + |records| && floor <= a && frontier.Some? && b <= frontier.value
      requires forall k :: a <= k < b ==> k !in view.values
      modifies this`view, known, rec
      ensures Valid()
      ensures view == old(view).(values := old(view).values + Cut(Placed(k0, records, k0), a, b))
    {
      ghost var was, placed := view, Cut(Placed(k0, records, k0), a, b);
      Store(k0, records, a, b);
      view := was.(values := was.values + placed);
      forall x | x in view.values
        ensures rec[Slot(x, capacity)] == view.values[x]
      {
        if x in placed {
          assert a <= x < b;
        } else {
          assert was.floor <= x < frontier.value;
        }
      }
      var _ := known.Add(a, b);
    }

    method Store(k0: int, records: seq<T>, a: int, b: int)
      requires capacity > 0 && rec != null && rec.Length == capacity && k0 <= a < b <= k0 + |records| && b - a <= capacity
      modifies rec
      ensures forall x :: a <= x < b ==> rec[Slot(x, capacity)] == records[x - k0]
      ensures forall y :: b - capacity <= y < a || b <= y < a + capacity ==> rec[Slot(y, capacity)] == old(rec[Slot(y, capacity)])
    {
      for k := a to b
        invariant forall x :: a <= x < k ==> rec[Slot(x, capacity)] == records[x - k0]
        invariant forall y :: b - capacity <= y < a || b <= y < a + capacity ==>
          rec[Slot(y, capacity)] == old(rec[Slot(y, capacity)])
      {
        forall x | b - capacity <= x < a + capacity && x != k
          ensures Slot(x, capacity) != Slot(k, capacity)
        {
          Apart(Min(x, k), Max(x, k), capacity);
        }
        rec[Slot(k, capacity)] := records[k - k0];
      }
    }

    /** Back to the empty ring, its array given up. */
    method Clear()
      requires Valid()
      modifies this, known
      ensures Valid() && rec == null && view == Empty()
    {
      rec := null;
      known.Clear();
      floor, frontier, view := 0, None, Empty();
    }

    /** All records of the samples [a, b) are retained and known; only grid steps can be asked for. */
    method Covers(a: int, b: int) returns (r: Result<bool, RangeFault>)
      requires Valid()
      ensures r.Err? <==> a % grid != 0 || b % grid != 0
      ensures r.Ok? ==> (r.value <==> floor <= a / grid && forall k :: a / grid <= k < b / grid ==> k in view.values)
    {
      if a % grid != 0 || b % grid != 0 {
        return Err(Unaligned);
      }
      var first, last := a / grid, b / grid;
      var all := known.Covers(first, last);
      SameSteps(first, last);
      r := Ok(first >= floor && all);
    }

    lemma SameSteps(a: int, b: int)
      requires Valid()
      ensures (forall k :: a <= k < b ==> known.Has(k)) <==> forall k :: a <= k < b ==> k in view.values
    {
      if (forall k :: a <= k < b ==> known.Has(k)) {
        forall k | a <= k < b
          ensures k in view.values
        {
          assert known.Has(k);
        }
      }
    }

    /** The cells' read: every record of the samples [a, b), or an error unless both bounds lie on
        the grid and all are known. */
    method ReadAll(a: int, b: int) returns (r: Result<seq<T>, RangeFault>)
      requires Valid()
      ensures r == Err(Unaligned) <==> a % grid != 0 || b % grid != 0
      ensures r.Ok? <==> a % grid == 0 && b % grid == 0 && floor <= a / grid && forall k :: a / grid <= k < b / grid ==> k in view.values
      ensures r.Ok? ==> |r.value| == Max(0, b / grid - a / grid)
      ensures r.Ok? ==> forall k :: a / grid <= k < b / grid ==> r.value[k - a / grid] == view.values[k]
    {
      var all := Covers(a, b);
      if all.Err? {
        return Err(Unaligned);
      }
      if !all.value {
        return Err(Unknown);
      }
      var out := [];
      if a / grid < b / grid {
        assert a / grid in view.values;
        out := Slice(a / grid, b / grid);
      }
      r := Ok(out);
    }

    method Slice(a: int, b: int) returns (out: seq<T>)
      requires Valid() && a <= b && rec != null
      requires forall k :: a <= k < b ==> k in view.values
      ensures |out| == b - a && forall k :: a <= k < b ==> out[k - a] == view.values[k]
    {
      out := [];
      for k := a to b
        invariant |out| == k - a && forall x :: a <= x < k ==> out[x - a] == view.values[x]
      {
        out := out + [rec[Slot(k, capacity)]];
      }
    }

    /** The AFE read: one entry per known step that touches the samples [a, b), ascending, and none
        for any other step. */
    method ReadRetained(a: int, b: int) returns (out: seq<(int, T)>)
      requires Valid()
      ensures out == if a < b then Listing(view.values, a / grid, Ceil(b, grid)) else []
      ensures a < b ==> Lists(out, view.values, a / grid, Ceil(b, grid))
    {
      out := [];
      if a >= b {
        return;
      }
      ListingLists(view.values, a / grid, Ceil(b, grid));
      if rec == null {
        SkipAfter(view.values, a / grid, a / grid, Ceil(b, grid));
        return;
      }
      out := ListSteps(Max(a / grid, floor), Ceil(b, grid));
      SkipBefore(view.values, a / grid, Max(a / grid, floor), Ceil(b, grid));
    }

    method ListSteps(lo: int, hi: int) returns (out: seq<(int, T)>)
      requires Valid() && rec != null
      ensures out == Listing(view.values, lo, hi)
    {
      var parts := known.Overlapping(lo, hi);
      out := [];
      for n := 0 to |parts|
        invariant out == Listing(view.values, lo, Reached(parts, n, lo))
      {
        NextPart(parts, n, lo, hi);
        out := ListRange(out, lo, parts[n].0, parts[n].1);
      }
      LastPart(parts, lo, hi);
    }

    lemma {:induction false} NextPart(parts: seq<(int, int)>, n: nat, lo: int, hi: int)
      requires Valid() && Parts(parts, lo, hi) && n < |parts|
      ensures lo <= parts[n].0 <= parts[n].1 && forall k :: parts[n].0 <= k < parts[n].1 ==> known.Has(k)
      ensures Listing(view.values, lo, parts[n].0) == Listing(view.values, lo, Reached(parts, n, lo))
    {
      Between(parts, n, lo, hi);
      forall k | Reached(parts, n, lo) <= k < parts[n].0
        ensures k !in view.values
      {
        assert lo <= k < hi && !InRanges(parts, k);
      }
      SkipAfter(view.values, lo, Reached(parts, n, lo), parts[n].0);
      forall k | parts[n].0 <= k < parts[n].1
        ensures known.Has(k)
      {
        assert InRanges(parts, k);
      }
    }

    lemma {:induction false} LastPart(parts: seq<(int, int)>, lo: int, hi: int)
      requires Valid() && Parts(parts, lo, hi)
      ensures Listing(view.values, lo, Reached(parts, |parts|, lo)) == Listing(view.values, lo, hi)
    {
      var end := Reached(parts, |parts|, lo);
      NothingBeyond(parts, lo, hi);
      if end <= hi {
        forall k | end <= k < hi
          ensures k !in view.values
        {
          assert lo <= k < hi && !InRanges(parts, k);
        }
        SkipAfter(view.values, lo, end, hi);
      }
    }

    /** The known ranges inside [lo, hi). */
    ghost predicate Parts(parts: seq<(int, int)>, lo: int, hi: int)
      reads this, known
      requires known.Valid()
    {
      && Separated(parts) && (forall i :: 0 <= i < |parts| ==> lo <= parts[i].0 && parts[i].1 <= hi)
      && forall x :: InRanges(parts, x) <==> lo <= x < hi && known.Has(x)
    }

    method ListRange(before: seq<(int, T)>, lo: int, x: int, y: int) returns (out: seq<(int, T)>)
      requires Valid() && rec != null && lo <= x <= y && before == Listing(view.values, lo, x)
      requires forall k :: x <= k < y ==> known.Has(k)
      ensures out == Listing(view.values, lo, y)
    {
      out := before;
      for k := x to y
        invariant out == Listing(view.values, lo, k)
      {
        assert known.Has(k);
        out := out + [(k, rec[Slot(k, capacity)])];
      }
    }
  }
}
