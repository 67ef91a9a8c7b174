/** Silero probabilities per 512-sample cell (controller/em_audio_timeline.py, `VadTrack`): a ring
    whose newest value wins and whose empty slots (NaN in the source, None here) mean "not analysed". */
module VadTracks {
  import opened Basics
  import opened Intervals
  import opened RingSpec
  import opened Records
  import opened Slots

  function Note<T>(v: View<T>, capacity: int, j0: int, data: seq<T>): View<T> {
    var j1 := j0 + |data|;
    if j1 <= v.floor then v
    else
      var newer := v.frontier.None? || j1 > v.frontier.value;
      var floor := if newer then Max(v.floor, j1 - capacity) else v.floor;
      View(floor, if newer then Some(j1) else v.frontier, From(v.values, floor) + Placed(j0, data, floor))
  }

  function NoteOp<T>(v: View<T>, capacity: int, op: Op<T>): View<T> {
    match op
    case WriteOp(first, data) => Note(v, capacity, first, data)
    case MuteOp(_) => v
    case TrimOp(to) => Trim(v, to)
    case ClearOp => Empty()
  }

  function NoteRun<T>(capacity: int, ops: seq<Op<T>>): View<T> {
    if ops == [] then Empty() else NoteOp(NoteRun(capacity, ops[..|ops| - 1]), capacity, ops[|ops| - 1])
  }

  /** The reference: an unbounded map in which the newest value of a cell wins. */
  function Newest<T>(ops: seq<Op<T>>): map<int, T> {
    if ops == [] then map[]
    else
      var m := Newest(ops[..|ops| - 1]);
      match ops[|ops| - 1]
      case WriteOp(first, data) => m + Placed(first, data, first)
      case MuteOp(_) => m
      case TrimOp(_) => m
      case ClearOp => map[]
  }

  lemma NoteOpRefines<T>(v: View<T>, capacity: int, op: Op<T>, m: map<int, T>)
    requires capacity > 0 && Bounded(v, capacity) && v.values == From(m, v.floor)
    ensures Bounded(NoteOp(v, capacity, op), capacity)
    ensures match op
      case WriteOp(first, data) =>
        NoteOp(v, capacity, op).values == From(m + Placed(first, data, first), NoteOp(v, capacity, op).floor)
      case ClearOp => NoteOp(v, capacity, op).values == map[]
      case _ => NoteOp(v, capacity, op).values == From(m, NoteOp(v, capacity, op).floor)
  {
    match op
    case WriteOp(first, data) =>
      FromFrom(m, v.floor, NoteOp(v, capacity, op).floor);
    case TrimOp(to) => FromFrom(m, v.floor, NoteOp(v, capacity, op).floor);
    case _ =>
  }

  /** After any run the track holds exactly the newest value of each cell at or past the floor,
      within one ring. A cell never written since it came into the window has none, and a trimmed
      cell stays gone until a clear, because the floor never goes down. */
  lemma {:induction false} VadRefinesNewest<T>(capacity: int, ops: seq<Op<T>>)
    requires capacity > 0
    ensures NoteRun(capacity, ops).values == From(Newest(ops), NoteRun(capacity, ops).floor)
    ensures Bounded(NoteRun(capacity, ops), capacity)
    ensures ops != [] && !ops[|ops| - 1].ClearOp? ==>
      NoteRun(capacity, ops[..|ops| - 1]).floor <= NoteRun(capacity, ops).floor
  {
    if ops != [] {
      var front := ops[..|ops| - 1];
      VadRefinesNewest(capacity, front);
      NoteOpRefines(NoteRun(capacity, front), capacity, ops[|ops| - 1], Newest(front));
    }
  }

  /** The track's floor and frontier are the ring's: the highest trim, or one ring behind the end of
      the newest write. */
  lemma {:induction false} NoteFloor<T>(capacity: int, ops: seq<Op<T>>)
    requires capacity > 0
    ensures FloorIs(NoteRun(capacity, ops), capacity, TopTrim(ops), Ends(ops, false))
  {
    if ops != [] {
      NoteFloor(capacity, ops[..|ops| - 1]);
    }
  }

  /** Nothing is forgotten early. */
  lemma {:induction false} VadRemembers<T>(capacity: int, ops: seq<Op<T>>, j: int)
    requires capacity > 0 && j in Newest(ops) && TopTrim(ops) <= j
    requires forall e :: e in Ends(ops, false) ==> e - capacity <= j
    ensures j in NoteRun(capacity, ops).values && NoteRun(capacity, ops).values[j] == Newest(ops)[j]
  {
    NoteFloor(capacity, ops);
    VadRefinesNewest(capacity, ops);
  }

  lemma EnterThenPlace<T>(v: View<T>, capacity: int, j0: int, data: seq<T>)
    requires v.floor < j0 + |data|
    ensures var u := Note(v, capacity, j0 + |data|, []);
      Note(v, capacity, j0, data) == u.(values := u.values + Placed(j0, data, u.floor))
  {
    var u := Note(v, capacity, j0 + |data|, []);
    assert Placed<T>(j0 + |data|, [], u.floor) == map[];
    assert From(v.values, u.floor) + map[] == From(v.values, u.floor);
  }

  class VadTrack<T> {
    const capacity: int
    var p: array?<Option<T>>
    var floor: int
    var frontier: Option<int>
    ghost var view: View<T>

    ghost predicate Valid()
      reads this, p
    {
      && capacity > 0 && (p == null <==> frontier.None?) && (p != null ==> p.Length == capacity)
      && view.floor == floor && view.frontier == frontier && Bounded(view, capacity)
      && (frontier.Some? ==> forall j :: floor <= j < frontier.value ==>
        p[Slot(j, capacity)] == At(j))
    }

    ghost function At(j: int): Option<T>
      reads this
    {
      if j in view.values then Some(view.values[j]) else None
    }

    constructor (capacity: int)
      requires capacity > 0
      ensures Valid() && this.capacity == capacity && p == null && view == Empty()
    {
      this.capacity, p, floor, frontier, view := capacity, null, 0, None, Empty();
    }

    /** Assign slots of cells [a, b): value k of `data`, or nothing where `data` is empty. */
    method Fill(a: int, b: int, data: seq<T>)
      requires capacity > 0 && p != null && p.Length == capacity && b - a <= capacity && (data == [] || |data| == b - a)
      modifies p
      ensures forall j :: a <= j < b ==> p[Slot(j, capacity)] == if data == [] then None else Some(data[j - a])
      ensures forall j :: b - capacity <= j < a || b <= j < a + capacity ==> p[Slot(j, capacity)] == old(p[Slot(j, capacity)])
    {
      var k := a;
      while k < b
        invariant a <= b ==> a <= k <= b
        invariant forall j :: a <= j < k ==> p[Slot(j, capacity)] == if data == [] then None else Some(data[j - a])
        invariant forall j :: b - capacity <= j < a || b <= j < a + capacity ==> p[Slot(j, capacity)] == old(p[Slot(j, capacity)])
      {
        forall j | b - capacity <= j < a + capacity && j != k
          ensures Slot(j, capacity) != Slot(k, capacity)
        {
          Apart(Min(j, k), Max(j, k), capacity);
        }
        p[Slot(k, capacity)] := if data == [] then None else Some(data[k - a]);
        k := k + 1;
      }
    }

    method Write(firstCellSample: int, probabilities: seq<T>)
      requires Valid()
      modifies this, p
      ensures Valid() && (p == old(p) || fresh(p))
      ensures view == Note(old(view), capacity, firstCellSample / CELL_SAMPLES, probabilities)
    {
      var j0 := firstCellSample / CELL_SAMPLES;
      var j1 := j0 + |probabilities|;
      if j1 <= floor {
        return;
      }
      EnterThenPlace(view, capacity, j0, probabilities);
      Enter(j1);
      Place(j0, probabilities, Max(j0, floor));
    }

    method Place(j0: int, probabilities: seq<T>, lo: int)
      requires Valid() && p != null && lo == Max(j0, floor) && j0 + |probabilities| <= frontier.value
      modifies this`view, p
      ensures Valid()
      ensures view == old(view).(values := old(view).values + Placed(j0, probabilities, floor))
    {
      var j1 := j0 + |probabilities|;
      if lo < j1 {
        Fill(lo, j1, probabilities[lo - j0..]);
      }
      ghost var placed := Placed(j0, probabilities, floor);
      view := view.(values := view.values + placed);
      forall j | floor <= j < frontier.value
        ensures p[Slot(j, capacity)] == At(j)
      {
        if j in placed {
          assert lo <= j < j1;
        } else {
          assert lo < j1 ==> j1 - capacity <= j < lo || j1 <= j < lo + capacity;
        }
      }
    }

    /** Make the window reach j1: the cells entering it take slots that still hold cells one ring older. */
    method Enter(j1: int)
      requires Valid() && floor < j1
      modifies this, p
      ensures Valid() && p != null && (p == old(p) || fresh(p)) && j1 <= frontier.value
      ensures view == Note(old(view), capacity, j1, [])
    {
      if p == null {
        p := new Option<T>[capacity](_ => None);
      } else if frontier.Some? && j1 > frontier.value {
        Fill(Max(frontier.value, j1 - capacity), j1, []);
      }
      if frontier.None? || j1 > frontier.value {
        frontier := Some(j1);
        floor := Max(floor, j1 - capacity);
      }
      view := Note(view, capacity, j1, []);
    }

    /** Only cells that end after `sample` stay. */
    method TrimBefore(sample: int)
      requires Valid()
      modifies this
      ensures Valid() && p == old(p) && view == Trim(old(view), sample / CELL_SAMPLES)
    {
      floor := Max(floor, sample / CELL_SAMPLES);
      view := Trim(view, sample / CELL_SAMPLES);
    }

    method Clear()
      requires Valid()
      modifies this
      ensures Valid() && p == null && view == Empty()
    {
      p, floor, frontier, view := null, 0, None, Empty();
    }

    /** The first analysed cell of [lo, hi) and the one past the last; `first` is hi when there is none. */
    method Analysed(lo: int, hi: int) returns (first: int, last: int)
      requires Valid() && frontier.Some? && floor <= lo < hi <= frontier.value
      ensures lo <= first <= hi && forall j :: lo <= j < first ==> j !in view.values
      ensures first < hi ==> first < last <= hi && first in view.values && last - 1 in view.values
      ensures first < hi ==> forall j :: last <= j < hi ==> j !in view.values
    {
      first, last := lo, hi;
      while first < hi && p[Slot(first, capacity)].None?
        invariant lo <= first <= hi && forall j :: lo <= j < first ==> j !in view.values
      {
        first := first + 1;
      }
      if first < hi {
        while p[Slot(last - 1, capacity)].None?
          invariant first < last <= hi && forall j :: last <= j < hi ==> j !in view.values
          decreases last - first
        {
          last := last - 1;
        }
      }
    }

    /** The values of the cells touching [a, b), with both ends cut to cells that have one. */
    method Read(a: int, b: int) returns (r: Option<(int, seq<Option<T>>)>)
      requires Valid()
      ensures r.None? <==> forall j :: a < b && a / CELL_SAMPLES <= j < Ceil(b, CELL_SAMPLES) ==> j !in view.values
      ensures r.Some? ==>
        var (start, cells) := r.value;
        var j0 := start / CELL_SAMPLES;
        && a < b && start == j0 * CELL_SAMPLES && |cells| > 0 && cells[0].Some? && cells[|cells| - 1].Some?
        && a / CELL_SAMPLES <= j0 && j0 + |cells| <= Ceil(b, CELL_SAMPLES)
        && (forall k :: 0 <= k < |cells| ==>
          cells[k] == At(j0 + k))
        && (forall j :: a / CELL_SAMPLES <= j < Ceil(b, CELL_SAMPLES) && j in view.values ==> j0 <= j < j0 + |cells|)
    {
      if p == null || frontier.None? || a >= b {
        return None;
      }
      var lo, hi := Max(a / CELL_SAMPLES, floor), Min(Ceil(b, CELL_SAMPLES), frontier.value);
      assert forall j :: a / CELL_SAMPLES <= j < Ceil(b, CELL_SAMPLES) && !(lo <= j < hi) ==> j !in view.values;
      if lo >= hi {
        return None;
      }
      var first, last := Analysed(lo, hi);
      if first == hi {
        return None;
      }
      var cells := Values(first, last);
      assert first * CELL_SAMPLES / CELL_SAMPLES == first;
      r := Some((first * CELL_SAMPLES, cells));
    }

    method Values(first: int, last: int) returns (cells: seq<Option<T>>)
      requires Valid() && frontier.Some? && floor <= first <= last <= frontier.value
      ensures |cells| == last - first && forall k :: 0 <= k < |cells| ==> cells[k] == At(first + k)
    {
      cells := [];
      for j := first to last
        invariant |cells| == j - first && forall k :: 0 <= k < |cells| ==> cells[k] == At(first + k)
      {
        cells := cells + [p[Slot(j, capacity)]];
      }
    }
  }
}
