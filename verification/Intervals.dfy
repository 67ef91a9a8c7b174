/** Half-open integer intervals: the sorted, merged interval set every timeline keeps its
    known ranges in (controller/em_audio_timeline.py, `IntervalSet`). */
module Intervals {
  import opened Basics

  /** Some integer of a range list `[lo, hi), ...` is x. */
  predicate InRanges(rs: seq<(int, int)>, x: int) {
    exists i :: 0 <= i < |rs| && rs[i].0 <= x < rs[i].1
  }

  /** Nonempty ranges, ascending and with a gap between neighbours. */
  predicate Separated(rs: seq<(int, int)>) {
    && (forall i :: 0 <= i < |rs| ==> rs[i].0 < rs[i].1)
    && (forall i, j :: 0 <= i < j < |rs| ==> rs[i].1 < rs[j].0)
  }

  /** The two parallel columns of a canonical set. */
  predicate Canonical(starts: seq<int>, ends: seq<int>) {
    && |starts| == |ends|
    && (forall i :: 0 <= i < |starts| ==> starts[i] < ends[i])
    && (forall i, j :: 0 <= i < j < |starts| ==> ends[i] < starts[j])
  }

  /** x lies in one of the intervals. */
  predicate Member(starts: seq<int>, ends: seq<int>, x: int)
    requires |starts| == |ends|
  {
    exists i :: 0 <= i < |starts| && starts[i] <= x < ends[i]
  }

  predicate Ascending(s: seq<int>) {
    forall i, j :: 0 <= i < j < |s| ==> s[i] < s[j]
  }

  /** Python's bisect_right on an ascending list: how many entries are at most x. */
  function BisectRight(s: seq<int>, x: int): (i: nat)
    requires Ascending(s)
    ensures i <= |s|
    ensures forall j :: 0 <= j < i ==> s[j] <= x
    ensures forall j :: i <= j < |s| ==> x < s[j]
  {
    if s == [] || s[|s| - 1] <= x then |s| else BisectRight(s[..|s| - 1], x)
  }

  /** Python's bisect_left on an ascending list: how many entries are below x. */
  function BisectLeft(s: seq<int>, x: int): (i: nat)
    requires Ascending(s)
    ensures i <= |s|
    ensures forall j :: 0 <= j < i ==> s[j] < x
    ensures forall j :: i <= j < |s| ==> x <= s[j]
  {
    if s == [] || s[|s| - 1] < x then |s| else BisectLeft(s[..|s| - 1], x)
  }

  class IntervalSet {
    var starts: seq<int>
    var ends: seq<int>

    predicate Valid()
      reads this
    {
      Canonical(starts, ends)
    }

    /** Membership: the mathematical set this object stands for. */
    predicate Has(x: int)
      reads this
      requires Valid()
    {
      Member(starts, ends, x)
    }

    constructor ()
      ensures Valid() && forall x :: !Has(x)
      ensures starts == [] && ends == []
    {
      starts, ends := [], [];
    }

    /** Whether x is a member, and then the longest run of members around it. */
    method Containing(x: int) returns (found: bool, lo: int, hi: int)
      requires Valid()
      ensures found <==> Has(x)
      ensures found ==> lo <= x < hi && !Has(lo - 1) && !Has(hi) && forall y :: lo <= y < hi ==> Has(y)
    {
      var i := BisectRight(starts, x) - 1;
      if i >= 0 && x < ends[i] {
        found, lo, hi := true, starts[i], ends[i];
        forall y | lo <= y < hi ensures Has(y) { assert starts[i] <= y < ends[i]; }
      } else {
        found, lo, hi := false, 0, 0;
      }
    }

    /** The set intersected with [a, b), as separated ranges. */
    method Overlapping(a: int, b: int) returns (out: seq<(int, int)>)
      requires Valid()
      ensures Separated(out)
      ensures forall i :: 0 <= i < |out| ==> a <= out[i].0 && out[i].1 <= b
      ensures forall x :: InRanges(out, x) <==> a <= x < b && Has(x)
    {
      out := [];
      var i := BisectRight(ends, a);
      ghost var from := i;
      while i < |starts| && starts[i] < b
        invariant from <= i <= |starts| && out == ClipUpTo(starts, ends, from, i, a, b)
      {
        var lo, hi := Max(starts[i], a), Min(ends[i], b);
        if lo < hi {
          out := out + [(lo, hi)];
        }
        i := i + 1;
      }
      AllClipped(starts, ends, from, i, a, b);
    }

    /** The difference [a, b) minus the set, as separated ranges. */
    method Missing(a: int, b: int) returns (out: seq<(int, int)>)
      requires Valid()
      ensures Separated(out)
      ensures forall i :: 0 <= i < |out| ==> a <= out[i].0 && out[i].1 <= b
      ensures forall x :: InRanges(out, x) <==> a <= x < b && !Has(x)
    {
      out := [];
      var cur := a;
      var inside := Overlapping(a, b);
      for k := 0 to |inside|
        invariant cur == Reached(inside, k, a) && out == Gaps(inside, k, a)
      {
        var (lo, hi) := inside[k];
        if lo > cur {
          out := out + [(cur, lo)];
        }
        cur := hi;
      }
      if cur < b {
        out := out + [(cur, b)];
      }
      GapsAreMissing(inside, a, b);
    }

    /** Every integer of [a, b) is in the set. One interval must hold them all, which is
        the same thing only because touching intervals are merged. */
    method Covers(a: int, b: int) returns (r: bool)
      requires Valid()
      ensures r <==> forall x :: a <= x < b ==> Has(x)
    {
      if a >= b {
        return true;
      }
      var inside := Overlapping(a, b);
      r := inside == [(a, b)];
      if r {
        assert forall x :: a <= x < b ==> InRanges(inside, x) by {
          forall x | a <= x < b ensures InRanges(inside, x) { assert inside[0].0 <= x < inside[0].1; }
        }
      } else if forall x :: a <= x < b ==> Has(x) {
        SolidIsOne(inside, a, b);
      }
    }

    /** Union with [a, b); returns exactly the part that was new. */
    method Add(a: int, b: int) returns (added: seq<(int, int)>)
      requires Valid()
      modifies this
      ensures Valid()
      ensures forall x :: Has(x) <==> old(Has(x)) || a <= x < b
      ensures Separated(added)
      ensures forall i :: 0 <= i < |added| ==> a <= added[i].0 && added[i].1 <= b
      ensures forall x :: InRanges(added, x) <==> a <= x < b && !old(Has(x))
    {
      if a >= b {
        return [];
      }
      added := Missing(a, b);
      var i := BisectLeft(ends, a);
      var j := BisectRight(starts, b);
      var lo, hi := a, b;
      if i < j {
        lo := Min(a, starts[i]);
        hi := Max(b, ends[j - 1]);
      }
      MergeIsUnion(starts, ends, a, b, i, j, lo, hi);
      starts := starts[..i] + [lo] + starts[j..];
      ends := ends[..i] + [hi] + ends[j..];
    }

    /** Restriction to [x, infinity). */
    method TrimBefore(x: int)
      requires Valid()
      modifies this
      ensures Valid()
      ensures forall y :: Has(y) <==> old(Has(y)) && x <= y
    {
      var i := BisectRight(ends, x);
      TrimIsRestriction(starts, ends, i, x);
      starts := starts[i..];
      ends := ends[i..];
      if |starts| > 0 && starts[0] < x {
        starts := starts[0 := x];
      }
    }

    method Clear()
      modifies this
      ensures Valid() && forall x :: !Has(x)
    {
      starts, ends := [], [];
    }
  }

  /** Appending one nonempty range adds exactly its integers. */
  lemma Appended(before: seq<(int, int)>, after: seq<(int, int)>, lo: int, hi: int)
    requires after == if lo < hi then before + [(lo, hi)] else before
    ensures forall x :: InRanges(after, x) <==> InRanges(before, x) || lo <= x < hi
  {
    forall x
      ensures InRanges(after, x) <==> InRanges(before, x) || lo <= x < hi
    {
      if InRanges(before, x) {
        var k :| 0 <= k < |before| && before[k].0 <= x < before[k].1;
        assert after[k] == before[k];
      }
      if lo <= x < hi {
        assert after[|before|] == (lo, hi);
      }
      if InRanges(after, x) && !InRanges(before, x) {
        var k :| 0 <= k < |after| && after[k].0 <= x < after[k].1;
        assert k == |before|;
      }
    }
  }

  /** `out` is the part of the first i intervals inside [a, b). */
  ghost predicate Clipped(out: seq<(int, int)>, starts: seq<int>, ends: seq<int>, i: nat, a: int, b: int)
    requires Canonical(starts, ends) && i <= |starts|
  {
    && Separated(out) && (out != [] ==> 0 < i && out[|out| - 1].1 <= ends[i - 1])
    && (forall k :: 0 <= k < |out| ==> a <= out[k].0 && out[k].1 <= b)
    && (forall x :: InRanges(out, x) <==> a <= x < b && Member(starts[..i], ends[..i], x))
  }

  lemma NoneClipped(starts: seq<int>, ends: seq<int>, i: nat, a: int, b: int)
    requires Canonical(starts, ends) && i <= |starts| && forall k :: 0 <= k < i ==> ends[k] <= a
    ensures Clipped([], starts, ends, i, a, b)
  {
  }

  /** The parts inside [a, b) of intervals `from` up to i. */
  function ClipUpTo(starts: seq<int>, ends: seq<int>, from: nat, i: nat, a: int, b: int): seq<(int, int)>
    requires from <= i <= |starts| == |ends|
  {
    if i == from then []
    else
      var lo, hi := Max(starts[i - 1], a), Min(ends[i - 1], b);
      if lo < hi then ClipUpTo(starts, ends, from, i - 1, a, b) + [(lo, hi)] else ClipUpTo(starts, ends, from, i - 1, a, b)
  }

  lemma {:induction false} ClipUpToIs(starts: seq<int>, ends: seq<int>, from: nat, i: nat, a: int, b: int)
    requires Canonical(starts, ends) && from <= i <= |starts| && forall k :: 0 <= k < from ==> ends[k] <= a
    ensures Clipped(ClipUpTo(starts, ends, from, i, a, b), starts, ends, i, a, b)
  {
    if i == from {
      NoneClipped(starts, ends, i, a, b);
    } else {
      ClipUpToIs(starts, ends, from, i - 1, a, b);
      ClipOne(ClipUpTo(starts, ends, from, i - 1, a, b), starts, ends, i - 1, a, b);
    }
  }

  lemma AllClipped(starts: seq<int>, ends: seq<int>, from: nat, i: nat, a: int, b: int)
    requires Canonical(starts, ends) && from <= i <= |starts| && (i < |starts| ==> b <= starts[i])
    requires forall k :: 0 <= k < from ==> ends[k] <= a
    ensures var out := ClipUpTo(starts, ends, from, i, a, b);
      && Separated(out)
      && (forall k :: 0 <= k < |out| ==> a <= out[k].0 && out[k].1 <= b)
      && (forall x :: InRanges(out, x) <==> a <= x < b && Member(starts, ends, x))
  {
    ClipUpToIs(starts, ends, from, i, a, b);
    Rest(starts, ends, i, b);
  }

  lemma ClipOne(out: seq<(int, int)>, starts: seq<int>, ends: seq<int>, i: nat, a: int, b: int)
    requires Canonical(starts, ends) && i < |starts| && Clipped(out, starts, ends, i, a, b)
    ensures var lo, hi := Max(starts[i], a), Min(ends[i], b);
      Clipped(if lo < hi then out + [(lo, hi)] else out, starts, ends, i + 1, a, b)
  {
    ClipOneFits(out, starts, ends, i, a, b);
    ClipOneHas(out, starts, ends, i, a, b);
  }

  lemma ClipOneFits(out: seq<(int, int)>, starts: seq<int>, ends: seq<int>, i: nat, a: int, b: int)
    requires Canonical(starts, ends) && i < |starts|
    requires Separated(out) && (out != [] ==> 0 < i && out[|out| - 1].1 <= ends[i - 1])
    requires forall k :: 0 <= k < |out| ==> a <= out[k].0 && out[k].1 <= b
    ensures var lo, hi := Max(starts[i], a), Min(ends[i], b);
      var out' := if lo < hi then out + [(lo, hi)] else out;
      && Separated(out') && (out' != [] ==> out'[|out'| - 1].1 <= ends[i])
      && (forall k :: 0 <= k < |out'| ==> a <= out'[k].0 && out'[k].1 <= b)
  {
    var lo, hi := Max(starts[i], a), Min(ends[i], b);
    assert i > 0 ==> ends[i - 1] < starts[i];
    if lo < hi {
      AppendSeparated(out, lo, hi);
    }
  }

  lemma ClipOneHas(out: seq<(int, int)>, starts: seq<int>, ends: seq<int>, i: nat, a: int, b: int)
    requires Canonical(starts, ends) && i < |starts|
    requires forall x :: InRanges(out, x) <==> a <= x < b && Member(starts[..i], ends[..i], x)
    ensures var lo, hi := Max(starts[i], a), Min(ends[i], b);
      var out' := if lo < hi then out + [(lo, hi)] else out;
      forall x :: InRanges(out', x) <==> a <= x < b && Member(starts[..i + 1], ends[..i + 1], x)
  {
    var lo, hi := Max(starts[i], a), Min(ends[i], b);
    Appended(out, if lo < hi then out + [(lo, hi)] else out, lo, hi);
    OneMore(starts, ends, i);
  }

  /** How far the first k of the ranges inside [a, b) reach, and the gaps up to there. */
  function Reached(inside: seq<(int, int)>, k: nat, a: int): int
    requires k <= |inside|
  {
    if k == 0 then a else inside[k - 1].1
  }

  function Gaps(inside: seq<(int, int)>, k: nat, a: int): seq<(int, int)>
    requires k <= |inside|
  {
    if k == 0 then []
    else
      var cur, lo := Reached(inside, k - 1, a), inside[k - 1].0;
      if lo > cur then Gaps(inside, k - 1, a) + [(cur, lo)] else Gaps(inside, k - 1, a)
  }

  ghost predicate GapsUpTo(gaps: seq<(int, int)>, inside: seq<(int, int)>, a: int, cur: int) {
    && Separated(gaps) && (gaps != [] ==> gaps[|gaps| - 1].1 < cur)
    && (forall i :: 0 <= i < |gaps| ==> a <= gaps[i].0 && gaps[i].1 <= cur)
    && (forall x :: InRanges(gaps, x) <==> a <= x < cur && !InRanges(inside, x))
  }

  ghost predicate Inside(inside: seq<(int, int)>, a: int, b: int) {
    Separated(inside) && forall i :: 0 <= i < |inside| ==> a <= inside[i].0 && inside[i].1 <= b
  }

  /** Between two neighbours there is nothing, and a range is all there. */
  lemma Between(inside: seq<(int, int)>, k: nat, a: int, b: int)
    requires Inside(inside, a, b) && k < |inside|
    ensures a <= Reached(inside, k, a) <= inside[k].0 < inside[k].1
    ensures forall x :: Reached(inside, k, a) <= x < inside[k].0 ==> !InRanges(inside, x)
    ensures forall x :: inside[k].0 <= x < inside[k].1 ==> InRanges(inside, x)
  {
  }

  lemma OneGap(gaps: seq<(int, int)>, inside: seq<(int, int)>, a: int, cur: int, lo: int, hi: int)
    requires GapsUpTo(gaps, inside, a, cur) && a <= cur <= lo < hi
    requires forall x :: cur <= x < lo ==> !InRanges(inside, x)
    requires forall x :: lo <= x < hi ==> InRanges(inside, x)
    ensures GapsUpTo(if lo > cur then gaps + [(cur, lo)] else gaps, inside, a, hi)
  {
    Appended(gaps, if lo > cur then gaps + [(cur, lo)] else gaps, cur, lo);
    if lo > cur {
      AppendSeparated(gaps, cur, lo);
    }
  }

  lemma {:induction false} GapsReach(inside: seq<(int, int)>, k: nat, a: int, b: int)
    requires Inside(inside, a, b) && k <= |inside|
    ensures GapsUpTo(Gaps(inside, k, a), inside, a, Reached(inside, k, a))
  {
    if k > 0 {
      GapsReach(inside, k - 1, a, b);
      Between(inside, k - 1, a, b);
      OneGap(Gaps(inside, k - 1, a), inside, a, Reached(inside, k - 1, a), inside[k - 1].0, inside[k - 1].1);
    }
  }

  lemma GapsAreMissing(inside: seq<(int, int)>, a: int, b: int)
    requires Inside(inside, a, b)
    ensures var cur := Reached(inside, |inside|, a);
      var out := if cur < b then Gaps(inside, |inside|, a) + [(cur, b)] else Gaps(inside, |inside|, a);
      && Separated(out)
      && (forall i :: 0 <= i < |out| ==> a <= out[i].0 && out[i].1 <= b)
      && (forall x :: InRanges(out, x) <==> a <= x < b && !InRanges(inside, x))
  {
    var cur, gaps := Reached(inside, |inside|, a), Gaps(inside, |inside|, a);
    GapsReach(inside, |inside|, a, b);
    Appended(gaps, if cur < b then gaps + [(cur, b)] else gaps, cur, b);
    if cur < b {
      AppendSeparated(gaps, cur, b);
    }
    NothingBeyond(inside, a, b);
  }

  lemma NothingBeyond(inside: seq<(int, int)>, a: int, b: int)
    requires Inside(inside, a, b)
    ensures forall x :: Reached(inside, |inside|, a) <= x ==> !InRanges(inside, x)
  {
  }

  lemma AppendSeparated(before: seq<(int, int)>, lo: int, hi: int)
    requires Separated(before) && lo < hi && (before != [] ==> before[|before| - 1].1 < lo)
    ensures Separated(before + [(lo, hi)])
  {
  }

  /** A separated list whose integers are exactly [a, b) is that one interval: with touching
      neighbours left unmerged this would be false. */
  lemma SolidIsOne(rs: seq<(int, int)>, a: int, b: int)
    requires a < b && Separated(rs)
    requires forall x :: InRanges(rs, x) <==> a <= x < b
    ensures rs == [(a, b)]
  {
    assert InRanges(rs, a);
    var k :| 0 <= k < |rs| && rs[k].0 <= a < rs[k].1;
    OpenBorders(rs, k);
    assert rs[k].0 == a && b <= rs[k].1;
    assert InRanges(rs, rs[k].1 - 1);
    assert rs[k] == (a, b);
    if k > 0 {
      OpenBorders(rs, 0);
      assert false;
    }
    if |rs| > 1 {
      OpenBorders(rs, 1);
      assert false;
    }
  }

  /** The integers just outside a range of a separated list are in no range of it. */
  lemma OpenBorders(rs: seq<(int, int)>, k: nat)
    requires Separated(rs) && k < |rs|
    ensures InRanges(rs, rs[k].0) && InRanges(rs, rs[k].1 - 1)
    ensures !InRanges(rs, rs[k].0 - 1) && !InRanges(rs, rs[k].1)
  {
    assert rs[k].0 <= rs[k].1 - 1 < rs[k].1;
  }

  /** The prefix of one more interval adds that interval's integers. */
  lemma OneMore(starts: seq<int>, ends: seq<int>, i: nat)
    requires Canonical(starts, ends) && i < |starts|
    ensures forall x :: Member(starts[..i + 1], ends[..i + 1], x) <==>
      Member(starts[..i], ends[..i], x) || starts[i] <= x < ends[i]
  {
    var s, e, s', e' := starts[..i], ends[..i], starts[..i + 1], ends[..i + 1];
    forall x
      ensures Member(s', e', x) <==> Member(s, e, x) || starts[i] <= x < ends[i]
    {
      if Member(s, e, x) {
        var k :| 0 <= k < i && s[k] <= x < e[k];
        assert s'[k] <= x < e'[k];
      }
      if starts[i] <= x < ends[i] {
        assert s'[i] <= x < e'[i];
      }
      if Member(s', e', x) && !(starts[i] <= x < ends[i]) {
        var k :| 0 <= k < i + 1 && s'[k] <= x < e'[k];
        assert s[k] <= x < e[k];
      }
    }
  }

  /** Below b, the intervals from the first one starting at or past b do not matter. */
  lemma Rest(starts: seq<int>, ends: seq<int>, i: nat, b: int)
    requires Canonical(starts, ends) && i <= |starts| && (i < |starts| ==> b <= starts[i])
    ensures forall x :: x < b ==> (Member(starts[..i], ends[..i], x) <==> Member(starts, ends, x))
  {
    forall x | x < b
      ensures Member(starts[..i], ends[..i], x) <==> Member(starts, ends, x)
    {
      if Member(starts[..i], ends[..i], x) {
        var k :| 0 <= k < i && starts[..i][k] <= x < ends[..i][k];
        assert starts[k] <= x < ends[k];
      }
      if Member(starts, ends, x) {
        var k :| 0 <= k < |starts| && starts[k] <= x < ends[k];
        assert starts[..i][k] <= x < ends[..i][k];
      }
    }
  }

  /** Dropping the intervals that end by x and cutting the first one left at x restricts to [x, infinity). */
  lemma TrimIsRestriction(s: seq<int>, e: seq<int>, i: nat, x: int)
    requires Canonical(s, e) && i <= |s|
    requires (forall k :: 0 <= k < i ==> e[k] <= x) && (forall k :: i <= k < |e| ==> x < e[k])
    ensures var s' := if i < |s| && s[i] < x then s[i..][0 := x] else s[i..];
      Canonical(s', e[i..]) && forall y :: Member(s', e[i..], y) <==> Member(s, e, y) && x <= y
  {
    var s', e' := if i < |s| && s[i] < x then s[i..][0 := x] else s[i..], e[i..];
    forall y
      ensures Member(s', e', y) <==> Member(s, e, y) && x <= y
    {
      if Member(s, e, y) && x <= y {
        TrimKeeps(s, e, i, x, y);
      }
      if Member(s', e', y) {
        TrimAddsNothing(s, e, i, x, y);
      }
    }
  }

  lemma TrimKeeps(s: seq<int>, e: seq<int>, i: nat, x: int, y: int)
    requires Canonical(s, e) && i <= |s| && (forall k :: 0 <= k < i ==> e[k] <= x)
    requires Member(s, e, y) && x <= y
    ensures Member(if i < |s| && s[i] < x then s[i..][0 := x] else s[i..], e[i..], y)
  {
    var s', e' := if i < |s| && s[i] < x then s[i..][0 := x] else s[i..], e[i..];
    var k :| 0 <= k < |s| && s[k] <= y < e[k];
    assert s'[k - i] <= y < e'[k - i];
  }

  lemma TrimAddsNothing(s: seq<int>, e: seq<int>, i: nat, x: int, y: int)
    requires Canonical(s, e) && i <= |s| && (forall k :: i <= k < |e| ==> x < e[k])
    requires Member(if i < |s| && s[i] < x then s[i..][0 := x] else s[i..], e[i..], y)
    ensures Member(s, e, y) && x <= y
  {
    var s', e' := if i < |s| && s[i] < x then s[i..][0 := x] else s[i..], e[i..];
    var k :| 0 <= k < |s'| && s'[k] <= y < e'[k];
    assert s[k + i] <= y < e[k + i];
    assert k > 0 ==> e[i] < s[k + i];
  }

  /** Replacing every interval that overlaps or touches [a, b) by their common hull keeps the
      columns canonical and adds exactly [a, b). */
  lemma MergeIsUnion(s: seq<int>, e: seq<int>, a: int, b: int, i: int, j: int, lo: int, hi: int)
    requires Canonical(s, e) && a < b
    requires 0 <= i <= |e| && (forall k :: 0 <= k < i ==> e[k] < a) && (forall k :: i <= k < |e| ==> a <= e[k])
    requires 0 <= j <= |s| && (forall k :: 0 <= k < j ==> s[k] <= b) && (forall k :: j <= k < |s| ==> b < s[k])
    requires lo == if i < j then Min(a, s[i]) else a
    requires hi == if i < j then Max(b, e[j - 1]) else b
    ensures i <= j
    ensures Canonical(s[..i] + [lo] + s[j..], e[..i] + [hi] + e[j..])
    ensures forall x :: Member(s[..i] + [lo] + s[j..], e[..i] + [hi] + e[j..], x) <==> Member(s, e, x) || a <= x < b
  {
    assert j < |s| ==> s[j] < e[j];
    assert lo < hi && lo <= a && b <= hi;
    HullMembers(s, e, a, b, i, j, lo, hi);
    Spliced(s, e, i, j, lo, hi);
  }

  lemma Spliced(s: seq<int>, e: seq<int>, i: int, j: int, lo: int, hi: int)
    requires Canonical(s, e) && 0 <= i <= j <= |s| && lo < hi
    requires forall k :: 0 <= k < i ==> e[k] < lo
    requires forall k :: j <= k < |s| ==> hi < s[k]
    ensures Canonical(s[..i] + [lo] + s[j..], e[..i] + [hi] + e[j..])
  {
    var s', e' := s[..i] + [lo] + s[j..], e[..i] + [hi] + e[j..];
    assert |s'| == |e'| == i + 1 + |s| - j;
    forall k | 0 <= k < |s'|
      ensures s'[k] < e'[k]
    {
      assert k > i ==> s'[k] == s[k - i - 1 + j] && e'[k] == e[k - i - 1 + j];
    }
    forall k, m | 0 <= k < m < |s'|
      ensures e'[k] < s'[m]
    {
      SplicedApart(s, e, i, j, lo, hi, k, m);
    }
  }

  lemma SplicedApart(s: seq<int>, e: seq<int>, i: int, j: int, lo: int, hi: int, k: int, m: int)
    requires Canonical(s, e) && 0 <= i <= j <= |s| && lo < hi && 0 <= k < m < i + 1 + |s| - j
    requires forall k :: 0 <= k < i ==> e[k] < lo
    requires forall k :: j <= k < |s| ==> hi < s[k]
    ensures |s[..i] + [lo] + s[j..]| == |e[..i] + [hi] + e[j..]| == i + 1 + |s| - j
    ensures (e[..i] + [hi] + e[j..])[k] < (s[..i] + [lo] + s[j..])[m]
  {
    var s', e' := s[..i] + [lo] + s[j..], e[..i] + [hi] + e[j..];
    var left := if k < i then e[k] else if k == i then hi else e[k - i - 1 + j];
    var right := if m < i then s[m] else if m == i then lo else s[m - i - 1 + j];
    assert e'[k] == left && s'[m] == right;
    assert k < i && i < m ==> e[k] < lo < hi < right;
  }

  lemma HullMembers(s: seq<int>, e: seq<int>, a: int, b: int, i: int, j: int, lo: int, hi: int)
    requires Canonical(s, e) && a < b && 0 <= i <= j <= |s|
    requires lo <= a && b <= hi
    requires if i == j then lo == a && hi == b else
      lo == Min(a, s[i]) && hi == Max(b, e[j - 1]) && a <= e[i] && s[j - 1] <= b
    ensures forall x :: Member(s[..i] + [lo] + s[j..], e[..i] + [hi] + e[j..], x) <==> Member(s, e, x) || a <= x < b
  {
    var s', e' := s[..i] + [lo] + s[j..], e[..i] + [hi] + e[j..];
    forall x
      ensures Member(s', e', x) <==> Member(s, e, x) || a <= x < b
    {
      if Member(s, e, x) || a <= x < b {
        HullKeeps(s, e, a, b, i, j, lo, hi, x);
      } else if Member(s', e', x) {
        HullIsNoMore(s, e, a, b, i, j, lo, hi, x);
      }
    }
  }

  lemma HullIsNoMore(s: seq<int>, e: seq<int>, a: int, b: int, i: int, j: int, lo: int, hi: int, x: int)
    requires Canonical(s, e) && a < b && 0 <= i <= j <= |s|
    requires if i == j then lo == a && hi == b else
      lo == Min(a, s[i]) && hi == Max(b, e[j - 1]) && a <= e[i] && s[j - 1] <= b
    requires Member(s[..i] + [lo] + s[j..], e[..i] + [hi] + e[j..], x) && !(a <= x < b)
    ensures Member(s, e, x)
  {
    var s', e' := s[..i] + [lo] + s[j..], e[..i] + [hi] + e[j..];
    var k :| 0 <= k < |s'| && s'[k] <= x < e'[k];
    HullAt(s, i, j, lo, k);
    HullAt(e, i, j, hi, k);
    if k == i {
      assert i < j && (s[i] <= x < a || b <= x < e[j - 1]);
      assert Member(s, e, x) by {
        var m := if x < a then i else j - 1;
        assert s[m] <= x < e[m];
      }
    } else {
      var m := if k < i then k else k - i - 1 + j;
      assert s[m] <= x < e[m];
    }
  }

  lemma HullAt(s: seq<int>, i: int, j: int, v: int, k: int)
    requires 0 <= i <= j <= |s| && 0 <= k < i + 1 + |s| - j
    ensures |s[..i] + [v] + s[j..]| == i + 1 + |s| - j
    ensures (s[..i] + [v] + s[j..])[k] == if k < i then s[k] else if k == i then v else s[k - i - 1 + j]
  {
  }

  lemma HullKeeps(s: seq<int>, e: seq<int>, a: int, b: int, i: int, j: int, lo: int, hi: int, x: int)
    requires Canonical(s, e) && a < b && 0 <= i <= j <= |s|
    requires lo <= a && b <= hi && (i < j ==> lo <= s[i] && e[j - 1] <= hi)
    requires Member(s, e, x) || a <= x < b
    ensures Member(s[..i] + [lo] + s[j..], e[..i] + [hi] + e[j..], x)
  {
    if a <= x < b {
      HullHas(s, e, i, j, lo, hi, i, x);
    } else {
      var k :| 0 <= k < |s| && s[k] <= x < e[k];
      if k < i || j <= k {
        HullHas(s, e, i, j, lo, hi, if k < i then k else k - j + i + 1, x);
      } else {
        Within(s, e, i, k, j);
        HullHas(s, e, i, j, lo, hi, i, x);
      }
    }
  }

  /** The columns with [i, j) replaced by one interval, at index m. */
  lemma HullHas(s: seq<int>, e: seq<int>, i: int, j: int, lo: int, hi: int, m: int, x: int)
    requires |s| == |e| && 0 <= i <= j <= |s| && 0 <= m < i + 1 + |s| - j
    requires if m < i then s[m] <= x < e[m] else if m == i then lo <= x < hi else s[m - i - 1 + j] <= x < e[m - i - 1 + j]
    ensures Member(s[..i] + [lo] + s[j..], e[..i] + [hi] + e[j..], x)
  {
    var s', e' := s[..i] + [lo] + s[j..], e[..i] + [hi] + e[j..];
    assert |s'| == |e'| == i + 1 + |s| - j;
    assert s'[m] <= x < e'[m];
  }

  lemma Within(s: seq<int>, e: seq<int>, i: int, k: int, j: int)
    requires Canonical(s, e) && 0 <= i <= k < j <= |s|
    ensures s[i] <= s[k] && e[k] <= e[j - 1]
  {
    assert k > i ==> s[i] < e[i] < s[k];
    assert k < j - 1 ==> e[k] < s[j - 1] < e[j - 1];
  }
}
