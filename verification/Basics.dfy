/** What every component shares: two small datatypes, the wire's sizes and a few plain functions. */
module Basics {
  datatype Option<+T> = None | Some(value: T)

  datatype Result<+T, +E> = Ok(value: T) | Err(error: E)

  const U64_MAX := 0xFFFF_FFFF_FFFF_FFFF

  /** Mic samples of one cell, and of one AFE period. */
  const CELL_SAMPLES := 512
  const AFE_PERIOD_SAMPLES := 1_280

  function Min(a: int, b: int): int { if a < b then a else b }

  function Max(a: int, b: int): int { if a < b then b else a }

  function Get<K(==), V>(m: map<K, V>, k: K): Option<V> {
    if k in m then Some(m[k]) else None
  }
}

/** Slots of a ring: index x lives in slot x % capacity. */
module Slots {
  lemma AtLeast(cap: int, d: int)
    requires cap > 0 && d >= 1
    ensures cap * d >= cap
  {
  }

  lemma DivisionIsUnique(cap: int, q: int, r: int, q': int, r': int)
    requires cap > 0 && cap * q + r == cap * q' + r' && 0 <= r < cap && 0 <= r' < cap
    ensures r == r'
  {
    assert cap * (q' - q) == cap * q' - cap * q && cap * (q - q') == cap * q - cap * q';
    if q' > q {
      AtLeast(cap, q' - q);
    } else if q' < q {
      AtLeast(cap, q - q');
    }
  }

  lemma ModIs(x: int, cap: int, q: int, r: int)
    requires cap > 0 && x == cap * q + r && 0 <= r < cap
    ensures x % cap == r
  {
    DivisionIsUnique(cap, q, r, x / cap, x % cap);
  }

  function Slot(x: int, cap: int): (s: int)
    requires cap > 0
    ensures 0 <= s < cap
  {
    x % cap
  }

  /** Walking k slots on wraps at most once while k stays within one ring. */
  lemma Walk(x: int, cap: int, k: int)
    requires cap > 0 && 0 <= k <= cap
    ensures Slot(x + k, cap) == if Slot(x, cap) + k < cap then Slot(x, cap) + k else Slot(x, cap) + k - cap
  {
    var q, r := x / cap, x % cap;
    assert x == cap * q + r;
    if r + k < cap {
      ModIs(x + k, cap, q, r + k);
    } else {
      assert cap * (q + 1) == cap * q + cap;
      ModIs(x + k, cap, q + 1, r + k - cap);
    }
  }

  /** Two indices less than one ring apart never share a slot. */
  lemma Apart(x: int, y: int, cap: int)
    requires cap > 0 && x < y < x + cap
    ensures Slot(x, cap) != Slot(y, cap)
  {
    Walk(x, cap, y - x);
  }

  /** Two indices exactly one ring apart do. */
  lemma OneRing(x: int, cap: int)
    requires cap > 0
    ensures Slot(x + cap, cap) == Slot(x, cap)
  {
    Walk(x, cap, cap);
  }
}
