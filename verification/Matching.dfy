/** An insertion-ordered dictionary, as Python's dict: a list of pairs with distinct keys. */
module OrderedDicts {
  import opened Basics

  predicate Unique<K(==), V>(d: seq<(K, V)>) {
    forall i, j :: 0 <= i < j < |d| ==> d[i].0 != d[j].0
  }

  function AsMap<K, V>(d: seq<(K, V)>): map<K, V> {
    if d == [] then map[] else AsMap(d[..|d| - 1])[d[|d| - 1].0 := d[|d| - 1].1]
  }

  function IndexOf<K(==), V>(d: seq<(K, V)>, k: K): (r: Option<nat>)
    ensures r.Some? ==> r.value < |d| && d[r.value].0 == k
    ensures r.None? ==> forall i :: 0 <= i < |d| ==> d[i].0 != k
  {
    if d == [] then None
    else if d[|d| - 1].0 == k then Some(|d| - 1)
    else IndexOf(d[..|d| - 1], k)
  }

  /** d[k] = v: an existing key keeps its place. */
  function Put<K(==), V>(d: seq<(K, V)>, k: K, v: V): (r: seq<(K, V)>)
    requires Unique(d)
    ensures Unique(r)
  {
    var i := IndexOf(d, k);
    if i.Some? then d[i.value := (k, v)] else d + [(k, v)]
  }

  /** d.pop(k, None) without its result. */
  function Remove<K(==), V>(d: seq<(K, V)>, k: K): (r: seq<(K, V)>)
    requires Unique(d)
    ensures Unique(r)
  {
    var i := IndexOf(d, k);
    if i.None? then d else d[..i.value] + d[i.value + 1..]
  }

  lemma {:induction false} AsMapIs<K, V>(d: seq<(K, V)>)
    requires Unique(d)
    ensures forall i :: 0 <= i < |d| ==> d[i].0 in AsMap(d) && AsMap(d)[d[i].0] == d[i].1
    ensures forall k :: k in AsMap(d) ==> exists i :: 0 <= i < |d| && d[i].0 == k
  {
    if d != [] {
      var n := |d| - 1;
      AsMapIs(d[..n]);
      forall k | k in AsMap(d)
        ensures exists i :: 0 <= i < |d| && d[i].0 == k
      {
        if k == d[n].0 {
          assert d[n].0 == k;
        } else {
          var i :| 0 <= i < n && d[..n][i].0 == k;
          assert d[i].0 == k;
        }
      }
      forall i | 0 <= i < |d|
        ensures d[i].0 in AsMap(d) && AsMap(d)[d[i].0] == d[i].1
      {
        if i < n {
          assert d[..n][i] == d[i];
        }
      }
    }
  }

  lemma SameMap<K, V>(d: seq<(K, V)>, m: map<K, V>)
    requires Unique(d)
    requires forall i :: 0 <= i < |d| ==> d[i].0 in m && m[d[i].0] == d[i].1
    requires forall k :: k in m ==> exists i :: 0 <= i < |d| && d[i].0 == k
    ensures AsMap(d) == m
  {
    AsMapIs(d);
    assert forall k :: k in m <==> k in AsMap(d);
  }

  lemma InDict<K, V>(d: seq<(K, V)>, k: K)
    requires Unique(d)
    ensures IndexOf(d, k).Some? <==> k in AsMap(d)
    ensures IndexOf(d, k).Some? ==> AsMap(d)[k] == d[IndexOf(d, k).value].1
  {
    AsMapIs(d);
  }

  lemma PutIsUpdate<K, V>(d: seq<(K, V)>, k: K, v: V)
    requires Unique(d)
    ensures AsMap(Put(d, k, v)) == AsMap(d)[k := v]
  {
    AsMapIs(d);
    var m, r := AsMap(d)[k := v], Put(d, k, v);
    forall x | x in m
      ensures exists i :: 0 <= i < |r| && r[i].0 == x
    {
      if x == k {
        assert r[if IndexOf(d, k).Some? then IndexOf(d, k).value else |d|].0 == k;
      } else {
        var i :| 0 <= i < |d| && d[i].0 == x;
        assert r[i] == d[i];
      }
    }
    SameMap(r, m);
  }

  lemma RemoveIsMinus<K, V>(d: seq<(K, V)>, k: K)
    requires Unique(d)
    ensures AsMap(Remove(d, k)) == AsMap(d) - {k}
  {
    AsMapIs(d);
    RemoveKeeps(d, k);
    SameMap(Remove(d, k), AsMap(d) - {k});
  }

  lemma {:induction false} RemoveKeeps<K, V>(d: seq<(K, V)>, k: K)
    requires Unique(d)
    ensures forall i :: 0 <= i < |Remove(d, k)| ==> Remove(d, k)[i] in d && Remove(d, k)[i].0 != k
    ensures forall i :: 0 <= i < |d| && d[i].0 != k ==> d[i] in Remove(d, k)
  {
    var r, at := Remove(d, k), IndexOf(d, k);
    forall i | 0 <= i < |d| && d[i].0 != k
      ensures d[i] in r
    {
      assert r[if at.None? || i < at.value then i else i - 1] == d[i];
    }
    forall i | 0 <= i < |r|
      ensures r[i] in d && r[i].0 != k
    {
      assert r[i] == d[if at.None? || i < at.value then i else i + 1];
    }
  }
}

/** The recording tap's matching of mic periods with AFE records (controller/em_afe.py, `AfeTrack`),
    first without capacity and expiry: periods and records meet in either order. */
module Matching {
  import opened Basics
  import opened OrderedDicts

  /** (subscription, capture period). */
  type Key = (int, int)

  /** A native AFE record: its first capture sample and its contents. */
  datatype Record = Record(start: int, body: int)

  datatype Event = Take(key: Key) | Arrive(key: Key, record: Record)

  datatype Match = Match(periods: seq<Option<Record>>, waiting: map<Key, nat>, early: map<Key, Record>)

  function TakePeriod(m: Match, key: Key): Match {
    if key in m.early then Match(m.periods + [Some(m.early[key])], m.waiting, m.early - {key})
    else Match(m.periods + [None], m.waiting[key := |m.periods|], m.early)
  }

  function ArriveRecord(m: Match, key: Key, r: Record): Match {
    if key in m.waiting then
      Match(if m.waiting[key] < |m.periods| then m.periods[m.waiting[key] := Some(r)] else m.periods,
        m.waiting - {key}, m.early)
    else m.(early := m.early[key := r])
  }

  function Step(m: Match, e: Event): Match {
    match e case Take(key) => TakePeriod(m, key) case Arrive(key, r) => ArriveRecord(m, key, r)
  }

  function Play(es: seq<Event>): Match {
    if es == [] then Match([], map[], map[]) else Step(Play(es[..|es| - 1]), es[|es| - 1])
  }

  /** The keys of the periods taken, in order, and the records that came. */
  function Taken(es: seq<Event>): seq<Key> {
    if es == [] then []
    else Taken(es[..|es| - 1]) + if es[|es| - 1].Take? then [es[|es| - 1].key] else []
  }

  function Arrived(es: seq<Event>): map<Key, Record> {
    if es == [] then map[]
    else
      var m := Arrived(es[..|es| - 1]);
      if es[|es| - 1].Arrive? then m[es[|es| - 1].key := es[|es| - 1].record] else m
  }

  predicate Distinct(keys: seq<Key>) {
    forall i, j :: 0 <= i < j < |keys| ==> keys[i] != keys[j]
  }

  /** "each new to it": no subscription delivers two records of one period. */
  predicate NewRecords(es: seq<Event>) {
    forall i, j :: 0 <= i < j < |es| && es[i].Arrive? && es[j].Arrive? ==> es[i].key != es[j].key
  }

  /** What the matching must come to, whatever the order: each period has its key's record or none,
      the periods still waiting are those without one, and the early records those without a period. */
  ghost predicate Settled(m: Match, keys: seq<Key>, records: map<Key, Record>) {
    && |m.periods| == |keys|
    && (forall j :: 0 <= j < |keys| ==> m.periods[j] == Get(records, keys[j]))
    && (forall k :: k in m.waiting <==> k in keys && k !in records)
    && (forall k :: k in m.waiting ==> m.waiting[k] < |keys| && keys[m.waiting[k]] == k)
    && (forall k :: k in m.early <==> k in records && k !in keys)
    && (forall k :: k in m.early ==> m.early[k] == records[k])
  }

  lemma TakeSettles(m: Match, key: Key, keys: seq<Key>, records: map<Key, Record>)
    requires Settled(m, keys, records) && key !in keys
    ensures Settled(TakePeriod(m, key), keys + [key], records)
  {
    var m', keys' := TakePeriod(m, key), keys + [key];
    assert forall k :: k in keys' <==> k in keys || k == key;
    assert forall j :: 0 <= j < |keys| ==> keys'[j] == keys[j] && m'.periods[j] == m.periods[j];
  }

  lemma ArriveSettles(m: Match, key: Key, r: Record, keys: seq<Key>, records: map<Key, Record>)
    requires Settled(m, keys, records) && Distinct(keys) && key !in records
    ensures Settled(ArriveRecord(m, key, r), keys, records[key := r])
  {
    if key in m.waiting {
      GiveSettles(m, key, r, keys, records);
    } else {
      assert key !in keys;
    }
  }

  lemma GiveSettles(m: Match, key: Key, r: Record, keys: seq<Key>, records: map<Key, Record>)
    requires Settled(m, keys, records) && Distinct(keys) && key !in records && key in m.waiting
    ensures Settled(ArriveRecord(m, key, r), keys, records[key := r])
  {
    assert forall j :: 0 <= j < |keys| && j != m.waiting[key] ==> keys[j] != key;
    assert key in keys;
  }

  lemma StepSettles(m: Match, e: Event, keys: seq<Key>, records: map<Key, Record>)
    requires Settled(m, keys, records) && Distinct(keys)
    requires e.Take? ==> e.key !in keys
    requires e.Arrive? ==> e.key !in records
    ensures e.Take? ==> Settled(Step(m, e), keys + [e.key], records)
    ensures e.Arrive? ==> Settled(Step(m, e), keys, records[e.key := e.record])
  {
    match e
    case Take(key) => TakeSettles(m, key, keys, records);
    case Arrive(key, r) => ArriveSettles(m, key, r, keys, records);
  }

  lemma {:induction false} ArrivedIs(es: seq<Event>)
    ensures forall k :: k in Arrived(es) <==> exists i :: 0 <= i < |es| && es[i].Arrive? && es[i].key == k
  {
    if es != [] {
      var n := |es| - 1;
      ArrivedIs(es[..n]);
      forall k | k in Arrived(es)
        ensures exists i :: 0 <= i < |es| && es[i].Arrive? && es[i].key == k
      {
        if k in Arrived(es[..n]) {
          var i :| 0 <= i < n && es[..n][i].Arrive? && es[..n][i].key == k;
          assert es[i].Arrive? && es[i].key == k;
        }
      }
      forall k | exists i :: 0 <= i < |es| && es[i].Arrive? && es[i].key == k
        ensures k in Arrived(es)
      {
        var i :| 0 <= i < |es| && es[i].Arrive? && es[i].key == k;
        if i < n {
          assert es[..n][i].Arrive? && es[..n][i].key == k;
        }
      }
    }
  }

  lemma {:induction false} PlaySettles(es: seq<Event>)
    requires Distinct(Taken(es)) && NewRecords(es)
    ensures Settled(Play(es), Taken(es), Arrived(es))
  {
    if es != [] {
      var front, e := es[..|es| - 1], es[|es| - 1];
      assert Taken(front) == Taken(es)[..|Taken(front)|];
      PlaySettles(front);
      ArrivedIs(front);
      if e.Take? {
        assert Taken(es)[|Taken(front)|] == e.key;
      }
      StepSettles(Play(front), e, Taken(front), Arrived(front));
    }
  }

  /** Order independence: blocks and records may interleave in any way. */
  lemma OrderIndependent(es: seq<Event>, es': seq<Event>)
    requires Distinct(Taken(es)) && NewRecords(es) && NewRecords(es')
    requires Taken(es) == Taken(es') && Arrived(es) == Arrived(es')
    ensures Play(es) == Play(es')
  {
    PlaySettles(es);
    PlaySettles(es');
    SettledIsUnique(Play(es), Play(es'), Taken(es), Arrived(es));
  }

  lemma SettledIsUnique(m: Match, m': Match, keys: seq<Key>, records: map<Key, Record>)
    requires Settled(m, keys, records) && Settled(m', keys, records) && Distinct(keys)
    ensures m == m'
  {
    assert m.periods == m'.periods;
    assert m.early == m'.early;
    forall k | k in m.waiting
      ensures k in m'.waiting && m.waiting[k] == m'.waiting[k]
    {
      assert keys[m.waiting[k]] == keys[m'.waiting[k]];
    }
    assert m.waiting == m'.waiting;
  }

  // ---- and only then: two periods with one key are told apart by the order ----

  function Takes(keys: seq<Key>): seq<Event> {
    seq(|keys|, i requires 0 <= i < |keys| => Take(keys[i]))
  }

  lemma TakesSnoc(keys: seq<Key>)
    requires keys != []
    ensures Takes(keys)[..|keys| - 1] == Takes(keys[..|keys| - 1])
  {
  }

  lemma {:induction false} RecordLast(keys: seq<Key>)
    ensures Taken(Takes(keys)) == keys && Arrived(Takes(keys)) == map[]
    ensures var m := Play(Takes(keys));
      && |m.periods| == |keys| && (forall i :: 0 <= i < |keys| ==> m.periods[i] == None)
      && m.early == map[] && (forall k :: k in m.waiting <==> k in keys)
      && forall i :: 0 <= i < |keys| ==> i <= m.waiting[keys[i]] < |keys|
  {
    if keys != [] {
      TakesSnoc(keys);
      RecordLast(keys[..|keys| - 1]);
      assert keys == keys[..|keys| - 1] + [keys[|keys| - 1]];
    }
  }

  lemma {:induction false} RecordFirst(k: Key, r: Record, keys: seq<Key>, i: nat)
    requires i < |keys| && keys[i] == k && forall j :: 0 <= j < i ==> keys[j] != k
    ensures Taken([Arrive(k, r)] + Takes(keys)) == keys && Arrived([Arrive(k, r)] + Takes(keys)) == map[k := r]
    ensures var m := Play([Arrive(k, r)] + Takes(keys)); |m.periods| == |keys| && m.periods[i] == Some(r)
  {
    var p := RecordFirstUpTo(k, r, keys, |keys|);
    assert keys[..|keys|] == keys;
  }

  /** n periods taken after the record: the first of its key has it. */
  ghost predicate GaveFirst(m: Match, k: Key, r: Record, keys: seq<Key>, n: nat)
    requires n <= |keys|
  {
    && |m.periods| == n && (k !in keys[..n] ==> m.early == map[k := r])
    && forall i :: 0 <= i < n && keys[i] == k && k !in keys[..i] ==> m.periods[i] == Some(r) && m.early == map[]
  }

  lemma GiveStep(m: Match, k: Key, r: Record, keys: seq<Key>, n: nat)
    requires n < |keys| && GaveFirst(m, k, r, keys, n)
    ensures GaveFirst(TakePeriod(m, keys[n]), k, r, keys, n + 1)
  {
    assert keys[..n + 1] == keys[..n] + [keys[n]];
    if k in keys[..n] {
      var i := FirstOf(keys, k);
      assert k !in keys[..i] && i < n && m.early == map[];
    }
  }

  /** The record comes first: the first period of its key gets it. */
  lemma {:induction false} RecordFirstUpTo(k: Key, r: Record, keys: seq<Key>, n: nat) returns (m: Match)
    requires n <= |keys|
    ensures var es := [Arrive(k, r)] + Takes(keys[..n]);
      m == Play(es) && Taken(es) == keys[..n] && Arrived(es) == map[k := r]
    ensures GaveFirst(m, k, r, keys, n)
  {
    var es := [Arrive(k, r)] + Takes(keys[..n]);
    if n == 0 {
      assert es == [Arrive(k, r)] && es[..0] == [];
      assert Play(es[..0]) == Match([], map[], map[]);
      m := Play(es);
    } else {
      var was := RecordFirstUpTo(k, r, keys, n - 1);
      assert keys[..n][..n - 1] == keys[..n - 1];
      TakesSnoc(keys[..n]);
      assert es[..|es| - 1] == [Arrive(k, r)] + Takes(keys[..n - 1]);
      assert es[|es| - 1] == Take(keys[n - 1]);
      assert keys[..n] == keys[..n - 1] + [keys[n - 1]];
      GiveStep(was, k, r, keys, n - 1);
      m := TakePeriod(was, keys[n - 1]);
    }
  }

  /** The exact condition: whatever interleaving the same periods and records come in, they match
      the same way if and only if no two of the periods share a key. */
  lemma OrderIndependentIff(keys: seq<Key>)
    ensures Distinct(keys) <==>
      forall es, es' :: Taken(es) == keys && Taken(es') == keys && NewRecords(es) && NewRecords(es') && Arrived(es) == Arrived(es')
        ==> Play(es).periods == Play(es').periods
  {
    if Distinct(keys) {
      forall es, es' | Taken(es) == keys && Taken(es') == keys && NewRecords(es) && NewRecords(es') && Arrived(es) == Arrived(es')
        ensures Play(es).periods == Play(es').periods
      {
        OrderIndependent(es, es');
      }
    } else {
      var es, es' := SharedKeyOrders(keys);
    }
  }

  lemma SharedKeyOrders(keys: seq<Key>) returns (es: seq<Event>, es': seq<Event>)
    requires !Distinct(keys)
    ensures Taken(es) == keys && Taken(es') == keys && NewRecords(es) && NewRecords(es') && Arrived(es) == Arrived(es')
    ensures Play(es).periods != Play(es').periods
  {
    var i, j :| 0 <= i < j < |keys| && keys[i] == keys[j];
    var k, r := keys[i], Record(0, 0);
    var first := FirstOf(keys, k);
    es, es' := [Arrive(k, r)] + Takes(keys), Takes(keys) + [Arrive(k, r)];
    RecordFirst(k, r, keys, first);
    RecordAfter(keys, k, r, first, j);
  }

  /** The record comes last: the last period of its key gets it, and no earlier one. */
  lemma RecordAfter(keys: seq<Key>, k: Key, r: Record, first: nat, j: nat)
    requires first < j < |keys| && keys[j] == k
    ensures var es := Takes(keys) + [Arrive(k, r)];
      Taken(es) == keys && Arrived(es) == map[k := r] && |Play(es).periods| == |keys| && Play(es).periods[first] == None
  {
    var es := Takes(keys) + [Arrive(k, r)];
    RecordLast(keys);
    assert es[..|es| - 1] == Takes(keys) && es[|es| - 1] == Arrive(k, r);
    var m := Play(Takes(keys));
    assert k in m.waiting && j <= m.waiting[keys[j]] < |keys|;
    assert Play(es) == ArriveRecord(m, k, r);
  }

  lemma FirstOf(keys: seq<Key>, k: Key) returns (first: nat)
    requires k in keys
    ensures first < |keys| && keys[first] == k && k !in keys[..first]
    ensures forall i :: 0 <= i < |keys| && keys[i] == k ==> first <= i
  {
    first := 0;
    while keys[first] != k
      invariant first < |keys| && k !in keys[..first]
      decreases |keys| - first
    {
      assert keys[..first + 1] == keys[..first] + [keys[first]];
      first := first + 1;
    }
  }
}
