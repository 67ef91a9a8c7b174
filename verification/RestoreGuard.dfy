/** The restore guard and the cap, on one push: what becomes live. */
module RestoreGuard {
  import opened Basics
  import opened JournalSpec

  const MAX_OCCURRENCES: nat := 4096

  /** A pushed occurrence: its identity, when it is due, and how to delete it. */
  datatype Alarm = Alarm(oid: int, due: int, uid: nat, rid: Option<int>, sid: int, key: int)

  datatype Delete = Delete(uid: nat, rid: Option<int>)

  predicate CancelledBy(terminal: seq<Row>, sid: int) {
    exists i :: 0 <= i < |terminal| && terminal[i].action.Cancel? && terminal[i].sid == sid
  }

  predicate HandledBy(terminal: seq<Row>, sid: int, key: int) {
    exists i :: 0 <= i < |terminal| && Handles(terminal[i], sid, key)
  }

  function Kept(terminal: seq<Row>, alarms: seq<Alarm>): seq<Alarm> {
    if alarms == [] then []
    else
      var kept, a := Kept(terminal, alarms[..|alarms| - 1]), alarms[|alarms| - 1];
      if HandledBy(terminal, a.sid, a.key) then kept else kept + [a]
  }

  lemma {:induction false} KeptAreUnhandled(terminal: seq<Row>, alarms: seq<Alarm>)
    ensures forall a :: a in Kept(terminal, alarms) <==> a in alarms && !HandledBy(terminal, a.sid, a.key)
  {
    if alarms != [] {
      var n := |alarms| - 1;
      KeptAreUnhandled(terminal, alarms[..n]);
      assert alarms == alarms[..n] + [alarms[n]];
    }
  }

  /** The deletion that takes a handled alarm out again: all of a cancelled schedule's event. */
  function Redelete(terminal: seq<Row>, a: Alarm): Delete {
    Delete(a.uid, if CancelledBy(terminal, a.sid) then None else a.rid)
  }

  // ---- the order alarms are due in ----

  predicate Before(a: Alarm, b: Alarm) { a.due < b.due || (a.due == b.due && a.oid <= b.oid) }

  predicate Ascending(s: seq<Alarm>) { forall i, j :: 0 <= i < j < |s| ==> Before(s[i], s[j]) }

  function Inserted(s: seq<Alarm>, a: Alarm): seq<Alarm> {
    if s == [] || Before(s[|s| - 1], a) then s + [a] else Inserted(s[..|s| - 1], a) + [s[|s| - 1]]
  }

  function Sorted(s: seq<Alarm>): seq<Alarm> {
    if s == [] then [] else Inserted(Sorted(s[..|s| - 1]), s[|s| - 1])
  }

  lemma {:induction false} InsertedKeeps(s: seq<Alarm>, a: Alarm)
    requires Ascending(s)
    ensures Ascending(Inserted(s, a)) && multiset(Inserted(s, a)) == multiset(s) + multiset{a}
  {
    if s != [] && !Before(s[|s| - 1], a) {
      var n := |s| - 1;
      InsertedKeeps(s[..n], a);
      var t := Inserted(s[..n], a);
      assert s == s[..n] + [s[n]];
      forall i | 0 <= i < |t|
        ensures Before(t[i], s[n])
      {
        assert t[i] in multiset(t);
        assert t[i] == a || t[i] in multiset(s[..n]);
      }
    }
  }

  lemma {:induction false} SortedIsSorted(s: seq<Alarm>)
    ensures Ascending(Sorted(s)) && multiset(Sorted(s)) == multiset(s)
  {
    if s != [] {
      SortedIsSorted(s[..|s| - 1]);
      InsertedKeeps(Sorted(s[..|s| - 1]), s[|s| - 1]);
      assert s == s[..|s| - 1] + [s[|s| - 1]];
    }
  }

  function Capped(s: seq<Alarm>): seq<Alarm> { if |s| <= MAX_OCCURRENCES then s else s[..MAX_OCCURRENCES] }

  function LiveOf(terminal: seq<Row>, pushed: seq<Alarm>): seq<Alarm> { Capped(Sorted(Kept(terminal, pushed))) }

  lemma CappedIsEarliest(all: seq<Alarm>)
    requires Ascending(all)
    ensures Ascending(Capped(all)) && multiset(Capped(all)) <= multiset(all)
    ensures forall a, b :: a in Capped(all) && b in multiset(all) - multiset(Capped(all)) ==> Before(a, b)
  {
    var live := Capped(all);
    var rest := all[|live|..];
    assert all == live + rest;
    assert multiset(all) - multiset(live) == multiset(rest);
    forall a, b | a in live && b in multiset(rest)
      ensures Before(a, b)
    {
      var i :| 0 <= i < |live| && live[i] == a;
      var j :| 0 <= j < |rest| && rest[j] == b;
      assert all[i] == a && all[|live| + j] == b;
    }
  }

  /** What becomes live is the earliest of what is pushed and not yet dealt with: nothing handled, nothing
      that is not pushed, each as often as it is pushed, and nothing due before it left out. */
  lemma LiveIsEarliest(terminal: seq<Row>, pushed: seq<Alarm>)
    ensures var live, kept := LiveOf(terminal, pushed), Kept(terminal, pushed);
      && Ascending(live) && multiset(live) <= multiset(kept)
      && |live| == (if |kept| <= MAX_OCCURRENCES then |kept| else MAX_OCCURRENCES)
      && forall a, b :: a in live && b in multiset(kept) - multiset(live) ==> Before(a, b)
  {
    var kept := Kept(terminal, pushed);
    SortedIsSorted(kept);
    assert |Sorted(kept)| == |multiset(Sorted(kept))| == |multiset(kept)| == |kept|;
    CappedIsEarliest(Sorted(kept));
  }

  lemma LiveIsUnhandled(terminal: seq<Row>, pushed: seq<Alarm>, a: Alarm)
    requires a in LiveOf(terminal, pushed)
    ensures a in pushed && !HandledBy(terminal, a.sid, a.key)
  {
    LiveIsEarliest(terminal, pushed);
    KeptAreUnhandled(terminal, pushed);
    assert a in multiset(LiveOf(terminal, pushed));
    assert a in multiset(Kept(terminal, pushed));
  }

  /** Below the cap nothing that is pushed and unhandled is left out. */
  lemma UnhandledIsLive(terminal: seq<Row>, pushed: seq<Alarm>, a: Alarm)
    requires |Kept(terminal, pushed)| <= MAX_OCCURRENCES && a in pushed && !HandledBy(terminal, a.sid, a.key)
    ensures a in LiveOf(terminal, pushed)
  {
    var kept := Kept(terminal, pushed);
    assert a in kept by {
      KeptAreUnhandled(terminal, pushed);
    }
    SortedHas(kept, a);
  }

  lemma SortedHas(s: seq<Alarm>, a: Alarm)
    requires a in s
    ensures a in Sorted(s) && |Sorted(s)| == |s|
  {
    SortedIsSorted(s);
    assert |Sorted(s)| == |multiset(Sorted(s))| == |multiset(s)| == |s|;
    assert a in multiset(s);
    assert a in multiset(Sorted(s));
  }
}

/** The journal's table and an endpoint's view of its calendar (controller/em_alerts.py, `_Journal` and
    `_Endpoint`). */
module AlertJournals {
  import opened Basics
  import opened JournalSpec
  import opened RestoreGuard

  /** A stored row: `digest` is of the request that made it. */
  datatype Stored = Stored(row: Row, digest: int, state: State, step: nat)

  datatype JournalError = OpConflict(op: int)

  function Terminals(table: seq<Stored>): seq<Row> {
    if table == [] then []
    else
      var before, last := Terminals(table[..|table| - 1]), table[|table| - 1];
      if last.state.Applied? && !last.row.action.Create? then before + [last.row] else before
  }

  lemma {:induction false} TerminalsAreApplied(table: seq<Stored>)
    ensures forall r :: r in Terminals(table) <==> exists i :: 0 <= i < |table| && table[i].row == r && table[i].state.Applied? && !r.action.Create?
  {
    if table != [] {
      var n := |table| - 1;
      TerminalsAreApplied(table[..n]);
      assert forall i :: 0 <= i < n ==> table[..n][i] == table[i];
    }
  }

  /** The first pending row in seq order, or none. */
  predicate FirstPending(table: seq<Stored>, at: Option<nat>) {
    match at
    case Some(k) => k < |table| && table[k].state.Pending? && forall i :: 0 <= i < k ==> !table[i].state.Pending?
    case None => forall i :: 0 <= i < |table| ==> !table[i].state.Pending?
  }

  function RowsOf(table: seq<Stored>): seq<Row> { seq(|table|, i requires 0 <= i < |table| => table[i].row) }

  function StatesOf(table: seq<Stored>): seq<State> { seq(|table|, i requires 0 <= i < |table| => table[i].state) }

  /** The guard's query says exactly which occurrences an applied row has dealt with. */
  lemma GuardIsHandled(table: seq<Stored>, sid: int, key: int)
    ensures HandledBy(Terminals(table), sid, key) <==> Handled(RowsOf(table), StatesOf(table), sid, key)
  {
    var terminal := Terminals(table);
    TerminalsAreApplied(table);
    if HandledBy(terminal, sid, key) {
      var i :| 0 <= i < |terminal| && Handles(terminal[i], sid, key);
      assert terminal[i] in terminal;
      var j :| 0 <= j < |table| && table[j].row == terminal[i] && table[j].state.Applied?;
      assert RowsOf(table)[j] == terminal[i] && StatesOf(table)[j].Applied?;
    }
    if Handled(RowsOf(table), StatesOf(table), sid, key) {
      var j :| 0 <= j < |table| && StatesOf(table)[j].Applied? && Handles(RowsOf(table)[j], sid, key);
      assert table[j].row in terminal;
      var i :| 0 <= i < |terminal| && terminal[i] == table[j].row;
    }
  }

  predicate Distinct(table: seq<Stored>) {
    forall i, j :: 0 <= i < j < |table| ==> table[i].row.op != table[j].row.op
  }

  /** `alert_ops` of one endpoint, in seq order. */
  class Journal {
    var table: seq<Stored>

    ghost predicate Valid()
      reads this
    {
      Distinct(table)
    }

    constructor ()
      ensures Valid() && table == []
    {
      table := [];
    }

    method Find(op: int) returns (at: Option<nat>)
      ensures at.Some? ==> at.value < |table| && table[at.value].row.op == op
      ensures at.None? ==> forall i :: 0 <= i < |table| ==> table[i].row.op != op
    {
      var i := 0;
      while i < |table|
        invariant i <= |table| && forall j :: 0 <= j < i ==> table[j].row.op != op
      {
        if table[i].row.op == op {
          return Some(i);
        }
        i := i + 1;
      }
      return None;
    }

    /** An operation is journaled once: the same request again finds its row, whatever became of it, and
        another request under its name is a conflict that changes nothing. */
    method Insert(row: Row, digest: int) returns (r: Result<Stored, JournalError>)
      requires Valid()
      modifies this
      ensures Valid()
      ensures (forall i :: 0 <= i < |old(table)| ==> old(table)[i].row.op != row.op) ==>
        table == old(table) + [Stored(row, digest, Pending, 0)] && r == Ok(Stored(row, digest, Pending, 0))
      ensures forall i :: 0 <= i < |old(table)| && old(table)[i].row.op == row.op ==>
        table == old(table) && r == if old(table)[i].digest == digest then Ok(old(table)[i]) else Err(OpConflict(row.op))
    {
      var at := Find(row.op);
      if at.Some? {
        if table[at.value].digest != digest {
          return Err(OpConflict(row.op));
        }
        return Ok(table[at.value]);
      }
      table := table + [Stored(row, digest, Pending, 0)];
      return Ok(Stored(row, digest, Pending, 0));
    }

    method Advance(op: int, step: nat)
      requires Valid()
      modifies this
      ensures Valid() && |table| == |old(table)|
      ensures forall i :: 0 <= i < |table| ==> table[i] == if old(table)[i].row.op == op then old(table)[i].(step := step) else old(table)[i]
    {
      var at := Find(op);
      if at.Some? {
        table := table[at.value := table[at.value].(step := step)];
      }
    }

    method Finish(op: int, applied: bool)
      requires Valid()
      modifies this
      ensures Valid() && |table| == |old(table)|
      ensures forall i :: 0 <= i < |table| ==>
        table[i] == if old(table)[i].row.op == op then old(table)[i].(state := if applied then Applied else Rejected) else old(table)[i]
    {
      var at := Find(op);
      if at.Some? {
        table := table[at.value := table[at.value].(state := if applied then Applied else Rejected)];
      }
    }

    /** The worker's next row. */
    method NextPending() returns (at: Option<nat>)
      ensures FirstPending(table, at)
    {
      var i := 0;
      while i < |table|
        invariant i <= |table| && forall j :: 0 <= j < i ==> !table[j].state.Pending?
      {
        if table[i].state.Pending? {
          return Some(i);
        }
        i := i + 1;
      }
      return None;
    }

    method Terminal() returns (rows: seq<Row>)
      ensures rows == Terminals(table)
    {
      rows := [];
      var i := 0;
      while i < |table|
        invariant i <= |table| && rows == Terminals(table[..i])
      {
        assert table[..i + 1][..i] == table[..i];
        if table[i].state.Applied? && !table[i].row.action.Create? {
          rows := rows + [table[i].row];
        }
        i := i + 1;
      }
      assert table[..|table|] == table;
    }
  }

  /** What an endpoint has of its calendar. */
  class AlarmCalendar {
    const journal: Journal
    var token: int
    var upToDate: bool
    var materialized: bool
    var pushed: seq<Alarm>
    var live: seq<Alarm>

    constructor (journal: Journal)
      ensures this.journal == journal && !upToDate && !materialized && pushed == [] && live == []
    {
      this.journal := journal;
      token, upToDate, materialized, pushed, live := 0, false, false, [], [];
    }

    /** `_subscribe` up to its first await: nothing is up to date until the new subscription's first push. */
    method Subscribe(newToken: int)
      modifies this
      ensures token == newToken && !upToDate && materialized == old(materialized) && pushed == old(pushed) && live == old(live)
    {
      token, upToDate := newToken, false;
    }

    /** `_guard`: what is left after the applied rows, and the deletions to redo, each once. */
    method Guard(occurrences: seq<Alarm>) returns (keep: seq<Alarm>, deletes: seq<Delete>)
      ensures keep == Kept(Terminals(journal.table), occurrences)
      ensures Redeleted(Terminals(journal.table), occurrences, deletes) && Once(deletes)
    {
      var rows := journal.Terminal();
      keep, deletes := [], [];
      var i := 0;
      while i < |occurrences|
        invariant i <= |occurrences| && keep == Kept(rows, occurrences[..i])
        invariant deletes == Redeletes(rows, occurrences[..i])
      {
        var occ := occurrences[i];
        assert occurrences[..i + 1][..i] == occurrences[..i];
        if CancelledBy(rows, occ.sid) {
          CancelHandles(rows, occ.sid, occ.key);
          if Delete(occ.uid, None) !in deletes {
            deletes := deletes + [Delete(occ.uid, None)];
          }
        } else if HandledBy(rows, occ.sid, occ.key) {
          if Delete(occ.uid, occ.rid) !in deletes {
            deletes := deletes + [Delete(occ.uid, occ.rid)];
          }
        } else {
          keep := keep + [occ];
        }
        i := i + 1;
      }
      assert occurrences[..|occurrences|] == occurrences;
      RedeletesAre(rows, occurrences);
    }

    /** `_on_push`: a push of the current subscription replaces what is live; a stale one changes nothing. */
    method OnPush(pushToken: int, events: seq<Alarm>) returns (deletes: seq<Delete>)
      modifies this
      ensures pushToken != old(token) ==>
        token == old(token) && upToDate == old(upToDate) && materialized == old(materialized) && pushed == old(pushed) && live == old(live) && deletes == []
      ensures pushToken == old(token) ==>
        && token == old(token) && upToDate && materialized && pushed == events
        && live == LiveOf(Terminals(journal.table), events)
        && Redeleted(Terminals(journal.table), events, deletes) && Once(deletes)
    {
      if pushToken != token {
        return [];
      }
      pushed := events;
      var keep, again := Guard(events);
      deletes := again;
      live := Capped(Sorted(keep));
      upToDate, materialized := true, true;
    }
  }

  /** Exactly the handled occurrences' deletions. */
  ghost predicate Redeleted(rows: seq<Row>, occurrences: seq<Alarm>, deletes: seq<Delete>) {
    && (forall a :: a in occurrences && HandledBy(rows, a.sid, a.key) ==> Redelete(rows, a) in deletes)
    && (forall d :: d in deletes ==> exists a :: a in occurrences && HandledBy(rows, a.sid, a.key) && d == Redelete(rows, a))
  }

  predicate Once(deletes: seq<Delete>) { forall i, j :: 0 <= i < j < |deletes| ==> deletes[i] != deletes[j] }

  function Redeletes(rows: seq<Row>, occurrences: seq<Alarm>): seq<Delete> {
    if occurrences == [] then []
    else
      var before, occ := Redeletes(rows, occurrences[..|occurrences| - 1]), occurrences[|occurrences| - 1];
      if HandledBy(rows, occ.sid, occ.key) && Redelete(rows, occ) !in before then before + [Redelete(rows, occ)] else before
  }

  lemma {:induction false} RedeletesAre(rows: seq<Row>, occurrences: seq<Alarm>)
    ensures Redeleted(rows, occurrences, Redeletes(rows, occurrences)) && Once(Redeletes(rows, occurrences))
  {
    if occurrences != [] {
      var n := |occurrences| - 1;
      var before := Redeletes(rows, occurrences[..n]);
      RedeletesAre(rows, occurrences[..n]);
      assert occurrences == occurrences[..n] + [occurrences[n]];
      OneRedeleted(rows, occurrences[..n], before, occurrences[n]);
    }
  }

  lemma OneRedeleted(rows: seq<Row>, before: seq<Alarm>, deletes: seq<Delete>, occ: Alarm)
    requires Redeleted(rows, before, deletes)
    ensures HandledBy(rows, occ.sid, occ.key) && Redelete(rows, occ) !in deletes ==>
      Redeleted(rows, before + [occ], deletes + [Redelete(rows, occ)])
    ensures !HandledBy(rows, occ.sid, occ.key) || Redelete(rows, occ) in deletes ==> Redeleted(rows, before + [occ], deletes)
  {
    var all := before + [occ];
    assert forall a :: a in all <==> a in before || a == occ;
  }

  lemma CancelHandles(rows: seq<Row>, sid: int, key: int)
    requires CancelledBy(rows, sid)
    ensures HandledBy(rows, sid, key)
  {
    var i :| 0 <= i < |rows| && rows[i].action.Cancel? && rows[i].sid == sid;
    assert Handles(rows[i], sid, key);
  }

  /** Nothing that an applied operation has dealt with becomes live on a push, or is delivered from it. */
  lemma {:induction false} NothingHandledBecomesLive(table: seq<Stored>, events: seq<Alarm>, a: Alarm, i: nat)
    requires a in LiveOf(Terminals(table), events) && i < |table| && table[i].state.Applied?
    ensures !Handles(table[i].row, a.sid, a.key)
  {
    LiveIsUnhandled(Terminals(table), events, a);
    assert RowsOf(table)[i] == table[i].row && StatesOf(table)[i] == table[i].state;
    GuardIsHandled(table, a.sid, a.key);
  }
}
