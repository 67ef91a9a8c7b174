/** Delivery of an endpoint's alert cache to its device (controller/em_alerts.py, `_deliver` and its
    neighbours), with the device as the protocol's peer. */
module DeliverySpec {
  import opened Basics

  /** An occurrence's identity: its schedule and key (occurrence_id_for is injective in both). */
  datatype Oid = Oid(schedule: int, key: int)

  /** A delivered occurrence: its body and the sequence at which it last changed. */
  datatype Entry = Entry(body: int, revision: nat)

  type Cache = map<Oid, Entry>

  datatype Obj = Put(oid: Oid, entry: Entry) | Tombstone(oid: Oid)

  /** Snapshot pages and deltas of the endpoint's delivery epoch. */
  datatype Message =
    | Page(number: nat, index: nat, count: nat, listed: seq<(Oid, Entry)>)
    | Delta(number: nat, objects: seq<Obj>)

  /** One endpoint's delivery state; `sequence` and `acked` are durable. */
  datatype Controller = Controller(
    sequence: nat, acked: nat, online: bool, materialized: bool, live: map<Oid, int>,
    delivered: Cache, valid: bool, scheduleRev: map<int, nat>)

  // ---- the controller's steps ----

  function Changed(c: Controller): set<Oid> {
    set oid | oid in c.live && (oid !in c.delivered || c.delivered[oid].body != c.live[oid])
  }

  function Removed(c: Controller): set<Oid> { c.delivered.Keys - c.live.Keys }

  function Schedules(oids: set<Oid>): set<int> { set oid | oid in oids :: oid.schedule }

  function Marked(rev: map<int, nat>, schedules: set<int>, n: nat): map<int, nat> {
    rev + map s | s in schedules :: n
  }

  function Fresh(live: map<Oid, int>, oids: set<Oid>, n: nat): Cache {
    map oid | oid in oids && oid in live :: Entry(live[oid], n)
  }

  /** A snapshot's new state: everything live, stamped with the new sequence. The source would keep an
      entry's old revision if the device's view were known, but takes this step only when it is not. */
  function SnapshotState(c: Controller): Controller {
    var n := c.sequence + 1;
    c.(sequence := n, delivered := Fresh(c.live, c.live.Keys, n), valid := true,
      scheduleRev := Marked(c.scheduleRev, Schedules(c.live.Keys + Removed(c)), n))
  }

  /** A delta's new state: the changed and the removed occurrences only. */
  function DeltaState(c: Controller): Controller {
    var n := c.sequence + 1;
    c.(sequence := n, delivered := c.delivered + Fresh(c.live, Changed(c), n) - Removed(c),
      scheduleRev := Marked(c.scheduleRev, Schedules(Changed(c) + Removed(c)), n))
  }

  datatype Plan = Idle | Forget | Snapshot | SendDelta

  /** What one delivery does, under the delivery lock. */
  function PlanOf(c: Controller): Plan {
    if !c.online then (if Changed(c) + Removed(c) != {} then Forget else Idle)
    else if !c.valid then Snapshot
    else if Changed(c) + Removed(c) == {} then Idle
    else SendDelta
  }

  function Delivered(c: Controller): Controller {
    match PlanOf(c)
    case Idle => c
    case Forget => c.(valid := false)
    case Snapshot => SnapshotState(c)
    case SendDelta => DeltaState(c)
  }

  /** session.hello: `ours` says the device's epoch is the endpoint's. */
  function Hello(c: Controller, ours: bool, devAcked: nat): Controller {
    c.(online := true, acked := if ours && devAcked <= c.sequence then devAcked else c.acked,
      valid := c.valid && ours && devAcked == c.sequence)
  }

  datatype Ack = Ack(ours: bool, applied: nat, durable: bool, needSnapshot: bool)

  function OnAck(c: Controller, a: Ack): Controller {
    if a.needSnapshot then c.(valid := false)
    else if a.durable && a.ours && c.acked <= a.applied <= c.sequence then c.(acked := a.applied)
    else c
  }

  /** `_armed`: the device's durable acks cover the last message that changed each schedule. */
  predicate Armed(c: Controller, schedules: set<int>) {
    c.online && c.valid && schedules != {} && forall s :: s in schedules ==> s in c.scheduleRev && c.acked >= c.scheduleRev[s]
  }

  // ---- what the messages say ----

  function ApplyObject(cache: Cache, o: Obj): Cache {
    match o case Put(oid, entry) => cache[oid := entry] case Tombstone(oid) => cache - {oid}
  }

  function ApplyObjects(cache: Cache, os: seq<Obj>): Cache {
    if os == [] then cache else ApplyObject(ApplyObjects(cache, os[..|os| - 1]), os[|os| - 1])
  }

  function Listing(listed: seq<(Oid, Entry)>): Cache {
    if listed == [] then map[] else Listing(listed[..|listed| - 1])[listed[|listed| - 1].0 := listed[|listed| - 1].1]
  }

  function Flat(pages: seq<seq<(Oid, Entry)>>): seq<(Oid, Entry)> {
    if pages == [] then [] else Flat(pages[..|pages| - 1]) + pages[|pages| - 1]
  }

  // ---- the device ----

  datatype Stage = Stage(number: nat, count: nat, next: nat, got: seq<(Oid, Entry)>)

  /** `ours`: the device's store is of the endpoint's epoch. `cache` is what the controller delivered. */
  datatype Device = Device(ours: bool, acked: nat, cache: Cache, stage: Option<Stage>)

  function AckOf(d: Device, need: bool, durable: bool): Ack { Ack(d.ours, d.acked, durable, need) }

  /** A delta applies only right after the acknowledged sequence; `commits` is the store's answer. */
  function TakeDelta(d: Device, n: nat, os: seq<Obj>, commits: bool): (Device, Option<Ack>) {
    if !d.ours || n != d.acked + 1 then (d, Some(AckOf(d, true, true)))
    else if !commits then (d, Some(AckOf(d, true, false)))
    else
      var u := d.(acked := n, cache := ApplyObjects(d.cache, os));
      (u, Some(AckOf(u, false, true)))
  }

  /** Pages stage in order and install together, durably; anything out of order drops the stage. */
  function TakePage(d: Device, n: nat, index: nat, count: nat, listed: seq<(Oid, Entry)>, commits: bool): (Device, Option<Ack>) {
    var st := if index == 0 then Some(Stage(n, count, 0, [])) else d.stage;
    if st.None? || st.value.next != index || st.value.number != n || st.value.count != count then
      (d.(stage := None), Some(AckOf(d, true, true)))
    else
      var got := st.value.got + listed;
      if index + 1 < count then (d.(stage := Some(Stage(n, count, index + 1, got))), None)
      else if !commits then (d.(stage := None), Some(AckOf(d, true, false)))
      else
        var u := Device(true, n, Listing(got), None);
        (u, Some(AckOf(u, false, true)))
  }

  function Take(d: Device, m: Message, commits: bool): (Device, Option<Ack>) {
    match m
    case Delta(n, os) => TakeDelta(d, n, os, commits)
    case Page(n, index, count, listed) => TakePage(d, n, index, count, listed, commits)
  }
}

/** Controller, device and link together: every run of pushes, deliveries, sends, acks, lost links,
    lost messages, failed sends and commits, hellos and controller restarts. */
module DeliveryProtocol {
  import opened Basics
  import opened DeliverySpec

  /** `outbox` holds what a delivery has issued and not yet handed to the session (the delivery lock is
      held meanwhile); `down` and `up` are in flight. History: `log[n]` is what a device that has
      applied message n holds, `pages` the snapshots issued, `erased` the delivered occurrences that a
      tombstone of `_send_objects` took from the device behind `delivered`'s back. */
  datatype World = World(
    c: Controller, d: Device, linked: bool, outbox: seq<Message>, down: seq<Message>, up: seq<Ack>,
    log: seq<Cache>, pages: map<nat, seq<seq<(Oid, Entry)>>>, erased: set<Oid>)

  datatype Event =
    | Push(live: map<Oid, int>)
    | Deliver(snapshot: seq<seq<(Oid, Entry)>>, objects: seq<Obj>)
    | SendTombstones(oids: seq<Oid>)
    | Send
    | SendFails(arrives: bool)
    | OtherSendFails
    | LinkDrops
    | SessionLost
    | SessionHello
    | TakeAck
    | DeviceTakes(commits: bool)
    | DeviceForgetsStage
    | DeviceReset(cache: Cache)
    | Restart

  function Tombstones(oids: seq<Oid>): seq<Obj> {
    seq(|oids|, i requires 0 <= i < |oids| => Tombstone(oids[i]))
  }

  function PageMessages(n: nat, pages: seq<seq<(Oid, Entry)>>): seq<Message> {
    seq(|pages|, i requires 0 <= i < |pages| => Page(n, i, |pages|, pages[i]))
  }

  /** The objects say what a delta must: put what changed, tombstone what is gone. */
  predicate SaysDelta(c: Controller, os: seq<Obj>) {
    var n := c.sequence + 1;
    && (forall i :: 0 <= i < |os| ==> match os[i]
        case Put(oid, entry) => oid in Changed(c) && entry == Entry(c.live[oid], n)
        case Tombstone(oid) => oid in Removed(c))
    && (forall oid :: oid in Changed(c) ==> Put(oid, Entry(c.live[oid], n)) in os)
    && (forall oid :: oid in Removed(c) ==> Tombstone(oid) in os)
  }

  predicate Enabled(w: World, e: Event) {
    match e
    case Deliver(snapshot, objects) =>
      && w.outbox == [] && w.c.materialized
      && (PlanOf(w.c).Snapshot? ==> snapshot != [] && Listing(Flat(snapshot)) == SnapshotState(w.c).delivered)
      && (PlanOf(w.c).SendDelta? ==> SaysDelta(w.c, objects))
    case SendTombstones(oids) => w.outbox == []
    case Send => w.outbox != []
    case SendFails(arrives) => w.outbox != [] && (arrives ==> w.linked)
    case TakeAck => w.up != []
    case DeviceTakes(_) => w.down != []
    case _ => true
  }

  function Next(w: World, e: Event): World
    requires Enabled(w, e)
  {
    match e
    case Push(live) => w.(c := w.c.(live := live, materialized := true))
    case Deliver(snapshot, objects) =>
      var c := Delivered(w.c);
      (match PlanOf(w.c)
       case Idle => w
       case Forget => w.(c := c)
       case Snapshot =>
         w.(c := c, outbox := PageMessages(c.sequence, snapshot), log := w.log + [c.delivered],
           pages := w.pages[c.sequence := snapshot], erased := {})
       case SendDelta =>
         w.(c := c, outbox := [Delta(c.sequence, objects)],
           log := w.log + [ApplyObjects(if w.log == [] then map[] else w.log[|w.log| - 1], objects)],
           erased := w.erased - Changed(w.c) - Removed(w.c)))
    case SendTombstones(oids) =>
      if !w.c.online || !w.c.valid then w
      else
        var n := w.c.sequence + 1;
        w.(c := w.c.(sequence := n), outbox := [Delta(n, Tombstones(oids))],
          log := w.log + [ApplyObjects(if w.log == [] then map[] else w.log[|w.log| - 1], Tombstones(oids))],
          erased := w.erased + (w.c.delivered.Keys * set i | 0 <= i < |oids| :: oids[i]))
    case Send => w.(outbox := w.outbox[1..], down := if w.linked then w.down + [w.outbox[0]] else w.down)
    case SendFails(arrives) =>
      w.(outbox := [], c := w.c.(valid := false), down := if arrives then w.down + [w.outbox[0]] else w.down)
    case OtherSendFails => w.(c := w.c.(valid := false))
    case LinkDrops => w.(linked := false, down := [], up := [])
    case SessionLost => w.(c := w.c.(online := false))
    case SessionHello => w.(linked := true, down := [], up := [], c := Hello(w.c, w.d.ours, w.d.acked))
    case TakeAck => w.(up := w.up[1..], c := OnAck(w.c, w.up[0]))
    case DeviceTakes(commits) =>
      var (d, ack) := Take(w.d, w.down[0], commits);
      w.(d := d, down := w.down[1..], up := if ack.Some? && w.linked then w.up + [ack.value] else w.up)
    case DeviceForgetsStage => w.(d := w.d.(stage := None))
    case DeviceReset(cache) => w.(d := Device(false, 0, cache, None), linked := false, down := [], up := [])
    case Restart =>
      w.(c := Controller(w.c.sequence, w.c.acked, false, false, map[], map[], false, map[]),
        linked := false, outbox := [], down := [], up := [], erased := {})
  }

  /** A new delivery epoch meets a device of another one. */
  predicate Start(w: World) {
    && w.c == Controller(0, 0, false, false, map[], map[], false, map[])
    && !w.d.ours && w.d.stage.None? && w.outbox == [] && w.down == [] && w.up == []
    && w.log == [map[]] && w.pages == map[] && w.erased == {}
  }

  // ---- what every reachable world keeps ----

  function Num(m: Message): nat { m.number }

  /** The log has one content per sequence; `delivered`, less what was erased, is the last one, unless
      the controller has just restarted and knows nothing. */
  ghost predicate ControllerHolds(w: World) {
    && |w.log| == w.c.sequence + 1 && w.c.acked <= w.c.sequence && w.erased <= w.c.delivered.Keys
    && (w.log[w.c.sequence] == w.c.delivered - w.erased ||
        (w.c.delivered == map[] && w.c.scheduleRev == map[] && !w.c.valid))
  }

  /** From a schedule's last revision on, no message has touched its occurrences. */
  ghost predicate RevisionsHold(c: Controller, log: seq<Cache>, erased: set<Oid>) {
    && (forall s :: s in c.scheduleRev ==> c.scheduleRev[s] < |log|)
    && forall n, oid: Oid :: 0 <= n < |log| && oid.schedule in c.scheduleRev && c.scheduleRev[oid.schedule] <= n && oid !in erased ==>
      Get(log[n], oid) == Get(c.delivered, oid)
  }

  ghost predicate DeviceHolds(w: World) {
    && (w.d.ours ==> w.c.acked <= w.d.acked < |w.log| && w.d.cache == w.log[w.d.acked])
    && (w.d.stage.Some? ==> Staged(w.d.stage.value, w.pages))
    && (forall i :: 0 <= i < |w.up| && w.up[i].ours ==> w.d.ours && w.up[i].applied <= w.d.acked)
  }

  ghost predicate Staged(st: Stage, pages: map<nat, seq<seq<(Oid, Entry)>>>) {
    && st.number in pages && st.count == |pages[st.number]| && st.next < st.count
    && st.got == Flat(pages[st.number][..st.next])
  }

  ghost predicate PagesHold(pages: map<nat, seq<seq<(Oid, Entry)>>>, log: seq<Cache>) {
    forall n :: n in pages ==> n < |log| && Listing(Flat(pages[n])) == log[n]
  }

  /** A message says what the log has under its number. */
  ghost predicate Issued(m: Message, pages: map<nat, seq<seq<(Oid, Entry)>>>, log: seq<Cache>) {
    match m
    case Page(n, index, count, listed) => n in pages && count == |pages[n]| && index < count && listed == pages[n][index]
    case Delta(n, os) => 0 < n < |log| && log[n] == ApplyObjects(log[n - 1], os)
  }

  /** What is still to arrive: issued messages in order, none older than what the device has applied. */
  ghost predicate QueueHolds(q: seq<Message>, acked: nat, d: Device, pages: map<nat, seq<seq<(Oid, Entry)>>>, log: seq<Cache>) {
    && (forall i :: 0 <= i < |q| ==> Issued(q[i], pages, log) && acked <= Num(q[i]) < |log| && (d.ours ==> d.acked <= Num(q[i])))
    && (forall i, j :: 0 <= i < j < |q| ==> Num(q[i]) <= Num(q[j]))
  }

  ghost predicate Inv(w: World) {
    && ControllerHolds(w) && RevisionsHold(w.c, w.log, w.erased) && DeviceHolds(w) && PagesHold(w.pages, w.log)
    && QueueHolds(w.down + w.outbox, w.c.acked, w.d, w.pages, w.log)
  }

  // ---- objects and listings ----

  lemma {:induction false} ObjectsApply(cache: Cache, os: seq<Obj>, oid: Oid)
    ensures (forall i :: 0 <= i < |os| ==> os[i].oid != oid) ==> Get(ApplyObjects(cache, os), oid) == Get(cache, oid)
    ensures forall e :: Put(oid, e) in os && (forall i :: 0 <= i < |os| && os[i].oid == oid ==> os[i] == Put(oid, e)) ==>
      Get(ApplyObjects(cache, os), oid) == Some(e)
    ensures Tombstone(oid) in os && (forall i :: 0 <= i < |os| && os[i].oid == oid ==> os[i].Tombstone?) ==>
      Get(ApplyObjects(cache, os), oid) == None
  {
    if forall i :: 0 <= i < |os| ==> os[i].oid != oid {
      OthersApply(cache, os, oid);
    } else {
      LastApplies(cache, os, oid);
    }
  }

  lemma {:induction false} OthersApply(cache: Cache, os: seq<Obj>, oid: Oid)
    requires forall i :: 0 <= i < |os| ==> os[i].oid != oid
    ensures Get(ApplyObjects(cache, os), oid) == Get(cache, oid)
  {
    if os != [] {
      OthersApply(cache, os[..|os| - 1], oid);
    }
  }

  function Left(o: Obj): Option<Entry> { if o.Put? then Some(o.entry) else None }

  lemma {:induction false} LastApplies(cache: Cache, os: seq<Obj>, oid: Oid)
    requires exists i :: 0 <= i < |os| && os[i].oid == oid
    ensures exists i :: 0 <= i < |os| && os[i].oid == oid && Get(ApplyObjects(cache, os), oid) == Left(os[i])
  {
    var n := |os| - 1;
    if os[n].oid != oid {
      LastApplies(cache, os[..n], oid);
      var i :| 0 <= i < n && os[..n][i].oid == oid && Get(ApplyObjects(cache, os[..n]), oid) == Left(os[..n][i]);
      assert os[i] == os[..n][i];
    }
  }

  /** A delta's objects turn what the device has into what will have been delivered. */
  lemma DeltaApplies(c: Controller, erased: set<Oid>, os: seq<Obj>)
    requires SaysDelta(c, os) && erased <= c.delivered.Keys
    ensures ApplyObjects(c.delivered - erased, os) == DeltaState(c).delivered - (erased - Changed(c) - Removed(c))
  {
    var got, want := ApplyObjects(c.delivered - erased, os), DeltaState(c).delivered - (erased - Changed(c) - Removed(c));
    forall oid: Oid
      ensures Get(got, oid) == Get(want, oid)
    {
      ObjectsApply(c.delivered - erased, os, oid);
      if oid in Changed(c) {
        assert Put(oid, Entry(c.live[oid], c.sequence + 1)) in os;
      } else if oid in Removed(c) {
        assert Tombstone(oid) in os;
      }
    }
    SameCache(got, want);
  }

  lemma SameCache(a: Cache, b: Cache)
    requires forall oid: Oid :: Get(a, oid) == Get(b, oid)
    ensures a == b
  {
    forall oid: Oid
      ensures oid in a <==> oid in b
      ensures oid in a ==> a[oid] == b[oid]
    {
      assert Get(a, oid) == Get(b, oid);
    }
  }

  lemma TombstonesApply(cache: Cache, oids: seq<Oid>)
    ensures ApplyObjects(cache, Tombstones(oids)) == cache - set i | 0 <= i < |oids| :: oids[i]
  {
    var os, gone := Tombstones(oids), set i | 0 <= i < |oids| :: oids[i];
    forall oid: Oid
      ensures Get(ApplyObjects(cache, os), oid) == Get(cache - gone, oid)
    {
      ObjectsApply(cache, os, oid);
      if oid in gone {
        var i :| 0 <= i < |oids| && oids[i] == oid;
        assert os[i] == Tombstone(oid);
      }
    }
    SameCache(ApplyObjects(cache, os), cache - gone);
  }

  /** Stray tombstones, taken: an up-to-date device loses exactly those occurrences and is up to date again;
      one that is not asks for a snapshot and loses nothing. */
  lemma StraysTaken(d: Device, n: nat, oids: seq<Oid>)
    ensures var (u, ack) := Take(d, Delta(n, Tombstones(oids)), true);
      if d.ours && n == d.acked + 1 then
        u == d.(acked := n, cache := d.cache - set i | 0 <= i < |oids| :: oids[i]) && ack == Some(Ack(true, n, true, false))
      else u == d && ack.Some? && ack.value.needSnapshot
  {
    TombstonesApply(d.cache, oids);
  }

  lemma FlatPrefix(pages: seq<seq<(Oid, Entry)>>, i: nat)
    requires i < |pages|
    ensures Flat(pages[..i + 1]) == Flat(pages[..i]) + pages[i]
  {
    assert pages[..i + 1][..i] == pages[..i];
  }

  // ---- each kind of step ----

  /** Issuing one more numbered message, with its content logged. */
  lemma IssueKeeps(w: World, v: World, content: Cache, issued: seq<Message>)
    requires Inv(w) && w.outbox == [] && v.log == w.log + [content] && v.outbox == issued && v.down == w.down
    requires v.d == w.d && v.up == w.up && v.c.acked == w.c.acked && v.c.sequence == w.c.sequence + 1
    requires forall n :: n in w.pages ==> n in v.pages && v.pages[n] == w.pages[n]
    requires PagesHold(v.pages, v.log)
    requires forall i :: 0 <= i < |issued| ==> Issued(issued[i], v.pages, v.log) && Num(issued[i]) == v.c.sequence
    ensures DeviceHolds(v) && QueueHolds(v.down + v.outbox, v.c.acked, v.d, v.pages, v.log)
  {
    assert forall n :: 0 <= n < |w.log| ==> v.log[n] == w.log[n];
    assert w.down + w.outbox == w.down;
    var q := v.down + v.outbox;
    forall i | 0 <= i < |q|
      ensures Issued(q[i], v.pages, v.log) && v.c.acked <= Num(q[i]) < |v.log| && (v.d.ours ==> v.d.acked <= Num(q[i]))
    {
      if i < |w.down| {
        assert q[i] == w.down[i] == (w.down + w.outbox)[i] && Issued(w.down[i], w.pages, w.log);
      } else {
        assert q[i] == issued[i - |w.down|];
      }
    }
    forall i, j | 0 <= i < j < |q|
      ensures Num(q[i]) <= Num(q[j])
    {
      if j < |w.down| {
        assert q[i] == (w.down + w.outbox)[i] && q[j] == (w.down + w.outbox)[j];
      } else {
        assert q[j] == issued[j - |w.down|];
        assert i < |w.down| ==> q[i] == (w.down + w.outbox)[i];
      }
    }
  }

  lemma SnapshotRevisions(c: Controller, log: seq<Cache>, erased: set<Oid>)
    requires RevisionsHold(c, log, erased) && |log| == c.sequence + 1 && erased <= c.delivered.Keys
    ensures RevisionsHold(SnapshotState(c), log + [SnapshotState(c).delivered], {})
  {
    var u, log' := SnapshotState(c), log + [SnapshotState(c).delivered];
    forall n, oid: Oid | 0 <= n < |log'| && oid.schedule in u.scheduleRev && u.scheduleRev[oid.schedule] <= n
      ensures Get(log'[n], oid) == Get(u.delivered, oid)
    {
      if n < |log| {
        assert oid.schedule !in Schedules(c.live.Keys + Removed(c));
        assert forall o :: o in c.live.Keys + Removed(c) ==> o.schedule in Schedules(c.live.Keys + Removed(c));
        assert oid !in c.live && oid !in c.delivered && oid !in erased;
        assert Get(log[n], oid) == Get(c.delivered, oid);
      }
    }
  }

  lemma DeltaRevisions(c: Controller, log: seq<Cache>, erased: set<Oid>)
    requires RevisionsHold(c, log, erased) && |log| == c.sequence + 1 && erased <= c.delivered.Keys
    ensures var u, erased' := DeltaState(c), erased - Changed(c) - Removed(c);
      RevisionsHold(u, log + [u.delivered - erased'], erased')
  {
    var u, erased' := DeltaState(c), erased - Changed(c) - Removed(c);
    var log' := log + [u.delivered - erased'];
    forall n, oid: Oid | 0 <= n < |log'| && oid.schedule in u.scheduleRev && u.scheduleRev[oid.schedule] <= n && oid !in erased'
      ensures Get(log'[n], oid) == Get(u.delivered, oid)
    {
      if n < |log| {
        assert oid.schedule !in Schedules(Changed(c) + Removed(c));
        assert forall o :: o in Changed(c) + Removed(c) ==> o.schedule in Schedules(Changed(c) + Removed(c));
        assert oid !in Changed(c) && oid !in Removed(c) && oid !in erased;
        assert Get(log[n], oid) == Get(c.delivered, oid);
      }
    }
  }

  lemma SnapshotKeeps(w: World, snapshot: seq<seq<(Oid, Entry)>>)
    requires Inv(w) && w.outbox == [] && Listing(Flat(snapshot)) == SnapshotState(w.c).delivered
    ensures var c := SnapshotState(w.c);
      Inv(w.(c := c, outbox := PageMessages(c.sequence, snapshot), log := w.log + [c.delivered],
        pages := w.pages[c.sequence := snapshot], erased := {}))
  {
    var c := SnapshotState(w.c);
    var v := w.(c := c, outbox := PageMessages(c.sequence, snapshot), log := w.log + [c.delivered],
      pages := w.pages[c.sequence := snapshot], erased := {});
    assert c.delivered - {} == c.delivered;
    SnapshotRevisions(w.c, w.log, w.erased);
    IssueKeeps(w, v, c.delivered, v.outbox);
  }

  lemma DeltaKeeps(w: World, os: seq<Obj>)
    requires Inv(w) && w.outbox == [] && SaysDelta(w.c, os) && w.c.valid
    ensures var c, content := DeltaState(w.c), ApplyObjects(w.log[w.c.sequence], os);
      Inv(w.(c := c, outbox := [Delta(c.sequence, os)], log := w.log + [content], erased := w.erased - Changed(w.c) - Removed(w.c)))
  {
    var c, content := DeltaState(w.c), ApplyObjects(w.log[w.c.sequence], os);
    var v := w.(c := c, outbox := [Delta(c.sequence, os)], log := w.log + [content], erased := w.erased - Changed(w.c) - Removed(w.c));
    DeltaApplies(w.c, w.erased, os);
    DeltaRevisions(w.c, w.log, w.erased);
    assert v.log[c.sequence - 1] == w.log[w.c.sequence];
    IssueKeeps(w, v, content, v.outbox);
  }

  lemma TombstonesKeep(w: World, oids: seq<Oid>)
    requires Inv(w) && w.outbox == [] && w.c.valid
    ensures var n, content := w.c.sequence + 1, ApplyObjects(w.log[w.c.sequence], Tombstones(oids));
      Inv(w.(c := w.c.(sequence := n), outbox := [Delta(n, Tombstones(oids))], log := w.log + [content],
        erased := w.erased + (w.c.delivered.Keys * set i | 0 <= i < |oids| :: oids[i])))
  {
    var n, content, gone := w.c.sequence + 1, ApplyObjects(w.log[w.c.sequence], Tombstones(oids)), set i | 0 <= i < |oids| :: oids[i];
    var v := w.(c := w.c.(sequence := n), outbox := [Delta(n, Tombstones(oids))], log := w.log + [content],
      erased := w.erased + (w.c.delivered.Keys * gone));
    TombstonesApply(w.log[w.c.sequence], oids);
    assert v.log[n - 1] == w.log[w.c.sequence];
    assert content == v.c.delivered - v.erased;
    forall k, oid: Oid | 0 <= k < |v.log| && oid.schedule in v.c.scheduleRev && v.c.scheduleRev[oid.schedule] <= k && oid !in v.erased
      ensures Get(v.log[k], oid) == Get(v.c.delivered, oid)
    {
      if k < |w.log| {
        assert Get(w.log[k], oid) == Get(w.c.delivered, oid);
      }
    }
    IssueKeeps(w, v, content, v.outbox);
  }

  /** The device's step on the oldest message of a queue. */
  lemma DeviceKeeps(w: World, commits: bool)
    requires Inv(w) && w.down != []
    ensures Inv(Next(w, DeviceTakes(commits)))
  {
    var m, v := w.down[0], Next(w, DeviceTakes(commits));
    var q := w.down + w.outbox;
    assert q[0] == m && Issued(m, w.pages, w.log);
    assert v.down + v.outbox == q[1..];
    match m
    case Delta(n, os) =>
    case Page(n, index, count, listed) =>
      PageKeeps(w.d, w.pages, w.log, n, index, count, listed, commits);
    assert w.d.ours ==> v.d.ours && w.d.acked <= v.d.acked;
    assert v.d != w.d && v.d.ours ==> v.d.acked == w.d.acked || v.d.acked == Num(m);
  }

  lemma PageKeeps(d: Device, pages: map<nat, seq<seq<(Oid, Entry)>>>, log: seq<Cache>,
      n: nat, index: nat, count: nat, listed: seq<(Oid, Entry)>, commits: bool)
    requires PagesHold(pages, log) && Issued(Page(n, index, count, listed), pages, log)
    requires d.stage.Some? ==> Staged(d.stage.value, pages)
    ensures var (u, ack) := TakePage(d, n, index, count, listed, commits);
      && (u.stage.Some? ==> Staged(u.stage.value, pages))
      && ((u.ours == d.ours && u.acked == d.acked && u.cache == d.cache) || (u.ours && u.acked == n && n < |log| && u.cache == log[n]))
      && (ack.Some? ==> ack.value.ours == u.ours && ack.value.applied == u.acked)
  {
    FlatPrefix(pages[n], index);
    assert pages[n][..0] == [] && pages[n][..|pages[n]|] == pages[n];
  }

  /** Every step keeps the invariant. */
  lemma StepKeeps(w: World, e: Event)
    requires Inv(w) && Enabled(w, e)
    ensures Inv(Next(w, e))
  {
    match e
    case Deliver(snapshot, objects) =>
      assert w.log[|w.log| - 1] == w.log[w.c.sequence];
      match PlanOf(w.c) {
        case Snapshot => SnapshotKeeps(w, snapshot);
        case SendDelta => DeltaKeeps(w, objects);
        case _ =>
      }
    case SendTombstones(oids) =>
      if w.c.online && w.c.valid {
        TombstonesKeep(w, oids);
      }
    case DeviceTakes(commits) => DeviceKeeps(w, commits);
    case Send => SendKeeps(w);
    case SendFails(arrives) => SendFailKeeps(w, arrives);
    case LinkDrops => DropKeeps(w);
    case SessionHello => HelloKeeps(w);
    case TakeAck => AckKeeps(w);
    case Restart => RestartKeeps(w);
    case DeviceReset(cache) => ResetKeeps(w, cache);
    case _ => OtherKeeps(w, e);
  }

  lemma SendKeeps(w: World)
    requires Inv(w) && w.outbox != []
    ensures Inv(Next(w, Send))
  {
    if w.linked {
      assert Next(w, Send).down + Next(w, Send).outbox == w.down + w.outbox;
    } else {
      SendLosesKeeps(w);
    }
  }

  /** With no link the message is lost. */
  lemma SendLosesKeeps(w: World)
    requires Inv(w) && w.outbox != [] && !w.linked
    ensures Inv(Next(w, Send))
  {
    var v, q := Next(w, Send), w.down + w.outbox;
    QueueWithout(q, |w.down|, w.c.acked, w.d, w.pages, w.log);
    assert v.down + v.outbox == q[..|w.down|] + q[|w.down| + 1..];
  }

  lemma SendFailKeeps(w: World, arrives: bool)
    requires Inv(w) && Enabled(w, SendFails(arrives))
    ensures Inv(Next(w, SendFails(arrives)))
  {
    var v, q := Next(w, SendFails(arrives)), w.down + w.outbox;
    assert v.down + v.outbox == q[..|w.down| + if arrives then 1 else 0];
  }

  lemma QueueWithout(q: seq<Message>, i: nat, acked: nat, d: Device, pages: map<nat, seq<seq<(Oid, Entry)>>>, log: seq<Cache>)
    requires QueueHolds(q, acked, d, pages, log) && i < |q|
    ensures QueueHolds(q[..i] + q[i + 1..], acked, d, pages, log)
  {
  }

  lemma HelloKeeps(w: World)
    requires Inv(w)
    ensures Inv(Next(w, SessionHello))
  {
    var v, q := Next(w, SessionHello), w.down + w.outbox;
    assert v.down + v.outbox == q[|w.down|..];
  }

  lemma DropKeeps(w: World)
    requires Inv(w)
    ensures Inv(Next(w, LinkDrops))
  {
    var v, q := Next(w, LinkDrops), w.down + w.outbox;
    assert v.down + v.outbox == q[|w.down|..];
  }

  lemma AckKeeps(w: World)
    requires Inv(w) && w.up != []
    ensures Inv(Next(w, TakeAck))
  {
    var v := Next(w, TakeAck);
    assert forall i :: 0 <= i < |v.up| ==> v.up[i] == w.up[i + 1];
    assert v.down + v.outbox == w.down + w.outbox;
  }

  lemma ResetKeeps(w: World, cache: Cache)
    requires Inv(w)
    ensures Inv(Next(w, DeviceReset(cache)))
  {
    DropKeeps(w);
    ForeignKeeps(Next(w, LinkDrops), cache);
  }

  /** A store of another epoch promises nothing. */
  lemma {:induction false} ForeignKeeps(w: World, cache: Cache)
    requires Inv(w) && w.down == [] && w.up == []
    ensures Inv(w.(d := Device(false, 0, cache, None)))
  {
  }

  lemma RestartKeeps(w: World)
    requires Inv(w)
    ensures Inv(Next(w, Restart))
  {
  }

  lemma OtherKeeps(w: World, e: Event)
    requires Inv(w) && (e.Push? || e.OtherSendFails? || e.SessionLost? || e.DeviceForgetsStage?)
    ensures Inv(Next(w, e))
  {
  }

  // ---- whole runs ----

  ghost predicate Reaches(w: World, es: seq<Event>, v: World)
    decreases es
  {
    if es == [] then v == w else Enabled(w, es[0]) && Reaches(Next(w, es[0]), es[1..], v)
  }

  lemma {:induction false} RunKeeps(w: World, es: seq<Event>, v: World)
    requires Inv(w) && Reaches(w, es, v)
    ensures Inv(v) && w.log <= v.log && w.c.sequence <= v.c.sequence
    decreases es
  {
    if es != [] {
      StepKeeps(w, es[0]);
      RunKeeps(Next(w, es[0]), es[1..], v);
    }
  }

  lemma StartHolds(w: World)
    requires Start(w)
    ensures Inv(w)
  {
  }

  /** Once the device has applied the last sequence of a view the controller trusts, it holds what was
      delivered, less what tombstones took behind its back: exactly `delivered` when they took nothing. */
  lemma Converged(w: World, es: seq<Event>, v: World)
    requires Start(w) && Reaches(w, es, v)
    requires v.c.valid && v.d.ours && v.d.acked == v.c.sequence
    ensures v.d.cache == v.c.delivered - v.erased
    ensures v.d.cache == v.c.delivered <==> v.erased == {}
  {
    StartHolds(w);
    RunKeeps(w, es, v);
    if v.erased != {} {
      var oid :| oid in v.erased;
      assert oid in v.c.delivered && oid !in v.d.cache;
    } else {
      assert v.c.delivered - v.erased == v.c.delivered;
    }
  }

  /** The tombstones sent for snooze children name occurrences that are not delivered. */
  predicate Stray(w: World, e: Event) {
    e.SendTombstones? ==> forall i :: 0 <= i < |e.oids| ==> e.oids[i] !in w.c.delivered
  }

  ghost predicate AllStray(w: World, es: seq<Event>, v: World)
    requires Reaches(w, es, v)
    decreases es
  {
    es == [] || (Stray(w, es[0]) && AllStray(Next(w, es[0]), es[1..], v))
  }

  lemma {:induction false} NothingErased(w: World, es: seq<Event>, v: World)
    requires Reaches(w, es, v) && AllStray(w, es, v) && w.erased == {}
    ensures v.erased == {}
    decreases es
  {
    if es != [] {
      NothingErased(Next(w, es[0]), es[1..], v);
    }
  }

  /** While no tombstone names a delivered occurrence, a converged device holds `delivered` itself. */
  lemma ConvergedExactly(w: World, es: seq<Event>, v: World)
    requires Start(w) && Reaches(w, es, v) && AllStray(w, es, v)
    requires v.c.valid && v.d.ours && v.d.acked == v.c.sequence
    ensures v.d.cache == v.c.delivered
  {
    NothingErased(w, es, v);
    Converged(w, es, v);
  }

  lemma Then(w: World, e: Event, es: seq<Event>, v: World)
    requires Enabled(w, e) && Reaches(Next(w, e), es, v)
    ensures Reaches(w, [e] + es, v)
  {
    assert ([e] + es)[1..] == es;
  }

  /** The cache of a first snapshot. */
  function Stamped(live: map<Oid, int>): Cache { Fresh(live, live.Keys, 1) }

  /** An endpoint and its device, connected, with these occurrences delivered and acknowledged. */
  function Held(live: map<Oid, int>, page: seq<(Oid, Entry)>): World {
    World(Controller(1, 1, true, true, live, Stamped(live), true, map s | s in Schedules(live.Keys) :: 1),
      Device(true, 1, Stamped(live), None), true, [], [], [], [map[], Stamped(live)], map[1 := [page]], {})
  }

  /** The same, with the snapshot's one page still to be sent to a device of another epoch. */
  function Offered(d: Device, live: map<Oid, int>, page: seq<(Oid, Entry)>): World {
    Held(live, page).(c := Held(live, page).c.(acked := 0), d := d, outbox := [Page(1, 0, 1, page)])
  }

  /** A new delivery epoch, once the device has said hello and a push has come. */
  predicate Hailed(w: World, live: map<Oid, int>) {
    && w.c == Controller(0, 0, true, true, live, map[], false, map[]) && w.linked
    && !w.d.ours && w.d.stage.None? && w.outbox == [] && w.down == [] && w.up == []
    && w.log == [map[]] && w.pages == map[] && w.erased == {}
  }

  lemma OnePage(page: seq<(Oid, Entry)>)
    ensures Flat([page]) == page
  {
    var pages := [page];
    assert pages[..0] == [];
  }

  lemma {:induction false} OfferedIsNext(w: World, live: map<Oid, int>, page: seq<(Oid, Entry)>)
    requires Hailed(w, live) && Listing(page) == Stamped(live)
    ensures Enabled(w, Deliver([page], [])) && Next(w, Deliver([page], [])) == Offered(w.d, live, page)
  {
    OnePage(page);
    FirstSnapshot(w.c, live);
    assert PageMessages(1, [page]) == [Page(1, 0, 1, page)];
  }

  lemma {:induction false} FirstSnapshot(c: Controller, live: map<Oid, int>)
    requires c == Controller(0, 0, true, true, live, map[], false, map[])
    ensures SnapshotState(c) == Controller(1, 0, true, true, live, Stamped(live), true, map s | s in Schedules(live.Keys) :: 1)
  {
    assert live.Keys + Removed(c) == live.Keys;
    assert SnapshotState(c).scheduleRev == map s | s in Schedules(live.Keys) :: 1;
  }

  lemma OfferedIsTaken(d: Device, live: map<Oid, int>, page: seq<(Oid, Entry)>)
    requires !d.ours && Listing(page) == Stamped(live)
    ensures Reaches(Offered(d, live, page), [Send, DeviceTakes(true), TakeAck], Held(live, page))
  {
    var w := Offered(d, live, page);
    var w1 := Next(w, Send);
    assert w1.down == [Page(1, 0, 1, page)];
    assert [] + page == page;
    var w2 := Next(w1, DeviceTakes(true));
    assert w2.d == Device(true, 1, Stamped(live), None);
    SentAndTaken(w, Held(live, page));
  }

  lemma HailedIsHeld(w: World, live: map<Oid, int>, page: seq<(Oid, Entry)>)
    requires Hailed(w, live) && Listing(page) == Stamped(live)
    ensures Reaches(w, [Deliver([page], []), Send, DeviceTakes(true), TakeAck], Held(live, page))
  {
    OfferedIsNext(w, live, page);
    OfferedIsTaken(w.d, live, page);
    Then(w, Deliver([page], []), [Send, DeviceTakes(true), TakeAck], Held(live, page));
    assert [Deliver([page], [])] + [Send, DeviceTakes(true), TakeAck] == [Deliver([page], []), Send, DeviceTakes(true), TakeAck];
  }

  lemma HeldIsReached(w: World, live: map<Oid, int>, page: seq<(Oid, Entry)>) returns (es: seq<Event>)
    requires Start(w) && Listing(page) == Stamped(live)
    ensures Reaches(w, es, Held(live, page))
  {
    var w1 := Next(w, SessionHello);
    HailedIsHeld(Next(w1, Push(live)), live, page);
    es := [Deliver([page], []), Send, DeviceTakes(true), TakeAck];
    Then(w1, Push(live), es, Held(live, page));
    es := [Push(live)] + es;
    Then(w, SessionHello, es, Held(live, page));
    es := [SessionHello] + es;
  }

  /** Everything delivered is applied and acknowledged, nothing is under way, and there is nothing to send. */
  predicate Quiet(w: World) {
    && w.linked && w.outbox == [] && w.down == [] && w.up == [] && w.c.online && w.c.valid && PlanOf(w.c) == Idle
    && w.d.ours && w.d.acked == w.c.acked == w.c.sequence
  }

  lemma {:induction false} TombstoneIsTaken(w: World, child: Oid) returns (v: World)
    requires Quiet(w) && child in w.c.delivered && Armed(w.c, {child.schedule})
    ensures Enabled(w, SendTombstones([child])) && Reaches(Next(w, SendTombstones([child])), [Send, DeviceTakes(true), TakeAck], v)
    ensures Quiet(v) && child in v.c.delivered && child !in v.d.cache && Armed(v.c, {child.schedule})
  {
    assert Tombstones([child]) == [Tombstone(child)];
    var w1 := Next(w, SendTombstones([child]));
    var w2 := Next(w1, Send);
    assert w2.down == [Delta(w.c.sequence + 1, [Tombstone(child)])];
    var w3 := Next(w2, DeviceTakes(true));
    TombstonesApply(w.d.cache, [child]);
    assert child in set i | 0 <= i < 1 :: [child][i];
    v := Next(w3, TakeAck);
    assert Changed(v.c) == Changed(w.c) && Removed(v.c) == Removed(w.c);
    SentAndTaken(w1, v);
  }

  lemma SentAndTaken(w: World, v: World)
    requires Enabled(w, Send) && Enabled(Next(w, Send), DeviceTakes(true)) && Enabled(Next(Next(w, Send), DeviceTakes(true)), TakeAck)
    requires v == Next(Next(Next(w, Send), DeviceTakes(true)), TakeAck)
    ensures Reaches(w, [Send, DeviceTakes(true), TakeAck], v)
  {
    var w1, w2 := Next(w, Send), Next(Next(w, Send), DeviceTakes(true));
    Then(w2, TakeAck, [], v);
    Then(w1, DeviceTakes(true), [TakeAck], v);
    assert [DeviceTakes(true)] + [TakeAck] == [DeviceTakes(true), TakeAck];
    Then(w, Send, [DeviceTakes(true), TakeAck], v);
    assert [Send] + [DeviceTakes(true), TakeAck] == [Send, DeviceTakes(true), TakeAck];
  }

  /** A rejected snooze's child may be delivered all the same, when a push showed it and the parent's
      deletion was what failed or never became visible: its tombstone then takes from the device an alarm
      that the controller holds delivered, and armed if it was, and the next delivery finds nothing to send. */
  lemma TombstoneTakesDelivered(w: World, child: Oid) returns (v: World)
    requires Quiet(w) && child in w.c.delivered && Armed(w.c, {child.schedule})
    ensures Reaches(w, [SendTombstones([child])] + [Send, DeviceTakes(true), TakeAck], v)
    ensures Quiet(v) && child in v.c.delivered && child !in v.d.cache && Armed(v.c, {child.schedule})
  {
    v := TombstoneIsTaken(w, child);
    Then(w, SendTombstones([child]), [Send, DeviceTakes(true), TakeAck], v);
  }

  /** A device whose store is wiped has lost what it held, and is armed for the controller until its
      session is. */
  lemma WipedIsArmed(w: World, schedules: set<int>)
    requires Armed(w.c, schedules)
    ensures Reaches(w, [DeviceReset(map[])], Next(w, DeviceReset(map[])))
    ensures var v := Next(w, DeviceReset(map[])); Armed(v.c, schedules) && v.c.delivered == w.c.delivered && v.d.cache == map[] && !v.d.ours
    ensures !Armed(Next(Next(w, DeviceReset(map[])), SessionLost).c, schedules)
  {
    Then(w, DeviceReset(map[]), [], Next(w, DeviceReset(map[])));
    assert [DeviceReset(map[])] + [] == [DeviceReset(map[])];
  }

  /** Armed means held: the device has every delivered occurrence of the armed schedules, and no other
      occurrence of theirs, unless a tombstone took it. */
  lemma ArmedIsHeld(w: World, es: seq<Event>, v: World, schedules: set<int>, oid: Oid)
    requires Start(w) && Reaches(w, es, v) && v.d.ours
    requires Armed(v.c, schedules) && oid.schedule in schedules && oid !in v.erased
    ensures Get(v.d.cache, oid) == Get(v.c.delivered, oid)
  {
    StartHolds(w);
    RunKeeps(w, es, v);
  }

  /** Armed also means that everything that changed those schedules is acknowledged: no message on its
      way can still change one of their occurrences, unless it is a tombstone of an erased one. */
  lemma ArmedIsSettled(w: World, es: seq<Event>, v: World, schedules: set<int>, n: nat, oid: Oid)
    requires Start(w) && Reaches(w, es, v)
    requires Armed(v.c, schedules) && oid.schedule in schedules && oid !in v.erased
    requires v.c.acked <= n <= v.c.sequence
    ensures |v.log| == v.c.sequence + 1 && Get(v.log[n], oid) == Get(v.c.delivered, oid)
  {
    StartHolds(w);
    RunKeeps(w, es, v);
  }

  /** Nothing is sent under a number that is not durable yet, and whatever is under way under one number
      has the one content the log has for it; later steps, restarts included, never give it another. */
  lemma NumbersNameOneContent(w: World, es: seq<Event>, v: World, more: seq<Event>, u: World, m: Message)
    requires Start(w) && Reaches(w, es, v) && Reaches(v, more, u) && m in v.down + v.outbox
    ensures m.number <= v.c.sequence && |v.log| == v.c.sequence + 1 && v.log <= u.log
    ensures m.Delta? ==> 0 < m.number && v.log[m.number] == ApplyObjects(v.log[m.number - 1], m.objects)
    ensures m.Page? ==> m.number in v.pages && m.index < |v.pages[m.number]| && m.listed == v.pages[m.number][m.index]
    ensures m.Page? ==> Listing(Flat(v.pages[m.number])) == v.log[m.number]
  {
    StartHolds(w);
    RunKeeps(w, es, v);
    RunKeeps(v, more, u);
    var i :| 0 <= i < |v.down + v.outbox| && (v.down + v.outbox)[i] == m;
    assert Issued(m, v.pages, v.log) && Num(m) < |v.log|;
  }

  /** What a delivery leaves delivered, to an online device, is what is live. */
  lemma DeliveredIsLive(c: Controller, oid: Oid)
    requires c.online
    ensures var u := Delivered(c);
      && u.valid
      && (oid in u.delivered <==> oid in c.live)
      && (oid in c.live ==> u.delivered[oid].body == c.live[oid])
  {
    assert PlanOf(c) == Idle ==> oid !in Changed(c) + Removed(c);
  }

  // ---- a snapshot's pages bring any device up to date ----

  function TakeAll(d: Device, ms: seq<Message>): Device {
    if ms == [] then d else Take(TakeAll(d, ms[..|ms| - 1]), ms[|ms| - 1], true).0
  }

  lemma {:induction false} PagesStage(d: Device, n: nat, pages: seq<seq<(Oid, Entry)>>, k: nat)
    requires 0 < k <= |pages|
    ensures var u := TakeAll(d, PageMessages(n, pages)[..k]);
      if k < |pages| then u == d.(stage := Some(Stage(n, |pages|, k, Flat(pages[..k]))))
      else u == Device(true, n, Listing(Flat(pages)), None)
    decreases k
  {
    var ms := PageMessages(n, pages);
    assert ms[..k][..k - 1] == ms[..k - 1];
    FlatPrefix(pages, k - 1);
    assert pages[..0] == [] && pages[..|pages|] == pages;
    if k > 1 {
      PagesStage(d, n, pages, k - 1);
    }
  }

  /** Whatever a device holds, of any epoch, taking a snapshot's pages in order leaves it with exactly
      the listed cache, at the snapshot's number. */
  lemma SnapshotInstalls(d: Device, n: nat, pages: seq<seq<(Oid, Entry)>>)
    requires pages != []
    ensures TakeAll(d, PageMessages(n, pages)) == Device(true, n, Listing(Flat(pages)), None)
  {
    PagesStage(d, n, pages, |pages|);
    assert PageMessages(n, pages)[..|pages|] == PageMessages(n, pages);
  }
}

/** One endpoint's delivery fields and the methods that change them (controller/em_alerts.py, `_Endpoint`).
    What a method hands to the session, in order, is its result. */
module AlertDelivery {
  import opened Basics
  import opened DeliverySpec
  import opened DeliveryProtocol

  const PAGE_OBJECTS: nat := 128

  type Objects = seq<(Oid, Entry)>

  /** The wire's pages: at most 128 objects each, and one page even of nothing. */
  function Chunks(objects: Objects): (pages: seq<Objects>)
    ensures pages != []
    ensures forall i :: 0 <= i < |pages| ==> |pages[i]| <= PAGE_OBJECTS
  {
    if |objects| <= PAGE_OBJECTS then [objects]
    else [objects[..PAGE_OBJECTS]] + Chunks(objects[PAGE_OBJECTS..])
  }

  lemma {:induction false} FlatPrepend(first: Objects, pages: seq<Objects>)
    ensures Flat([first] + pages) == first + Flat(pages)
  {
    var all := [first] + pages;
    if pages == [] {
      assert all[..0] == [];
    } else {
      assert all[..|all| - 1] == [first] + pages[..|pages| - 1];
      FlatPrepend(first, pages[..|pages| - 1]);
    }
  }

  /** The pages carry every object once, in order; only the last may be short, or empty when it is alone. */
  lemma {:induction false} ChunksCarryAll(objects: Objects)
    ensures Flat(Chunks(objects)) == objects
    ensures var pages := Chunks(objects);
      && (forall i :: 0 <= i < |pages| - 1 ==> |pages[i]| == PAGE_OBJECTS)
      && (objects != [] ==> pages[|pages| - 1] != [])
  {
    if |objects| <= PAGE_OBJECTS {
      FlatPrepend(objects, []);
    } else {
      ChunksCarryAll(objects[PAGE_OBJECTS..]);
      FlatPrepend(objects[..PAGE_OBJECTS], Chunks(objects[PAGE_OBJECTS..]));
    }
  }

  class AlertEndpoint {
    var sequence: nat
    var acked: nat
    var online: bool
    var materialized: bool
    var live: map<Oid, int>
    var delivered: Cache
    var deliveredValid: bool
    var scheduleRev: map<int, nat>

    ghost function View(): Controller
      reads this
    {
      Controller(sequence, acked, online, materialized, live, delivered, deliveredValid, scheduleRev)
    }

    /** A restarted controller knows the durable numbers and nothing else. */
    constructor (durableSequence: nat, durableAcked: nat)
      ensures View() == Controller(durableSequence, durableAcked, false, false, map[], map[], false, map[])
    {
      sequence, acked, online, materialized := durableSequence, durableAcked, false, false;
      live, delivered, deliveredValid, scheduleRev := map[], map[], false, map[];
    }

    method Diff() returns (changed: set<Oid>, removed: set<Oid>)
      ensures changed == Changed(View()) && removed == Removed(View())
    {
      changed := set oid | oid in live && (oid !in delivered || delivered[oid].body != live[oid]);
      removed := delivered.Keys - live.Keys;
    }

    /** `_deliver`, between taking the delivery lock and the first send: a snapshot's pages, or a delta's
        objects, which are what a delivery of the protocol may issue. */
    method Deliver() returns (pages: seq<Objects>, objects: seq<Obj>)
      modifies this
      ensures View() == Delivered(old(View()))
      ensures PlanOf(old(View())).Snapshot? ==> pages != [] && Listing(Flat(pages)) == SnapshotState(old(View())).delivered
      ensures PlanOf(old(View())).SendDelta? ==> SaysDelta(old(View()), objects)
      ensures !PlanOf(old(View())).Snapshot? ==> pages == []
      ensures !PlanOf(old(View())).SendDelta? ==> objects == []
      ensures forall i :: 0 <= i < |pages| ==> |pages[i]| <= PAGE_OBJECTS
    {
      pages, objects := [], [];
      var changed, removed := Diff();
      if !online {
        if changed + removed != {} {
          deliveredValid := false;
        }
      } else if !deliveredValid {
        pages := Snapshot();
      } else if changed + removed != {} {
        objects := SendDelta(changed, removed);
      }
    }

    method SendDelta(changed: set<Oid>, removed: set<Oid>) returns (objects: seq<Obj>)
      requires changed == Changed(View()) && removed == Removed(View())
      modifies this
      ensures View() == DeltaState(old(View())) && SaysDelta(old(View()), objects)
    {
      ghost var before := View();
      sequence := sequence + 1;
      var puts := PutChanged(changed);
      var gone := TombstoneRemoved(removed);
      DeltaIs(before, View());
      objects := puts + gone;
      BothSay(before, puts, gone);
    }

    /** Every changed occurrence under the new sequence. */
    method PutChanged(changed: set<Oid>) returns (objects: seq<Obj>)
      requires changed <= live.Keys
      modifies `delivered, `scheduleRev
      ensures delivered == old(delivered) + Fresh(live, changed, sequence)
      ensures scheduleRev == Marked(old(scheduleRev), Schedules(changed), sequence)
      ensures PutsFor(live, changed, sequence, objects)
    {
      objects := [];
      var done: set<Oid> := {};
      while done != changed
        invariant done <= changed && delivered == old(delivered) + Fresh(live, done, sequence)
        invariant scheduleRev == Marked(old(scheduleRev), Schedules(done), sequence)
        invariant PutsFor(live, done, sequence, objects)
        decreases changed - done
      {
        Remaining(changed, done);
        var oid :| oid in changed - done;
        MarkOne(old(scheduleRev), done, oid, sequence);
        PutOne(live, done, sequence, objects, old(delivered), oid);
        done := done + {oid};
        delivered := delivered[oid := Entry(live[oid], sequence)];
        scheduleRev := scheduleRev[oid.schedule := sequence];
        objects := objects + [Put(oid, Entry(live[oid], sequence))];
      }
    }

    /** Every delivered occurrence that is no longer live is taken back. */
    method TombstoneRemoved(removed: set<Oid>) returns (objects: seq<Obj>)
      requires removed <= delivered.Keys
      modifies `delivered, `scheduleRev
      ensures delivered == old(delivered) - removed
      ensures scheduleRev == Marked(old(scheduleRev), Schedules(removed), sequence)
      ensures TombstonesFor(removed, objects)
    {
      objects := [];
      var done: set<Oid> := {};
      while done != removed
        invariant done <= removed && delivered == old(delivered) - done
        invariant scheduleRev == Marked(old(scheduleRev), Schedules(done), sequence)
        invariant TombstonesFor(done, objects)
        decreases removed - done
      {
        Remaining(removed, done);
        var oid :| oid in removed - done;
        MarkOne(old(scheduleRev), done, oid, sequence);
        done := done + {oid};
        delivered := delivered - {oid};
        scheduleRev := scheduleRev[oid.schedule := sequence];
        objects := objects + [Tombstone(oid)];
      }
    }

    /** `_send_objects`: whatever the device holds, what is sent takes exactly those occurrences from it,
        under a number never used before; `delivered` is left as it is. */
    method SendObjects(oids: seq<Oid>) returns (objects: seq<Obj>)
      modifies `sequence
      ensures objects == if online && deliveredValid then Tombstones(oids) else []
      ensures sequence == old(sequence) + if online && deliveredValid then 1 else 0
      ensures online && deliveredValid ==> forall cache: Cache :: ApplyObjects(cache, objects) == cache - set i | 0 <= i < |oids| :: oids[i]
    {
      if !online || !deliveredValid {
        return [];
      }
      sequence := sequence + 1;
      objects := Tombstones(oids);
      forall cache: Cache
        ensures ApplyObjects(cache, objects) == cache - set i | 0 <= i < |oids| :: oids[i]
      {
        TombstonesApply(cache, oids);
      }
    }

    method OnSessionHello(ours: bool, deviceAcked: nat)
      modifies this
      ensures View() == Hello(old(View()), ours, deviceAcked)
    {
      online := true;
      if ours && deviceAcked <= sequence {
        acked := deviceAcked;
      }
      if !ours || deviceAcked != sequence {
        deliveredValid := false;
      }
    }

    method OnSessionLost()
      modifies this
      ensures View() == old(View()).(online := false)
    {
      online := false;
    }

    method OnAlertAck(a: Ack)
      modifies this
      ensures View() == OnAck(old(View()), a)
    {
      if a.needSnapshot {
        deliveredValid := false;
        return;
      }
      if a.durable && a.ours && acked <= a.applied && a.applied <= sequence {
        acked := a.applied;
      }
    }

    /** `_armed`, schedule by schedule. */
    method IsArmed(schedules: seq<int>) returns (armed: bool)
      ensures armed <==> Armed(View(), set i | 0 <= i < |schedules| :: schedules[i])
    {
      ghost var all := set i | 0 <= i < |schedules| :: schedules[i];
      armed := online && deliveredValid && schedules != [];
      var i := 0;
      while i < |schedules| && armed
        invariant 0 <= i <= |schedules| && (i > 0 || armed ==> online && deliveredValid)
        invariant armed ==> schedules != [] && forall j :: 0 <= j < i ==> schedules[j] in scheduleRev && acked >= scheduleRev[schedules[j]]
        invariant !armed ==> !Armed(View(), all)
      {
        var s := schedules[i];
        armed := s in scheduleRev && acked >= scheduleRev[s];
        assert s in all;
        assert !armed ==> !(s in View().scheduleRev && View().acked >= View().scheduleRev[s]);
        i := i + 1;
      }
      assert armed ==> schedules[0] in all;
    }

    method Snapshot() returns (pages: seq<Objects>)
      requires !deliveredValid
      modifies this
      ensures View() == SnapshotState(old(View()))
      ensures pages != [] && Listing(Flat(pages)) == delivered
      ensures forall i :: 0 <= i < |pages| ==> |pages[i]| <= PAGE_OBJECTS
    {
      ghost var before := View();
      sequence := sequence + 1;
      var current, objects := StampLive();
      MarkRemoved();
      delivered, deliveredValid := current, true;
      SnapshotIs(before, View());
      pages := Chunks(objects);
      ChunksCarryAll(objects);
    }

    /** Every live occurrence under the new sequence, marking its schedule as changed. */
    method StampLive() returns (current: Cache, objects: Objects)
      modifies `scheduleRev
      ensures current == Fresh(live, live.Keys, sequence) && Listing(objects) == current
      ensures scheduleRev == Marked(old(scheduleRev), Schedules(live.Keys), sequence)
    {
      current, objects := map[], [];
      var done: set<Oid> := {};
      while done != live.Keys
        invariant done <= live.Keys && current == Fresh(live, done, sequence) && Listing(objects) == current
        invariant scheduleRev == Marked(old(scheduleRev), Schedules(done), sequence)
        decreases live.Keys - done
      {
        Remaining(live.Keys, done);
        var oid :| oid in live.Keys - done;
        MarkOne(old(scheduleRev), done, oid, sequence);
        done := done + {oid};
        current := current[oid := Entry(live[oid], sequence)];
        scheduleRev := scheduleRev[oid.schedule := sequence];
        assert (objects + [(oid, Entry(live[oid], sequence))])[..|objects|] == objects;
        objects := objects + [(oid, Entry(live[oid], sequence))];
      }
    }

    /** The schedules of what is no longer live have changed too. */
    method MarkRemoved()
      modifies `scheduleRev
      ensures scheduleRev == Marked(old(scheduleRev), Schedules(delivered.Keys - live.Keys), sequence)
    {
      var done: set<Oid> := {};
      while done != delivered.Keys - live.Keys
        invariant done <= delivered.Keys - live.Keys
        invariant scheduleRev == Marked(old(scheduleRev), Schedules(done), sequence)
        decreases delivered.Keys - live.Keys - done
      {
        Remaining(delivered.Keys - live.Keys, done);
        var oid :| oid in delivered.Keys - live.Keys - done;
        MarkOne(old(scheduleRev), done, oid, sequence);
        done := done + {oid};
        scheduleRev := scheduleRev[oid.schedule := sequence];
      }
    }
  }

  ghost predicate PutsFor(live: map<Oid, int>, oids: set<Oid>, n: nat, os: seq<Obj>)
    requires oids <= live.Keys
  {
    && (forall i :: 0 <= i < |os| ==> os[i].Put? && os[i].oid in oids && os[i].entry == Entry(live[os[i].oid], n))
    && (forall oid :: oid in oids ==> Put(oid, Entry(live[oid], n)) in os)
  }

  ghost predicate TombstonesFor(oids: set<Oid>, os: seq<Obj>) {
    && (forall i :: 0 <= i < |os| ==> os[i].Tombstone? && os[i].oid in oids)
    && (forall oid :: oid in oids ==> Tombstone(oid) in os)
  }

  lemma PutOne(live: map<Oid, int>, done: set<Oid>, n: nat, os: seq<Obj>, before: Cache, oid: Oid)
    requires done <= live.Keys && oid in live && PutsFor(live, done, n, os)
    ensures PutsFor(live, done + {oid}, n, os + [Put(oid, Entry(live[oid], n))])
    ensures before + Fresh(live, done + {oid}, n) == (before + Fresh(live, done, n))[oid := Entry(live[oid], n)]
  {
    var os' := os + [Put(oid, Entry(live[oid], n))];
    assert os'[|os|] == Put(oid, Entry(live[oid], n));
    assert forall o :: o in os ==> o in os';
    assert Fresh(live, done + {oid}, n) == Fresh(live, done, n)[oid := Entry(live[oid], n)];
  }

  lemma BothSay(c: Controller, puts: seq<Obj>, gone: seq<Obj>)
    requires PutsFor(c.live, Changed(c), c.sequence + 1, puts) && TombstonesFor(Removed(c), gone)
    ensures SaysDelta(c, puts + gone)
  {
    var os := puts + gone;
    assert forall o :: o in puts || o in gone ==> o in os;
  }

  lemma Remaining<T>(all: set<T>, done: set<T>)
    requires done <= all && done != all
    ensures all - done != {}
  {
    assert !(all <= done);
    var x :| x in all && x !in done;
    assert x in all - done;
  }

  lemma MarkBoth(rev: map<int, nat>, a: set<Oid>, b: set<Oid>, n: nat)
    ensures Marked(Marked(rev, Schedules(a), n), Schedules(b), n) == Marked(rev, Schedules(a + b), n)
  {
    assert Schedules(a + b) == Schedules(a) + Schedules(b);
  }

  lemma DeltaIs(c: Controller, u: Controller)
    requires u.sequence == c.sequence + 1 && u.delivered == c.delivered + Fresh(c.live, Changed(c), u.sequence) - Removed(c)
    requires u.scheduleRev == Marked(Marked(c.scheduleRev, Schedules(Changed(c)), u.sequence), Schedules(Removed(c)), u.sequence)
    requires u == c.(sequence := u.sequence, delivered := u.delivered, scheduleRev := u.scheduleRev)
    ensures u == DeltaState(c)
  {
    MarkBoth(c.scheduleRev, Changed(c), Removed(c), u.sequence);
  }

  lemma SnapshotIs(c: Controller, u: Controller)
    requires u.sequence == c.sequence + 1 && u.delivered == Fresh(c.live, c.live.Keys, u.sequence)
    requires u.scheduleRev == Marked(Marked(c.scheduleRev, Schedules(c.live.Keys), u.sequence), Schedules(Removed(c)), u.sequence)
    requires u == c.(sequence := u.sequence, delivered := u.delivered, scheduleRev := u.scheduleRev, valid := true)
    ensures u == SnapshotState(c)
  {
    MarkBoth(c.scheduleRev, c.live.Keys, Removed(c), u.sequence);
  }

  lemma MarkOne(rev: map<int, nat>, oids: set<Oid>, oid: Oid, n: nat)
    ensures Marked(rev, Schedules(oids + {oid}), n) == Marked(rev, Schedules(oids), n)[oid.schedule := n]
  {
    assert Schedules(oids + {oid}) == Schedules(oids) + {oid.schedule};
  }
}
