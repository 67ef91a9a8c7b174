/** How a delivery catches up again (controller/em_alerts.py, `_deliver`, `on_session_hello`, `on_alert_ack`):
    from a lost view by a snapshot, from a change by a delta, from a lost link by a hello. */
module Recovering {
  import opened Basics
  import opened DeliverySpec
  import opened DeliveryProtocol

  lemma {:induction false} Joined(w: World, es: seq<Event>, v: World, more: seq<Event>, u: World)
    requires Reaches(w, es, v) && Reaches(v, more, u)
    ensures Reaches(w, es + more, u)
    decreases es
  {
    if es == [] {
      assert es + more == more;
    } else {
      assert (es + more)[0] == es[0] && (es + more)[1..] == es[1..] + more;
      Joined(Next(w, es[0]), es[1..], v, more, u);
    }
  }

  function Times(e: Event, n: nat): seq<Event> {
    if n == 0 then [] else [e] + Times(e, n - 1)
  }

  /** What is live, and nothing else, is delivered. */
  predicate ShowsLive(c: Controller) {
    c.delivered.Keys == c.live.Keys && forall oid :: oid in c.live ==> c.delivered[oid].body == c.live[oid]
  }

  // ---- messages on their way ----

  lemma {:induction false} AllSent(w: World)
    requires w.linked
    ensures Reaches(w, Times(Send, |w.outbox|), w.(outbox := [], down := w.down + w.outbox))
    decreases |w.outbox|
  {
    if w.outbox == [] {
      assert w.(outbox := [], down := w.down + w.outbox) == w;
    } else {
      var w1 := Next(w, Send);
      assert w1.down + w1.outbox == w.down + w.outbox;
      AllSent(w1);
      Then(w, Send, Times(Send, |w.outbox| - 1), w.(outbox := [], down := w.down + w.outbox));
    }
  }

  /** A device that has staged the first k pages takes the others and installs them all. */
  lemma {:induction false} PagesTaken(w: World, d: Device, n: nat, pages: seq<seq<(Oid, Entry)>>, k: nat)
    requires k < |pages| && w.linked && w.up == [] && w.d == TakeAll(d, PageMessages(n, pages)[..k]) && w.down == PageMessages(n, pages)[k..]
    ensures Reaches(w, Times(DeviceTakes(true), |pages| - k),
      w.(d := Device(true, n, Listing(Flat(pages)), None), down := [], up := [Ack(true, n, true, false)]))
    decreases |pages| - k
  {
    var v := w.(d := Device(true, n, Listing(Flat(pages)), None), down := [], up := [Ack(true, n, true, false)]);
    var w1 := Next(w, DeviceTakes(true));
    PageTaken(w, d, n, pages, k);
    if k + 1 < |pages| {
      PagesTaken(w1, d, n, pages, k + 1);
    } else {
      assert w1 == v;
    }
    Then(w, DeviceTakes(true), Times(DeviceTakes(true), |pages| - k - 1), v);
  }

  lemma {:induction false} PageTaken(w: World, d: Device, n: nat, pages: seq<seq<(Oid, Entry)>>, k: nat)
    requires k < |pages| && w.linked && w.up == [] && w.d == TakeAll(d, PageMessages(n, pages)[..k]) && w.down == PageMessages(n, pages)[k..]
    ensures var w1 := Next(w, DeviceTakes(true));
      && w1 == w.(d := TakeAll(d, PageMessages(n, pages)[..k + 1]), down := PageMessages(n, pages)[k + 1..], up := w1.up)
      && (k + 1 < |pages| ==> w1.up == [])
      && (k + 1 == |pages| ==> w1.d == Device(true, n, Listing(Flat(pages)), None) && w1.up == [Ack(true, n, true, false)])
  {
    var ms := PageMessages(n, pages);
    assert ms[..k + 1][..k] == ms[..k] && ms[..k + 1][k] == ms[k] == w.down[0];
    assert w.down[1..] == ms[k + 1..];
    PagesStage(d, n, pages, k + 1);
    if k > 0 {
      PagesStage(d, n, pages, k);
    }
    assert pages[..|pages|] == pages;
  }

  lemma {:induction false} AcksTaken(w: World) returns (c: Controller)
    requires w.c.acked <= w.c.sequence
    ensures AfterAcks(w, c) && Reaches(w, Times(TakeAck, |w.up|), w.(c := c, up := []))
    decreases |w.up|
  {
    if w.up == [] {
      c := w.c;
      assert w.(c := c, up := []) == w;
    } else {
      var w1 := Next(w, TakeAck);
      c := AcksTaken(w1);
      AckBefore(w, c);
      assert w1.(c := c, up := []) == w.(c := c, up := []);
      Then(w, TakeAck, Times(TakeAck, |w.up| - 1), w.(c := c, up := []));
    }
  }

  lemma {:induction false} AckIs(c: Controller, a: Ack)
    requires c.acked <= c.sequence
    ensures var u := OnAck(c, a);
      u == c.(acked := u.acked, valid := c.valid && !a.needSnapshot) && c.acked <= u.acked <= c.sequence
  {
  }

  lemma {:induction false} AckBefore(w: World, c: Controller)
    requires w.up != [] && w.c.acked <= w.c.sequence && AfterAcks(Next(w, TakeAck), c)
    ensures AfterAcks(w, c)
  {
    var w1 := Next(w, TakeAck);
    AckIs(w.c, w.up[0]);
    assert forall i :: 0 <= i < |w1.up| ==> w1.up[i] == w.up[i + 1];
    if i :| 0 <= i < |w.up| && w.up[i].needSnapshot {
      if i > 0 {
        assert w1.up[i - 1].needSnapshot;
      }
    }
  }

  /** Acks move the acknowledged number and nothing else, but that any that asks for a snapshot loses the view. */
  ghost predicate AfterAcks(w: World, c: Controller) {
    && c == w.c.(acked := c.acked, valid := c.valid) && c.acked <= c.sequence && (c.valid ==> w.c.valid)
    && ((exists i :: 0 <= i < |w.up| && w.up[i].needSnapshot) ==> !c.valid)
  }

  // ---- a snapshot ----

  predicate SnapshotOf(c: Controller, pages: seq<seq<(Oid, Entry)>>) {
    pages != [] && Listing(Flat(pages)) == Fresh(c.live, c.live.Keys, c.sequence + 1)
  }

  /** Nothing under way between an endpoint that may deliver and its device. */
  predicate Still(w: World) {
    w.linked && w.c.online && w.c.materialized && w.outbox == [] && w.down == [] && w.up == [] && w.c.acked <= w.c.sequence
  }

  /** The endpoint and its device agree on what is live, acknowledged and armed. */
  predicate Settled(w: World) {
    && Quiet(w) && ShowsLive(w.c) && w.d.cache == w.c.delivered - w.erased
    && forall oid :: oid in w.c.live ==> Armed(w.c, {oid.schedule})
  }

  /** Every delivered occurrence's schedule has the number of its last change. */
  ghost predicate Dated(c: Controller) {
    forall oid :: oid in c.delivered ==> oid.schedule in c.scheduleRev && c.scheduleRev[oid.schedule] <= c.sequence
  }

  lemma {:induction false} SnapshotDates(c: Controller)
    ensures Dated(SnapshotState(c))
  {
    var u := SnapshotState(c);
    forall oid | oid in u.delivered
      ensures oid.schedule in u.scheduleRev && u.scheduleRev[oid.schedule] <= u.sequence
    {
      assert oid in c.live.Keys + Removed(c);
      assert oid.schedule in Schedules(c.live.Keys + Removed(c));
    }
  }

  lemma {:induction false} DeltaDates(c: Controller)
    requires Dated(c)
    ensures Dated(DeltaState(c))
  {
    var u := DeltaState(c);
    forall oid | oid in u.delivered
      ensures oid.schedule in u.scheduleRev && u.scheduleRev[oid.schedule] <= u.sequence
    {
      if oid in Changed(c) {
        assert oid.schedule in Schedules(Changed(c) + Removed(c));
      }
    }
  }

  lemma {:induction false} StepDates(w: World, e: Event)
    requires Dated(w.c) && Enabled(w, e)
    ensures Dated(Next(w, e).c)
  {
    match e
    case Deliver(_, _) =>
      SnapshotDates(w.c);
      DeltaDates(w.c);
    case _ => OtherDates(w, e);
  }

  lemma {:induction false} OtherDates(w: World, e: Event)
    requires Enabled(w, e) && !e.Deliver?
    ensures SameDates(w.c, Next(w, e).c)
  {
    match e
    case TakeAck => AckDates(w.c, w.up[0]);
    case DeviceTakes(_) =>
    case SessionHello => HelloDates(w.c, w.d.ours, w.d.acked);
    case _ => ControllerDates(w, e);
  }

  predicate SameDates(c: Controller, c': Controller) {
    c'.delivered == map[] || (c'.delivered == c.delivered && c'.scheduleRev == c.scheduleRev && c.sequence <= c'.sequence)
  }

  lemma {:induction false} AckDates(c: Controller, a: Ack)
    ensures SameDates(c, OnAck(c, a))
  {
  }

  lemma {:induction false} HelloDates(c: Controller, ours: bool, acked: nat)
    ensures SameDates(c, Hello(c, ours, acked))
  {
  }

  lemma {:induction false} ControllerDates(w: World, e: Event)
    requires Enabled(w, e) && !e.Deliver? && !e.TakeAck? && !e.DeviceTakes? && !e.SessionHello?
    ensures SameDates(w.c, Next(w, e).c)
  {
  }

  lemma {:induction false} RunDates(w: World, es: seq<Event>, v: World)
    requires Dated(w.c) && Reaches(w, es, v)
    ensures Dated(v.c)
    decreases es
  {
    if es != [] {
      StepDates(w, es[0]);
      RunDates(Next(w, es[0]), es[1..], v);
    }
  }

  function SnapshotRun(pages: seq<seq<(Oid, Entry)>>): seq<Event> {
    [Deliver(pages, [])] + (Times(Send, |pages|) + (Times(DeviceTakes(true), |pages|) + [TakeAck]))
  }

  /** A lost view is made good by one delivery: whatever the device held, the snapshot's pages, sent,
      taken and acknowledged, leave it with exactly what is live. */
  lemma {:induction false} SnapshotRecovers(w: World, pages: seq<seq<(Oid, Entry)>>) returns (v: World)
    requires Still(w) && !w.c.valid && SnapshotOf(w.c, pages)
    ensures Reaches(w, SnapshotRun(pages), v) && Settled(v) && v.erased == {} && v.c.live == w.c.live && v.c.sequence == w.c.sequence + 1
  {
    var n := w.c.sequence + 1;
    var w1 := SnapshotGoesOut(w, pages);
    v := SnapshotTaken(w1, n, pages);
    Then(w, Deliver(pages, []), Times(Send, |pages|) + (Times(DeviceTakes(true), |pages|) + [TakeAck]), v);
    SnapshotDates(w.c);
    SnapshotSettles(v);
  }

  lemma {:induction false} SnapshotGoesOut(w: World, pages: seq<seq<(Oid, Entry)>>) returns (w1: World)
    requires Still(w) && !w.c.valid && SnapshotOf(w.c, pages)
    ensures Enabled(w, Deliver(pages, [])) && w1 == Next(w, Deliver(pages, []))
    ensures w1 == w.(c := SnapshotState(w.c), outbox := PageMessages(w.c.sequence + 1, pages), log := w1.log, pages := w1.pages, erased := {})
  {
    w1 := Next(w, Deliver(pages, []));
  }

  /** The pages, on their way to any device, are sent, taken and acknowledged. */
  lemma {:induction false} SnapshotTaken(w: World, n: nat, pages: seq<seq<(Oid, Entry)>>) returns (v: World)
    requires pages != [] && w.linked && w.outbox == PageMessages(n, pages) && w.down == [] && w.up == [] && w.c.acked <= w.c.sequence == n
    ensures Reaches(w, Times(Send, |pages|) + (Times(DeviceTakes(true), |pages|) + [TakeAck]), v)
    ensures v == w.(c := w.c.(acked := n), d := Device(true, n, Listing(Flat(pages)), None), outbox := [])
  {
    var ms := PageMessages(n, pages);
    AllSent(w);
    var w2 := w.(outbox := [], down := w.down + w.outbox);
    assert w2.down == ms[0..] && TakeAll(w.d, ms[..0]) == w.d;
    PagesTaken(w2, w.d, n, pages, 0);
    var w3 := w2.(d := Device(true, n, Listing(Flat(pages)), None), down := [], up := [Ack(true, n, true, false)]);
    v := LastAck(w3, n);
    Joined(w2, Times(DeviceTakes(true), |pages|), w3, [TakeAck], v);
    Joined(w, Times(Send, |pages|), w2, Times(DeviceTakes(true), |pages|) + [TakeAck], v);
  }

  lemma {:induction false} LastAck(w: World, n: nat) returns (v: World)
    requires w.up == [Ack(true, n, true, false)] && w.c.acked <= n <= w.c.sequence
    ensures v == w.(c := w.c.(acked := n), up := []) && Reaches(w, [TakeAck], v)
  {
    v := Next(w, TakeAck);
    Then(w, TakeAck, [], v);
    assert [TakeAck] + [] == [TakeAck];
  }

  lemma {:induction false} SnapshotSettles(v: World)
    requires v.linked && v.outbox == [] && v.down == [] && v.up == [] && v.c.online && v.c.valid
    requires v.c.delivered == Fresh(v.c.live, v.c.live.Keys, v.c.sequence)
    requires v.d.ours && v.d.acked == v.c.acked == v.c.sequence && v.d.cache == v.c.delivered && v.erased == {} && Dated(v.c)
    ensures Settled(v)
  {
    assert Changed(v.c) == {} && Removed(v.c) == {};
  }

  /** A device that asks for a snapshot gets one: when the waiting acks are read the view is given up, and
      the next delivery brings exactly what is live. */
  lemma {:induction false} AskedIsAnswered(w: World, pages: seq<seq<(Oid, Entry)>>) returns (v: World)
    requires w.linked && w.c.online && w.c.materialized && w.outbox == [] && w.down == [] && w.c.acked <= w.c.sequence
    requires (exists i :: 0 <= i < |w.up| && w.up[i].needSnapshot) && SnapshotOf(w.c, pages)
    ensures Reaches(w, Times(TakeAck, |w.up|) + SnapshotRun(pages), v) && Settled(v) && v.erased == {} && v.c.live == w.c.live
  {
    var c := AcksTaken(w);
    v := SnapshotRecovers(w.(c := c, up := []), pages);
    Joined(w, Times(TakeAck, |w.up|), w.(c := c, up := []), SnapshotRun(pages), v);
  }

  // ---- a delta ----

  function DeltaRun(objects: seq<Obj>): seq<Event> { [Deliver([], objects)] + [Send, DeviceTakes(true), TakeAck] }

  /** A change is made good by one delta, to a device that is up to date. */
  lemma {:induction false} DeltaCatchesUp(w: World, objects: seq<Obj>) returns (v: World)
    requires Inv(w) && Dated(w.c) && Still(w) && w.d.ours && w.d.acked == w.c.sequence && PlanOf(w.c) == SendDelta && SaysDelta(w.c, objects)
    ensures Reaches(w, DeltaRun(objects), v) && Settled(v) && v.erased <= w.erased && v.c.live == w.c.live && v.c.sequence == w.c.sequence + 1
  {
    var w1 := DeltaIssued(w, objects);
    v := DeltaTaken(w1, w.c.sequence + 1, objects);
    Then(w, Deliver([], objects), [Send, DeviceTakes(true), TakeAck], v);
    DeltaEnds(w, w1, v, objects);
  }

  lemma {:induction false} DeltaEnds(w: World, w1: World, v: World, objects: seq<Obj>)
    requires Dated(w.c) && PlanOf(w.c) == SendDelta && SaysDelta(w.c, objects) && w.erased <= w.c.delivered.Keys
    requires w.linked && w.down == [] && w.up == [] && w.d.ours && w.d.cache == w.c.delivered - w.erased
    requires w1 == w.(c := DeltaState(w.c), outbox := [Delta(w.c.sequence + 1, objects)], log := w1.log, erased := w.erased - Changed(w.c) - Removed(w.c))
    requires var n := w.c.sequence + 1;
      v == w1.(c := w1.c.(acked := n), d := w1.d.(acked := n, cache := ApplyObjects(w1.d.cache, objects)), outbox := [])
    ensures Settled(v) && v.erased <= w.erased
  {
    DeltaApplies(w.c, w.erased, objects);
    DeltaDates(w.c);
    DeltaSettles(w, v);
  }

  lemma {:induction false} DeltaIssued(w: World, objects: seq<Obj>) returns (w1: World)
    requires Inv(w) && Still(w) && w.d.ours && w.d.acked == w.c.sequence && PlanOf(w.c) == SendDelta && SaysDelta(w.c, objects)
    ensures Enabled(w, Deliver([], objects)) && w1 == Next(w, Deliver([], objects))
    ensures w1 == w.(c := DeltaState(w.c), outbox := [Delta(w.c.sequence + 1, objects)], log := w1.log, erased := w.erased - Changed(w.c) - Removed(w.c))
    ensures w.d.cache == w.c.delivered - w.erased && w.erased <= w.c.delivered.Keys
  {
    w1 := Next(w, Deliver([], objects));
    DeltaGoesOut(w, objects);
    HeldByDevice(w);
  }

  lemma {:induction false} DeltaGoesOut(w: World, objects: seq<Obj>)
    requires Still(w) && PlanOf(w.c) == SendDelta && SaysDelta(w.c, objects)
    ensures Enabled(w, Deliver([], objects))
    ensures var w1 := Next(w, Deliver([], objects));
      w1 == w.(c := DeltaState(w.c), outbox := [Delta(w.c.sequence + 1, objects)], log := w1.log, erased := w.erased - Changed(w.c) - Removed(w.c))
  {
  }

  lemma {:induction false} HeldByDevice(w: World)
    requires Inv(w) && Still(w) && w.d.ours && w.d.acked == w.c.sequence && PlanOf(w.c) == SendDelta
    ensures w.d.cache == w.c.delivered - w.erased && w.erased <= w.c.delivered.Keys
  {
  }

  lemma {:induction false} DeltaTaken(w: World, n: nat, objects: seq<Obj>) returns (v: World)
    requires w.linked && w.outbox == [Delta(n, objects)] && w.down == [] && w.up == [] && w.d.ours && n == w.d.acked + 1 == w.c.sequence
    requires w.c.acked <= n
    ensures Reaches(w, [Send, DeviceTakes(true), TakeAck], v)
    ensures v == w.(c := w.c.(acked := n), d := w.d.(acked := n, cache := ApplyObjects(w.d.cache, objects)), outbox := [])
  {
    var w1 := Next(w, Send);
    assert w1.down == [Delta(n, objects)];
    v := Next(Next(w1, DeviceTakes(true)), TakeAck);
    SentAndTaken(w, v);
  }

  lemma {:induction false} DeltaSettles(w: World, v: World)
    requires PlanOf(w.c) == SendDelta && v.c == DeltaState(w.c).(acked := w.c.sequence + 1) && v.linked && v.outbox == [] && v.down == [] && v.up == []
    requires Dated(v.c) && v.d.ours && v.d.acked == v.c.sequence && v.erased == w.erased - Changed(w.c) - Removed(w.c) && v.d.cache == v.c.delivered - v.erased
    ensures Settled(v)
  {
    assert Changed(v.c) == {} && Removed(v.c) == {};
  }

  // ---- a hello ----

  /** After a hello the endpoint knows what its device has acknowledged: nothing is sent again to one that
      has applied the last message, and a schedule that it covers is armed; any other is not trusted. */
  lemma {:induction false} HelloKnows(w: World)
    requires Inv(w) && w.outbox == []
    ensures var v := Next(w, SessionHello);
      && Inv(v) && v.linked && v.c.online && v.down == [] && v.up == []
      && (v.c.valid <==> w.c.valid && w.d.ours && w.d.acked == w.c.sequence)
      && (w.d.ours ==> v.c.acked == w.d.acked)
      && (v.c.valid ==> forall s :: s in w.c.scheduleRev ==> Armed(v.c, {s}))
  {
    HelloKeeps(w);
  }

  // ---- from anywhere ----

  lemma {:induction false} SomePage(cache: Cache) returns (page: seq<(Oid, Entry)>)
    ensures Listing(page) == cache
    decreases |cache|
  {
    if cache == map[] {
      page := [];
    } else {
      var oid :| oid in cache;
      var rest := cache - {oid};
      assert |rest| < |cache| by {
        assert rest.Keys == cache.Keys - {oid};
      }
      var before := SomePage(rest);
      page := before + [(oid, cache[oid])];
      assert page[..|before|] == before;
    }
  }

  lemma {:induction false} SomePuts(c: Controller, oids: set<Oid>) returns (os: seq<Obj>)
    requires oids <= c.live.Keys
    ensures forall o :: o in os ==> o.Put? && o.oid in oids && o.entry == Entry(c.live[o.oid], c.sequence + 1)
    ensures forall oid :: oid in oids ==> Put(oid, Entry(c.live[oid], c.sequence + 1)) in os
    decreases |oids|
  {
    os := [];
    if oids != {} {
      var oid :| oid in oids;
      var before := SomePuts(c, oids - {oid});
      os := before + [Put(oid, Entry(c.live[oid], c.sequence + 1))];
    }
  }

  lemma {:induction false} SomeTombstones(oids: set<Oid>) returns (os: seq<Obj>)
    ensures forall o :: o in os ==> o.Tombstone? && o.oid in oids
    ensures forall oid :: oid in oids ==> Tombstone(oid) in os
    decreases |oids|
  {
    os := [];
    if oids != {} {
      var oid :| oid in oids;
      var before := SomeTombstones(oids - {oid});
      os := before + [Tombstone(oid)];
    }
  }

  lemma {:induction false} SomeDelta(c: Controller) returns (os: seq<Obj>)
    ensures SaysDelta(c, os)
  {
    var puts := SomePuts(c, Changed(c));
    var gone := SomeTombstones(Removed(c));
    os := puts + gone;
    assert forall i :: 0 <= i < |os| ==> os[i] in puts || os[i] in gone;
  }

  lemma {:induction false} IdleIsSettled(w: World)
    requires Inv(w) && Dated(w.c) && Still(w) && w.c.valid && w.d.ours && w.d.acked == w.c.acked == w.c.sequence && PlanOf(w.c) == Idle
    ensures Settled(w)
  {
    assert Changed(w.c) + Removed(w.c) == {};
    assert forall oid :: oid in w.c.live ==> oid !in Changed(w.c);
    assert forall oid :: oid in w.c.delivered ==> oid !in Removed(w.c);
  }

  /** One delivery settles every still world, by a snapshot, a delta or nothing. */
  lemma {:induction false} StillSettles(w: World) returns (es: seq<Event>, v: World)
    requires Inv(w) && Dated(w.c) && Still(w) && (w.c.valid ==> w.d.ours && w.d.acked == w.c.acked == w.c.sequence)
    ensures Reaches(w, es, v) && Settled(v) && v.c.live == w.c.live && v.erased <= w.erased && (!w.c.valid ==> v.erased == {})
  {
    if !w.c.valid {
      var page := SomePage(Fresh(w.c.live, w.c.live.Keys, w.c.sequence + 1));
      OnePage(page);
      es := SnapshotRun([page]);
      v := SnapshotRecovers(w, [page]);
    } else if PlanOf(w.c) == SendDelta {
      var objects := SomeDelta(w.c);
      es := DeltaRun(objects);
      v := DeltaCatchesUp(w, objects);
    } else {
      es, v := [], w;
      IdleIsSettled(w);
    }
  }

  lemma {:induction false} GivesUpSending(w: World) returns (es: seq<Event>, v: World)
    requires Inv(w)
    ensures Reaches(w, es, v) && Inv(v) && v.outbox == [] && v.c == w.c.(valid := v.c.valid) && v.erased == w.erased
  {
    es, v := [], w;
    if w.outbox != [] {
      es, v := [SendFails(false)], Next(w, SendFails(false));
      SendFailKeeps(w, false);
      Then(w, SendFails(false), [], v);
      assert [SendFails(false)] + [] == es;
    }
  }

  /** From every reachable world whose endpoint has had a push: a new session settles it, whatever was lost,
      half sent or forgotten before. */
  lemma {:induction false} EveryWorldSettles(w: World, es: seq<Event>, v: World) returns (more: seq<Event>, u: World)
    requires Start(w) && Reaches(w, es, v) && v.c.materialized
    ensures Reaches(v, more, u) && Settled(u) && u.c.live == v.c.live && u.erased <= v.erased
  {
    StartHolds(w);
    RunKeeps(w, es, v);
    RunDates(w, es, v);
    var first, v1 := GivesUpSending(v);
    HelloKnows(v1);
    var v2 := Next(v1, SessionHello);
    more, u := StillSettles(v2);
    Then(v1, SessionHello, more, u);
    Joined(v, first, v1, [SessionHello] + more, u);
    more := first + ([SessionHello] + more);
  }
}
