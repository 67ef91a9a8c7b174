/** Journal and delivery of one endpoint together (controller/em_alerts.py): what becomes live on a push is
    what is delivered, so that no handled alarm is armed again. */
module Rearming {
  import opened Basics
  import opened JournalSpec
  import J = JournalProtocol
  import opened RestoreGuard
  import opened AlertJournals
  import opened DeliverySpec
  import D = DeliveryProtocol
  import U = Unhidden

  function Oids(view: set<Occ>): set<Oid> { set o | o in view :: Oid(o.sid, o.key) }

  function AlarmOids(alarms: seq<Alarm>): set<Oid> { set i | 0 <= i < |alarms| :: Oid(alarms[i].sid, alarms[i].key) }

  /** The events of a push are the view's occurrences. */
  predicate ShowsView(events: seq<Alarm>, view: set<Occ>) { AlarmOids(events) == Oids(view) }

  lemma InView(alarms: seq<Alarm>, a: Alarm)
    requires a in alarms
    ensures Oid(a.sid, a.key) in AlarmOids(alarms)
  {
    var i :| 0 <= i < |alarms| && alarms[i] == a;
  }

  /** What the endpoint makes live of a push, guarded by the journal's table and capped, is part of what the
      protocol calls live, and all of it below the cap. */
  lemma LiveIsWithin(table: seq<Stored>, events: seq<Alarm>, view: set<Occ>)
    requires ShowsView(events, view)
    ensures AlarmOids(LiveOf(Terminals(table), events)) <= Oids(Unhandled(RowsOf(table), StatesOf(table), view))
    ensures |Kept(Terminals(table), events)| <= MAX_OCCURRENCES ==>
      AlarmOids(LiveOf(Terminals(table), events)) == Oids(Unhandled(RowsOf(table), StatesOf(table), view))
  {
    var live, unhandled := LiveOf(Terminals(table), events), Unhandled(RowsOf(table), StatesOf(table), view);
    forall oid | oid in AlarmOids(live)
      ensures oid in Oids(unhandled)
    {
      var i :| 0 <= i < |live| && Oid(live[i].sid, live[i].key) == oid;
      LiveIsUnhandled(Terminals(table), events, live[i]);
      GuardIsHandled(table, live[i].sid, live[i].key);
      InView(events, live[i]);
      var o :| o in view && Oid(o.sid, o.key) == oid;
      assert o in unhandled;
    }
    if |Kept(Terminals(table), events)| <= MAX_OCCURRENCES {
      forall oid | oid in Oids(unhandled)
        ensures oid in AlarmOids(live)
      {
        var o :| o in unhandled && Oid(o.sid, o.key) == oid;
        assert oid in AlarmOids(events);
        var i :| 0 <= i < |events| && Oid(events[i].sid, events[i].key) == oid;
        GuardIsHandled(table, events[i].sid, events[i].key);
        UnhandledIsLive(Terminals(table), events, events[i]);
        InView(live, events[i]);
      }
    }
  }

  /** The table's first pending row is the protocol's `done`. */
  lemma {:induction false} NextPendingIsDone(w: J.World, table: seq<Stored>, at: Option<nat>)
    requires J.Inv(w) && StatesOf(table) == w.states && FirstPending(table, at)
    ensures at == if w.done < |w.rows| then Some(w.done) else None
  {
    forall i | 0 <= i < |table|
      ensures table[i].state == w.states[i] && (table[i].state.Pending? <==> w.done <= i)
    {
      assert StatesOf(table)[i] == table[i].state;
    }
    if w.done < |table| {
      assert table[w.done].state.Pending?;
    }
  }

  // ---- both protocols, side by side ----

  datatype Engine = Engine(j: J.World, d: D.World)

  /** A push changes both at once, and a crash does; a snooze that was rejected, or waits to, sends its
      device's child a tombstone; every other step is one protocol's own. */
  datatype Step =
    | Journals(event: J.Event)
    | Delivers(message: D.Event)
    | Pushed(live: map<Oid, int>)
    | Disowns(row: nat, child: Oid)
    | Crashed

  /** What the device calls a snooze's child: the child's own identity, unless it derived another. */
  predicate ChildOf(r: Row, child: Oid) {
    r.action.Snooze? && (!r.stray && r.event.Some? ==> child.schedule == r.event.value.sid && child.key in r.event.value.keys)
  }

  ghost predicate Enabled(w: Engine, s: Step)
    requires J.Inv(w.j)
  {
    match s
    case Journals(e) => J.Enabled(w.j, e) && !e.TakePush? && !e.Crash?
    case Delivers(e) => D.Enabled(w.d, e) && !e.Push? && !e.Restart?
    case Pushed(live) => w.j.pipe != [] && live.Keys <= Oids(Unhandled(w.j.rows, w.j.states, w.j.pipe[0]))
    case Disowns(i, child) =>
      && i < |w.j.rows| && (w.j.states[i].Rejected? || (w.j.pc.Sending? && w.j.done == i))
      && ChildOf(w.j.rows[i], child) && D.Enabled(w.d, D.SendTombstones([child]))
    case Crashed => true
  }

  ghost function Next(w: Engine, s: Step): Engine
    requires J.Inv(w.j) && Enabled(w, s)
  {
    match s
    case Journals(e) => w.(j := J.Next(w.j, e))
    case Delivers(e) => w.(d := D.Next(w.d, e))
    case Pushed(live) => Engine(J.Next(w.j, J.TakePush), D.Next(w.d, D.Push(live)))
    case Disowns(_, child) => w.(d := D.Next(w.d, D.SendTombstones([child])))
    case Crashed => Engine(J.Next(w.j, J.Crash), D.Next(w.d, D.Restart))
  }

  ghost predicate Holds(w: Engine) {
    J.Inv(w.j) && D.Inv(w.d) && w.d.c.live.Keys <= Oids(w.j.live)
  }

  /** A journal step other than a push or a crash leaves what is live alone. */
  lemma {:induction false} LiveStays(w: J.World, e: J.Event)
    requires J.Inv(w) && J.Enabled(w, e) && !e.TakePush? && !e.Crash?
    ensures J.Next(w, e).live == w.live
  {
  }

  lemma {:induction false} DeliveryLeavesLive(w: D.World, e: D.Event)
    requires D.Inv(w) && D.Enabled(w, e) && !e.Push? && !e.Restart?
    ensures D.Next(w, e).c.live == w.c.live
  {
  }

  lemma {:induction false} PushHolds(w: Engine, live: map<Oid, int>)
    requires Holds(w) && Enabled(w, Pushed(live))
    ensures Holds(Next(w, Pushed(live)))
  {
    J.StepKeeps(w.j, J.TakePush);
    D.StepKeeps(w.d, D.Push(live));
  }

  lemma {:induction false} DeliveryHolds(w: Engine, e: D.Event)
    requires Holds(w) && D.Enabled(w.d, e) && !e.Push? && !e.Restart?
    ensures Holds(w.(d := D.Next(w.d, e)))
  {
    D.StepKeeps(w.d, e);
    DeliveryLeavesLive(w.d, e);
  }

  lemma {:induction false} StepHolds(w: Engine, s: Step)
    requires Holds(w) && Enabled(w, s)
    ensures Holds(Next(w, s))
  {
    match s
    case Journals(e) =>
      J.StepKeeps(w.j, e);
      LiveStays(w.j, e);
    case Delivers(e) => DeliveryHolds(w, e);
    case Pushed(live) => PushHolds(w, live);
    case Disowns(_, child) => DeliveryHolds(w, D.SendTombstones([child]));
    case Crashed =>
      J.StepKeeps(w.j, J.Crash);
      D.StepKeeps(w.d, D.Restart);
  }

  ghost predicate Reaches(w: Engine, steps: seq<Step>, v: Engine)
    requires Holds(w)
    decreases steps
  {
    if steps == [] then v == w
    else Enabled(w, steps[0]) && (StepHolds(w, steps[0]); Reaches(Next(w, steps[0]), steps[1..], v))
  }

  /** While a snooze with a stray child is pending the pushes show the whole window. */
  ghost predicate AllWhole(w: Engine, steps: seq<Step>)
    requires Holds(w)
    decreases steps
  {
    steps == [] ||
    (Enabled(w, steps[0]) && (steps[0].Journals? ==> U.Whole(w.j, steps[0].event))
      && (StepHolds(w, steps[0]); AllWhole(Next(w, steps[0]), steps[1..])))
  }

  lemma {:induction false} RunHolds(w: Engine, steps: seq<Step>, v: Engine)
    requires Holds(w) && Reaches(w, steps, v)
    ensures Holds(v)
    decreases steps
  {
    if steps != [] {
      StepHolds(w, steps[0]);
      RunHolds(Next(w, steps[0]), steps[1..], v);
    }
  }

  lemma {:induction false} StepGone(w: Engine, s: Step)
    requires Holds(w) && U.Gone(w.j) && Enabled(w, s) && (s.Journals? ==> U.Whole(w.j, s.event))
    ensures U.Gone(Next(w, s).j)
  {
    match s
    case Journals(e) => U.StepGone(w.j, e);
    case Pushed(_) => U.StepGone(w.j, J.TakePush);
    case Crashed => U.StepGone(w.j, J.Crash);
    case _ =>
  }

  lemma {:induction false} RunGone(w: Engine, steps: seq<Step>, v: Engine)
    requires Holds(w) && U.Gone(w.j) && Reaches(w, steps, v) && AllWhole(w, steps)
    ensures U.Gone(v.j)
    decreases steps
  {
    if steps != [] {
      StepHolds(w, steps[0]);
      StepGone(w, steps[0]);
      RunGone(Next(w, steps[0]), steps[1..], v);
    }
  }

  ghost predicate Start(w: Engine) { J.Start(w.j) && D.Start(w.d) }

  lemma StartHolds(w: Engine)
    requires Start(w)
    ensures Holds(w)
  {
    J.StartHolds(w.j);
    D.StartHolds(w.d);
  }

  /** Row i has been applied and has dealt with the occurrence, over a run that shows a stray snooze the
      whole window. */
  ghost predicate DealtWith(w: Engine, steps: seq<Step>, v: Engine, i: nat, oid: Oid)
    requires Holds(w)
  {
    && |v.j.rows| == |v.j.states| && i < |v.j.rows| && v.j.states[i].Applied?
    && Handles(v.j.rows[i], oid.schedule, oid.key) && (J.Strays(v.j.rows[i]) ==> AllWhole(w, steps))
  }

  lemma {:induction false} LiveIsNotDealtWith(w: Engine, steps: seq<Step>, v: Engine, i: nat, oid: Oid)
    requires Start(w) && Holds(w) && Reaches(w, steps, v) && DealtWith(w, steps, v, i, oid)
    ensures oid !in v.d.c.live
  {
    RunHolds(w, steps, v);
    if J.Strays(v.j.rows[i]) {
      RunGone(w, steps, v);
    }
    forall o | o in v.j.live
      ensures Oid(o.sid, o.key) != oid
    {
      assert !Handles(v.j.rows[i], o.sid, o.key);
    }
  }

  /** Whatever both protocols went through, what a delivery to an online device leaves delivered, and so
      arms, holds no occurrence that an applied operation has dealt with. */
  lemma {:induction false} DeliveryArmsNothingHandled(w: Engine, steps: seq<Step>, v: Engine, i: nat, oid: Oid)
    requires Start(w) && Holds(w) && Reaches(w, steps, v) && DealtWith(w, steps, v, i, oid) && v.d.c.online
    ensures oid !in Delivered(v.d.c).delivered
  {
    LiveIsNotDealtWith(w, steps, v, i, oid);
    D.DeliveredIsLive(v.d.c, oid);
  }

  /** A device with nothing left to be sent to it holds only what is live: nothing handled rings. */
  lemma {:induction false} SettledDeviceHoldsNothingHandled(w: Engine, steps: seq<Step>, v: Engine, oid: Oid)
    requires Start(w) && Holds(w) && Reaches(w, steps, v)
    requires v.d.c.online && v.d.c.valid && PlanOf(v.d.c).Idle? && v.d.d.ours && v.d.d.acked == v.d.c.sequence
    requires oid in v.d.d.cache
    ensures oid in v.d.c.live && forall i :: !DealtWith(w, steps, v, i, oid)
  {
    RunHolds(w, steps, v);
    assert oid in v.d.c.delivered;
    D.DeliveredIsLive(v.d.c, oid);
    forall i | DealtWith(w, steps, v, i, oid)
      ensures false
    {
      LiveIsNotDealtWith(w, steps, v, i, oid);
    }
  }
}
