/** A snooze that fails after its child was shown and delivered (controller/em_alerts.py, `_reject`): over
    journal and delivery together, its tombstone takes the delivered child from the device. */
module Disowned {
  import opened Basics
  import opened JournalSpec
  import J = JournalProtocol
  import opened DeliverySpec
  import D = DeliveryProtocol
  import opened Rearming

  // ---- runs of one protocol are runs of both ----

  lemma {:induction false} Joined(w: Engine, steps: seq<Step>, v: Engine, more: seq<Step>, u: Engine)
    requires Holds(w) && Reaches(w, steps, v) && Holds(v) && Reaches(v, more, u)
    ensures Reaches(w, steps + more, u)
    decreases steps
  {
    if steps == [] {
      assert steps + more == more;
    } else {
      StepHolds(w, steps[0]);
      assert (steps + more)[0] == steps[0] && (steps + more)[1..] == steps[1..] + more;
      Joined(Next(w, steps[0]), steps[1..], v, more, u);
    }
  }

  lemma {:induction false} OneStep(w: Engine, s: Step)
    requires Holds(w) && Enabled(w, s)
    ensures Holds(Next(w, s)) && Reaches(w, [s], Next(w, s))
  {
    StepHolds(w, s);
    assert [s][1..] == [] && [s][0] == s;
  }

  /** The run goes on by one step. */
  lemma {:induction false} Goes(w: Engine, steps: seq<Step>, v: Engine, s: Step) returns (more: seq<Step>, u: Engine)
    requires Holds(w) && Reaches(w, steps, v) && Holds(v) && Enabled(v, s)
    ensures u == Next(v, s) && Holds(u) && Reaches(w, more, u)
  {
    OneStep(v, s);
    more, u := steps + [s], Next(v, s);
    Joined(w, steps, v, [s], u);
  }

  predicate Plain(es: seq<D.Event>) { forall i :: 0 <= i < |es| ==> !es[i].Push? && !es[i].Restart? }

  /** And by a run of the delivery. */
  lemma {:induction false} Sends(w: Engine, steps: seq<Step>, v: Engine, es: seq<D.Event>, d: D.World) returns (more: seq<Step>, u: Engine)
    requires Holds(w) && Reaches(w, steps, v) && Holds(v) && D.Reaches(v.d, es, d) && Plain(es)
    ensures u == v.(d := d) && Holds(u) && Reaches(w, more, u)
    decreases es
  {
    more, u := steps, v;
    if es != [] {
      more, u := Goes(w, steps, v, Delivers(es[0]));
      more, u := Sends(w, more, u, es[1..], d);
    }
  }

  // ---- the failure ----

  /** The steps in which a snooze that has shown its child fails. */
  predicate Fails(e: J.Event) { e.GivesUp? || (e.Deletes? && e.reply.Refused?) }

  lemma {:induction false} FailureRejects(w: J.World, e: J.Event)
    requires J.Inv(w) && Fails(e) && J.Enabled(w, e) && w.done < |w.rows|
    ensures var v := J.Next(w, e); v.rows == w.rows && |v.states| == |w.rows| && v.states[w.done].Rejected?
  {
  }

  /** From every world in which a snooze fails while its device is quiet and holds the child: the row is
      rejected, its tombstone takes the child from the device, and the controller goes on holding it
      delivered and armed, with nothing left to send. */
  lemma {:induction false} FailedSnoozeDisowns(w: Engine, e: J.Event, child: Oid) returns (steps: seq<Step>, v: Engine)
    requires Holds(w) && Fails(e) && J.Enabled(w.j, e) && w.j.done < |w.j.rows|
    requires w.j.rows[w.j.done].action.Snooze? && ChildOf(w.j.rows[w.j.done], child)
    requires D.Quiet(w.d) && child in w.d.c.delivered && Armed(w.d.c, {child.schedule})
    ensures Reaches(w, steps, v) && |v.j.states| > w.j.done && v.j.states[w.j.done].Rejected?
    ensures D.Quiet(v.d) && child in v.d.c.delivered && child !in v.d.d.cache && Armed(v.d.c, {child.schedule})
  {
    FailureRejects(w.j, e);
    OneStep(w, Journals(e));
    steps, v := SendsTombstone(w, [Journals(e)], Next(w, Journals(e)), w.j.done, child);
  }

  lemma {:induction false} SendsTombstone(w: Engine, steps: seq<Step>, u: Engine, i: nat, child: Oid) returns (more: seq<Step>, v: Engine)
    requires Holds(w) && Reaches(w, steps, u) && Holds(u) && i < |u.j.rows| == |u.j.states| && u.j.states[i].Rejected? && ChildOf(u.j.rows[i], child)
    requires D.Quiet(u.d) && child in u.d.c.delivered && Armed(u.d.c, {child.schedule})
    ensures Reaches(w, more, v) && v.j == u.j
    ensures D.Quiet(v.d) && child in v.d.c.delivered && child !in v.d.d.cache && Armed(v.d.c, {child.schedule})
  {
    var d := D.TombstoneIsTaken(u.d, child);
    more, v := Goes(w, steps, u, Disowns(i, child));
    more, v := Sends(w, more, v, [D.Send, D.DeviceTakes(true), D.TakeAck], d);
  }

  // ---- a whole run to it ----

  /** An alarm, snoozed by a device that derived the same child. */
  predicate Snoozed(r: Row, parent: Occ, child: Occ) {
    && r.action.Snooze? && !r.stray && r.sid == parent.sid && r.key == Some(parent.key) && r.uid.None? && parent.op.None?
    && !parent.recurring && r.event.Some? && r.event.value.keys == {child.key} && !r.event.value.recurring
    && r.event.value.sid != r.sid && child == Occ(parent.uid + 1, r.event.value.sid, child.key, Some(r.op), false)
  }

  function Named(o: Occ): Oid { Oid(o.sid, o.key) }

  /** The journal's worlds on the way. */
  function Snoozing(r: Row, calendar: set<Occ>, uid: nat, step: nat, upToDate: bool, seen: set<Occ>, pipe: seq<set<Occ>>, pc: J.Stage,
      shown: set<int>): J.World {
    J.World([r], [Pending], 0, step, calendar, uid, calendar, true, upToDate, 0, 0, seen, seen, pipe, pc, shown)
  }

  lemma OneNamed(parent: Occ, child: Occ)
    ensures Oids({parent}) == {Named(parent)} && Oids({parent, child}) == {Named(parent), Named(child)}
  {
  }

  lemma {:induction false} ParentIsPushed(w: Engine, r: Row, parent: Occ, child: Occ, body: int) returns (steps: seq<Step>, v: Engine)
    requires Start(w) && Holds(w) && J.Enqueueable(w.j, r) && Snoozed(r, parent, child) && w.j.calendar == {parent} && w.j.nextUid == parent.uid + 1
    ensures Reaches(w, steps, v) && Holds(v)
    ensures v.j == Snoozing(r, {parent}, parent.uid + 1, 0, true, {parent}, [], J.Idle, {})
    ensures v.d == D.Next(w.d, D.Push(map[Named(parent) := body]))
  {
    OneStep(w, Journals(J.Enqueue(r)));
    steps, v := Goes(w, [Journals(J.Enqueue(r))], Next(w, Journals(J.Enqueue(r))), Journals(J.Connect(0, 0)));
    steps, v := Goes(w, steps, v, Journals(J.HaPushes({})));
    assert v.j == Snoozing(r, {parent}, parent.uid + 1, 0, false, {}, [{parent}], J.Idle, {}) by {
      assert {parent} - {} == {parent};
    }
    J.NothingHandled([r], [Pending], {parent});
    OneNamed(parent, child);
    steps, v := Goes(w, steps, v, Pushed(map[Named(parent) := body]));
  }

  lemma {:induction false} BeginsCreating(r: Row, parent: Occ, child: Occ)
    requires Snoozed(r, parent, child)
    ensures var w := Snoozing(r, {parent}, parent.uid + 1, 0, true, {parent}, [], J.Idle, {});
      J.Inv(w) ==> J.Enabled(w, J.Begin(None)) && J.Next(w, J.Begin(None)) == w.(pc := J.Creating)
  {
    assert parent in {parent} && FindsSchedule({parent}, r.sid) && !ByOp({parent}, r.op);
  }

  lemma {:induction false} CreatesChild(r: Row, parent: Occ, child: Occ)
    requires Snoozed(r, parent, child)
    ensures var w := Snoozing(r, {parent}, parent.uid + 1, 0, true, {parent}, [], J.Creating, {});
      && (J.Inv(w) ==> J.Enabled(w, J.Creates(true, J.Answered)))
      && (J.Inv(w) ==>
        J.Next(w, J.Creates(true, J.Answered)) == Snoozing(r, {parent, child}, parent.uid + 2, 1, true, {parent}, [], J.Showing, {}))
  {
    assert Made(parent.uid + 1, r.op, r.event.value) == {child} && {parent} + {child} == {parent, child};
  }

  lemma {:induction false} ChildIsMade(w: Engine, steps: seq<Step>, u: Engine, r: Row, parent: Occ, child: Occ) returns (more: seq<Step>, v: Engine)
    requires Holds(w) && Reaches(w, steps, u) && Holds(u) && Snoozed(r, parent, child)
    requires u.j == Snoozing(r, {parent}, parent.uid + 1, 0, true, {parent}, [], J.Idle, {})
    ensures Reaches(w, more, v) && Holds(v) && v.d == u.d
    ensures v.j == Snoozing(r, {parent, child}, parent.uid + 2, 1, true, {parent}, [{parent, child}], J.Showing, {})
  {
    BeginsCreating(r, parent, child);
    more, v := Goes(w, steps, u, Journals(J.Begin(None)));
    CreatesChild(r, parent, child);
    more, v := Goes(w, more, v, Journals(J.Creates(true, J.Answered)));
    assert {parent, child} - {} == {parent, child};
    more, v := Goes(w, more, v, Journals(J.HaPushes({})));
  }

  lemma PageOf(p: Oid, c: Oid, a: int, b: int)
    requires p != c
    ensures Listing([(p, Entry(a, 1)), (c, Entry(b, 1))]) == D.Stamped(map[p := a, c := b])
  {
    var page := [(p, Entry(a, 1)), (c, Entry(b, 1))];
    assert page[..1] == [(p, Entry(a, 1))] && page[..1][..0] == [];
    assert Listing(page[..1]) == map[p := Entry(a, 1)];
    assert (map[p := a, c := b]).Keys == {p, c};
  }

  lemma {:induction false} PushIsHailed(w: D.World, first: map<Oid, int>, live: map<Oid, int>)
    requires D.Start(w)
    ensures D.Hailed(D.Next(D.Next(D.Next(w, D.Push(first)), D.SessionHello), D.Push(live)), live)
  {
  }

  lemma {:induction false} ShowsChild(r: Row, parent: Occ, child: Occ)
    requires Snoozed(r, parent, child)
    ensures var w := Snoozing(r, {parent, child}, parent.uid + 2, 1, true, {parent}, [{parent, child}], J.Showing, {});
      && Oids(Unhandled(w.rows, w.states, w.pipe[0])) == {Named(parent), Named(child)}
      && (J.Inv(w) ==> J.Next(w, J.TakePush) == Snoozing(r, {parent, child}, parent.uid + 2, 1, true, {parent, child}, [], J.Showing, {}))
  {
    J.NothingHandled([r], [Pending], {parent, child});
    OneNamed(parent, child);
  }

  /** The device says hello, and a push shows the child. */
  lemma {:induction false} ChildIsShown(w: Engine, steps: seq<Step>, u: Engine, r: Row, parent: Occ, child: Occ, first: map<Oid, int>, body: int)
      returns (more: seq<Step>, v: Engine)
    requires Start(w) && Holds(w) && Reaches(w, steps, u) && Holds(u) && Snoozed(r, parent, child)
    requires u.j == Snoozing(r, {parent, child}, parent.uid + 2, 1, true, {parent}, [{parent, child}], J.Showing, {})
    requires u.d == D.Next(w.d, D.Push(first))
    ensures Reaches(w, more, v) && Holds(v) && D.Hailed(v.d, map[Named(parent) := body, Named(child) := body])
    ensures v.j == Snoozing(r, {parent, child}, parent.uid + 2, 1, true, {parent, child}, [], J.Showing, {})
  {
    PushIsHailed(w.d, first, map[Named(parent) := body, Named(child) := body]);
    more, v := Goes(w, steps, u, Delivers(D.SessionHello));
    more, v := BothArePushed(w, more, v, r, parent, child, map[Named(parent) := body, Named(child) := body]);
  }

  lemma {:induction false} BothArePushed(w: Engine, steps: seq<Step>, u: Engine, r: Row, parent: Occ, child: Occ, live: map<Oid, int>)
      returns (more: seq<Step>, v: Engine)
    requires Holds(w) && Reaches(w, steps, u) && Holds(u) && Snoozed(r, parent, child) && live.Keys == {Named(parent), Named(child)}
    requires u.j == Snoozing(r, {parent, child}, parent.uid + 2, 1, true, {parent}, [{parent, child}], J.Showing, {})
    ensures Reaches(w, more, v) && Holds(v) && v.d == D.Next(u.d, D.Push(live))
    ensures v.j == Snoozing(r, {parent, child}, parent.uid + 2, 1, true, {parent, child}, [], J.Showing, {})
  {
    ShowsChild(r, parent, child);
    more, v := Goes(w, steps, u, Pushed(live));
  }

  /** Both occurrences are delivered and acknowledged. */
  lemma {:induction false} ChildIsDelivered(w: Engine, steps: seq<Step>, u: Engine, p: Oid, c: Oid, body: int) returns (more: seq<Step>, v: Engine)
    requires Holds(w) && Reaches(w, steps, u) && Holds(u) && p != c && D.Hailed(u.d, map[p := body, c := body])
    ensures Reaches(w, more, v) && Holds(v) && v.j == u.j
    ensures D.Quiet(v.d) && c in v.d.c.delivered && Armed(v.d.c, {c.schedule})
  {
    var live, page := map[p := body, c := body], [(p, Entry(body, 1)), (c, Entry(body, 1))];
    PageOf(p, c, body, body);
    D.HailedIsHeld(u.d, live, page);
    more, v := Sends(w, steps, u, [D.Deliver([page], []), D.Send, D.DeviceTakes(true), D.TakeAck], D.Held(live, page));
    HeldIsQuiet(live, page, c);
  }

  lemma HeldIsQuiet(live: map<Oid, int>, page: seq<(Oid, Entry)>, c: Oid)
    requires c in live
    ensures var d := D.Held(live, page); D.Quiet(d) && c in d.c.delivered && Armed(d.c, {c.schedule})
  {
    var d := D.Held(live, page);
    assert Changed(d.c) == {} && Removed(d.c) == {};
  }

  lemma {:induction false} SeesChild(r: Row, parent: Occ, child: Occ)
    requires Snoozed(r, parent, child)
    ensures var w := Snoozing(r, {parent, child}, parent.uid + 2, 1, true, {parent, child}, [], J.Showing, {});
      J.Inv(w) ==> J.Enabled(w, J.Sees(Some(parent))) && J.Next(w, J.Sees(Some(parent))) == w.(pc := J.Deleting(parent, false), shown := {r.op})
  {
    assert child in {parent, child} && ByOp({parent, child}, r.op);
  }

  /** From every start with one alarm in the calendar and a device of another epoch: the alarm is snoozed,
      its child made, shown, delivered and armed, the alarm's deletion refused, and the device left
      without either the child or a message that would bring it. */
  lemma {:induction false} DisownedRun(w: Engine, r: Row, parent: Occ, child: Occ, body: int) returns (steps: seq<Step>, v: Engine)
    requires Start(w) && Holds(w) && J.Enqueueable(w.j, r) && Snoozed(r, parent, child) && w.j.calendar == {parent} && w.j.nextUid == parent.uid + 1
    ensures Reaches(w, steps, v) && |v.j.states| > 0 && v.j.states[0].Rejected?
    ensures D.Quiet(v.d) && Named(child) in v.d.c.delivered && Named(child) !in v.d.d.cache && Armed(v.d.c, {child.sid})
  {
    steps, v := ParentIsPushed(w, r, parent, child, body);
    steps, v := ChildIsMade(w, steps, v, r, parent, child);
    steps, v := ChildIsShown(w, steps, v, r, parent, child, map[Named(parent) := body], body);
    steps, v := ChildIsDelivered(w, steps, v, Named(parent), Named(child), body);
    SeesChild(r, parent, child);
    steps, v := Goes(w, steps, v, Journals(J.Sees(Some(parent))));
    var more, last := FailedSnoozeDisowns(v, J.Deletes(false, J.Refused), Named(child));
    Joined(w, steps, v, more, last);
    steps, v := steps + more, last;
  }
}
