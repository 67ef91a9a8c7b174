/** Nothing that an applied operation has dealt with is live, as long as the pushes show the whole window
    (controller/em_alerts.py): the one row that waits after it saw its alarm gone, a snooze with a stray child,
    then cannot be shown it again. */
module Unhidden {
  import opened Basics
  import opened JournalSpec
  import opened JournalProtocol

  /** A view shows something the row deals with. */
  predicate ShowsHandled(view: set<Occ>, r: Row) { exists o :: o in view && Handles(r, o.sid, o.key) }

  /** The view the worker has and those on their way, the newest last. */
  function Looks(w: World): seq<set<Occ>> { [w.pushed] + w.pipe }

  predicate AnyByOp(views: seq<set<Occ>>, op: int) { exists i :: 0 <= i < |views| && ByOp(views[i], op) }

  /** The stages after the snooze has seen its child. */
  predicate Past(pc: Stage) { pc.RestFinding? || pc.Deleting? || pc.Confirming? || pc.Sending? }

  /** What is asked of Home Assistant while a snooze with a stray child is pending. A push hides nothing
      from the calendar that the row deals with, unless its time lies before the window; then, once the
      child was in a push, none shows again what the last one lacked, and the window does not go back. */
  predicate Whole(w: World, e: Event) {
    w.done < |w.rows| && Strays(w.rows[w.done]) ==>
      var r := w.rows[w.done];
      match e
      case HaPushes(hidden) =>
        if !Old(w, r) then forall o :: o in w.calendar && Handles(r, o.sid, o.key) ==> o !in hidden
        else (Past(w.pc) || AnyByOp(Looks(w), r.op)) && ShowsHandled(w.calendar - hidden, r) ==> ShowsHandled(Looks(w)[|w.pipe|], r)
      case Roll(start, _, _) => Old(w, r) ==> r.keyStart.value < start
      case Connect(start, _) => Old(w, r) ==> r.keyStart.value < start
      case _ => true
  }

  // ---- views that only ever lose it ----

  /** From index `from` on, what the row deals with is only ever gone. */
  ghost predicate Falls(views: seq<set<Occ>>, from: nat, r: Row) {
    forall i, j :: from <= i < j < |views| && ShowsHandled(views[j], r) ==> ShowsHandled(views[i], r)
  }

  /** So it is from each view on that shows the row's event, or from any. */
  ghost predicate Falling(views: seq<set<Occ>>, r: Row, all: bool) {
    forall a :: 0 <= a < |views| && (all || ByOp(views[a], r.op)) ==> Falls(views, a, r)
  }

  lemma {:induction false} Append(views: seq<set<Occ>>, view: set<Occ>, r: Row, all: bool)
    requires views != [] && Falling(views, r, all)
    requires (all || AnyByOp(views, r.op)) && ShowsHandled(view, r) ==> ShowsHandled(views[|views| - 1], r)
    ensures Falling(views + [view], r, all)
  {
    var more := views + [view];
    forall a | 0 <= a < |more| && (all || ByOp(more[a], r.op))
      ensures Falls(more, a, r)
    {
      if a < |views| {
        assert Falls(views, a, r) && (all || AnyByOp(views, r.op));
      }
    }
  }

  /** A view just like the last one, before it. */
  lemma {:induction false} Insert(front: seq<set<Occ>>, view: set<Occ>, last: set<Occ>, r: Row, all: bool)
    requires Falling(front + [last], r, all)
    requires (ShowsHandled(view, r) <==> ShowsHandled(last, r)) && (ByOp(view, r.op) ==> ByOp(last, r.op))
    ensures Falling(front + [view] + [last], r, all)
  {
    var was, more := front + [last], front + [view] + [last];
    assert was[|front|] == last && more[|front|] == view && more[|front| + 1] == last;
    forall a | 0 <= a < |more| && (all || ByOp(more[a], r.op))
      ensures Falls(more, a, r)
    {
      if a < |front| {
        assert was[a] == more[a] && Falls(was, a, r);
        assert forall k :: 0 <= k < |front| ==> more[k] == was[k];
      }
    }
  }

  lemma {:induction false} PopFirst(views: seq<set<Occ>>, r: Row, all: bool)
    requires views != [] && Falling(views, r, all)
    ensures Falling(views[1..], r, all)
  {
    var rest := views[1..];
    forall a | 0 <= a < |rest| && (all || ByOp(rest[a], r.op))
      ensures Falls(rest, a, r)
    {
      assert rest[a] == views[a + 1] && Falls(views, a + 1, r);
      assert forall k :: 0 <= k < |rest| ==> rest[k] == views[k + 1];
    }
  }

  /** What lies between the first and the last is lost. */
  lemma {:induction false} Cut(first: set<Occ>, between: seq<set<Occ>>, tail: seq<set<Occ>>, r: Row, all: bool)
    requires Falling([first] + between + tail, r, all) && |tail| <= 1
    ensures Falling([first] + tail, r, all) && Falling([first], r, all)
  {
    var views, rest := [first] + between + tail, [first] + tail;
    assert views[0] == first && (tail != [] ==> views[|between| + 1] == tail[0]);
    forall a | 0 <= a < |rest| && (all || ByOp(rest[a], r.op))
      ensures Falls(rest, a, r)
    {
      if a == 0 {
        assert Falls(views, 0, r);
      }
    }
  }

  /** The last view has lost something, or gained what the row does not deal with. */
  lemma {:induction false} Change(front: seq<set<Occ>>, last: set<Occ>, last': set<Occ>, r: Row, all: bool)
    requires Falling(front + [last], r, all) && (ShowsHandled(last', r) ==> ShowsHandled(last, r))
    ensures Falling(front + [last'], r, all)
  {
    var was, now := front + [last], front + [last'];
    forall a | 0 <= a < |now| && (all || ByOp(now[a], r.op))
      ensures Falls(now, a, r)
    {
      if a < |front| {
        assert was[a] == now[a] && Falls(was, a, r);
        assert forall k :: 0 <= k < |front| ==> now[k] == was[k];
        assert was[|front|] == last;
      }
    }
  }

  // ---- the invariant ----

  /** With what the next push would show, unless its time is past the window. */
  function Line(w: World, r: Row): seq<set<Occ>> { Looks(w) + if Old(w, r) then [] else [w.calendar] }

  ghost predicate StrayHolds(w: World) {
    w.done < |w.rows| && Strays(w.rows[w.done]) ==>
      var r := w.rows[w.done];
      Falling(Line(w, r), r, Past(w.pc)) && (w.pc.Sending? ==> !ShowsHandled(w.pushed, r))
  }

  /** No row after the worker's has made its event. */
  ghost predicate Unmade(rows: seq<Row>, done: nat, ever: set<Occ>) {
    forall i, o :: done < i < |rows| && o in ever ==> o.op != Some(rows[i].op)
  }

  ghost predicate NothingLive(rows: seq<Row>, states: seq<State>, live: set<Occ>)
    requires |states| == |rows|
  {
    forall o, i :: o in live && 0 <= i < |rows| && states[i].Applied? ==> !Handles(rows[i], o.sid, o.key)
  }

  ghost predicate Gone(w: World) {
    |w.states| == |w.rows| && StrayHolds(w) && Unmade(w.rows, w.done, w.ever) && NothingLive(w.rows, w.states, w.live)
  }

  // ---- each kind of step ----

  /** The next row's event is in no view yet. */
  lemma {:induction false} EndGone(w: World, applied: bool)
    requires Inv(w) && Gone(w) && w.done < |w.rows|
    requires applied ==> forall o :: o in w.live ==> !Handles(w.rows[w.done], o.sid, o.key)
    ensures Gone(Ended(w, applied))
  {
    var v := Ended(w, applied);
    if v.done < |v.rows| {
      var r := v.rows[v.done];
      forall a | 0 <= a < |Line(v, r)|
        ensures !ByOp(Line(v, r)[a], r.op)
      {
        assert Line(v, r)[a] <= w.ever;
      }
    }
  }

  /** Another stage, with nothing else seen. */
  lemma {:induction false} MoveGone(w: World, step: nat, pc: Stage)
    requires Inv(w) && Gone(w) && !pc.Sending?
    requires Past(pc) && !Past(w.pc) && w.done < |w.rows| && Strays(w.rows[w.done]) ==> ByOp(w.pushed, w.rows[w.done].op)
    ensures Gone(w.(step := step, pc := pc))
  {
    var v := w.(step := step, pc := pc);
    if w.done < |w.rows| && Strays(w.rows[w.done]) {
      var r := w.rows[w.done];
      assert Line(v, r) == Line(w, r) && Line(w, r)[0] == w.pushed;
      if Past(pc) {
        assert Falls(Line(w, r), 0, r);
      }
    }
  }

  lemma {:induction false} EnqueueGone(w: World, r: Row)
    requires Inv(w) && Gone(w) && Enqueueable(w, r)
    ensures Gone(Next(w, Enqueue(r)))
  {
    var v := Next(w, Enqueue(r));
    if w.done < |w.rows| {
      assert v.rows[v.done] == w.rows[w.done] && Line(v, v.rows[v.done]) == Line(w, w.rows[w.done]);
    } else {
      forall a | 0 <= a < |Line(v, r)|
        ensures !ByOp(Line(v, r)[a], r.op)
      {
        assert Line(v, r)[a] <= w.ever;
      }
    }
  }

  lemma {:induction false} PushGone(w: World, hidden: set<Occ>)
    requires Inv(w) && Gone(w) && Enabled(w, HaPushes(hidden)) && Whole(w, HaPushes(hidden))
    ensures Gone(Next(w, HaPushes(hidden)))
  {
    var v, view := Next(w, HaPushes(hidden)), w.calendar - hidden;
    if w.done < |w.rows| && Strays(w.rows[w.done]) {
      var r := w.rows[w.done];
      assert Looks(v) == Looks(w) + [view];
      if Old(w, r) {
        assert Line(w, r) == Looks(w) && Line(v, r) == Looks(w) + [view];
        Append(Looks(w), view, r, Past(w.pc));
      } else {
        assert Line(v, r) == Looks(w) + [view] + [w.calendar];
        Insert(Looks(w), view, w.calendar, r, Past(w.pc));
      }
    }
  }

  lemma {:induction false} TakeGone(w: World)
    requires Inv(w) && Gone(w) && w.pipe != []
    ensures Gone(Next(w, TakePush))
  {
    var v := Next(w, TakePush);
    if w.done < |w.rows| && Strays(w.rows[w.done]) {
      var r := w.rows[w.done];
      assert Line(w, r)[0] == w.pushed && Line(w, r)[1] == w.pipe[0];
      assert Line(v, r) == Line(w, r)[1..];
      PopFirst(Line(w, r), r, Past(w.pc));
      if w.pc.Sending? {
        assert Falls(Line(w, r), 0, r);
      }
    }
  }

  lemma {:induction false} LinkGone(w: World, e: Event)
    requires Inv(w) && Gone(w) && Enabled(w, e) && Whole(w, e) && (e.Drop? || e.Connect? || e.Roll? || e.Crash?)
    ensures Gone(Next(w, e))
  {
    var v := Next(w, e);
    if w.done < |w.rows| && Strays(w.rows[w.done]) {
      var r := w.rows[w.done];
      var tail := if Old(w, r) then [] else [w.calendar];
      assert Line(w, r) == [w.pushed] + w.pipe + tail;
      Cut(w.pushed, w.pipe, tail, r, Past(w.pc));
      if e.Crash? {
        assert Line(v, r) == [{}] + tail;
      } else {
        assert Line(v, r) == [w.pushed] + tail || Line(v, r) == [w.pushed];
      }
    }
  }

  /** The calendar loses occurrences, or gains the row's own event. */
  lemma {:induction false} CalendarGone(w: World, v: World)
    requires Inv(w) && Gone(w) && v == w.(calendar := v.calendar, ever := v.ever, nextUid := v.nextUid)
    requires Unmade(w.rows, w.done, v.ever)
    requires w.done < |w.rows| && ShowsHandled(v.calendar, w.rows[w.done]) ==> ShowsHandled(w.calendar, w.rows[w.done])
    ensures Gone(v)
  {
    if w.done < |w.rows| && Strays(w.rows[w.done]) {
      var r := w.rows[w.done];
      if Old(w, r) {
        assert Line(v, r) == Line(w, r);
      } else {
        assert Line(w, r) == Looks(w) + [w.calendar] && Line(v, r) == Looks(w) + [v.calendar];
        Change(Looks(w), w.calendar, v.calendar, r, Past(w.pc));
      }
    }
  }

  lemma {:induction false} DeletedGone(w: World, uid: nat, rid: Option<int>)
    requires Inv(w) && Gone(w)
    ensures Gone(HaDeletes(w, uid, rid))
  {
    CalendarGone(w, HaDeletes(w, uid, rid));
  }

  lemma {:induction false} CreatedGone(w: World)
    requires Inv(w) && Gone(w) && w.done < |w.rows| && w.rows[w.done].event.Some?
    ensures Gone(HaCreates(w))
  {
    var r, v := w.rows[w.done], HaCreates(w);
    assert RowFits(r, w.ever, w.nextUid);
    if Strays(r) {
      CalendarGone(w, v);
    }
  }

  lemma {:induction false} RepliedGone(w: World, reply: Reply, step: nat, next: Stage)
    requires Inv(w) && Gone(w) && w.done < |w.rows| && !next.Sending? && (Past(next) ==> Past(w.pc))
    ensures Gone(Replied(w, reply, step, next))
  {
    match reply
    case Answered => MoveGone(w, step, next);
    case Refused => EndGone(w, false);
    case Lost =>
      LinkGone(w, Drop);
      LinkKeeps(w, Drop);
      MoveGone(Unlinked(w), w.step, Idle);
    case Silence => MoveGone(w, w.step, Idle);
  }

  lemma {:induction false} BeginGone(w: World, pick: Option<Occ>)
    requires Inv(w) && Gone(w) && Enabled(w, Begin(pick))
    ensures Gone(Next(w, Begin(pick)))
  {
    var v := Next(w, Begin(pick));
    if v.done == w.done {
      MoveGone(w, v.step, v.pc);
    } else {
      EndGone(w, false);
    }
  }

  lemma {:induction false} LooksGone(w: World, found: bool)
    requires Inv(w) && Gone(w) && Enabled(w, RestLooks(found))
    ensures Gone(Next(w, RestLooks(found)))
  {
    var v := Next(w, RestLooks(found));
    if v.done == w.done {
      MoveGone(w, v.step, v.pc);
    } else if w.pc.FarConfirming? && found {
      ShowGone(w, w.calendar);
      EndGone(w.(shown := v.shown), true);
    } else {
      EndGone(w, false);
    }
  }

  lemma {:induction false} ShowGone(w: World, view: set<Occ>)
    requires Inv(w) && Gone(w) && w.done < |w.rows| && ByOp(view, w.rows[w.done].op) && view <= w.ever
    ensures var u := w.(shown := w.shown + {w.rows[w.done].op}); Inv(u) && Gone(u)
  {
    var u := w.(shown := w.shown + {w.rows[w.done].op});
    ShowKeeps(w, view);
    assert Line(u, w.rows[w.done]) == Line(w, w.rows[w.done]);
  }

  /** With the child in the last push, the views fall from there on. */
  lemma {:induction false} SeesGoneOn(w: World, pick: Option<Occ>)
    requires Inv(w) && Gone(w) && Enabled(w, Sees(pick))
    ensures Gone(Next(w, Sees(pick)))
  {
    var v := Next(w, Sees(pick));
    ShowGone(w, w.pushed);
    var u := w.(shown := w.shown + {w.rows[w.done].op});
    if v.done == w.done {
      MoveGone(u, v.step, v.pc);
    } else {
      EndGone(u, true);
    }
  }

  lemma {:induction false} CreatesGone(w: World, executed: bool, reply: Reply)
    requires Inv(w) && Gone(w) && Enabled(w, Creates(executed, reply))
    ensures Gone(Next(w, Creates(executed, reply)))
  {
    if executed {
      CreateKeeps(w);
      CreatedGone(w);
    }
    RepliedGone(if executed then HaCreates(w) else w, reply, 1, if w.pc.FarCreating? then FarConfirming else Showing);
  }

  lemma {:induction false} DeletesGone(w: World, executed: bool, reply: Reply)
    requires Inv(w) && Gone(w) && Enabled(w, Deletes(executed, reply))
    ensures Gone(Next(w, Deletes(executed, reply)))
  {
    var u := if executed then HaDeletes(w, w.pc.occ.uid, Rid(w.pc.occ)) else w;
    if executed {
      DeletesStillKeeps(w);
      DeletedGone(w, w.pc.occ.uid, Rid(w.pc.occ));
    }
    RepliedGone(u, reply, if w.rows[w.done].action.Snooze? then 2 else 1, Confirming(w.pc.rest));
  }

  lemma {:induction false} DeletesStillKeeps(w: World)
    requires Inv(w) && w.pc.Deleting?
    ensures Inv(HaDeletes(w, w.pc.occ.uid, Rid(w.pc.occ)))
  {
    forall o | o in Hit(w.calendar, w.pc.occ.uid, Rid(w.pc.occ))
      ensures Handles(w.rows[w.done], o.sid, o.key)
    {
      HitsItself(w, w.pc.occ, o);
    }
    DeleteKeeps(w, w.pc.occ.uid, Rid(w.pc.occ), w.done);
  }

  lemma {:induction false} CancelsGone(w: World, executed: bool, reply: Reply)
    requires Inv(w) && Gone(w) && Enabled(w, Cancels(executed, reply))
    ensures Gone(Next(w, Cancels(executed, reply)))
  {
    var r := w.rows[w.done];
    if executed {
      assert RowFits(r, w.ever, w.nextUid);
      DeleteKeeps(w, r.uid.value, None, w.done);
      DeletedGone(w, r.uid.value, None);
    }
    RepliedGone(if executed then HaDeletes(w, r.uid.value, None) else w, reply, 1, CancelConfirming);
  }

  lemma {:induction false} ConfirmsGone(w: World, found: bool)
    requires Inv(w) && Gone(w) && Enabled(w, Confirms(found))
    ensures Gone(Next(w, Confirms(found)))
  {
    var r, v := w.rows[w.done], Next(w, Confirms(found));
    if found {
      EndGone(w, false);
    } else if Strays(r) {
      assert Line(v, r) == Line(w, r);
    } else {
      EndGone(w, true);
    }
  }

  predicate OfWorker(e: Event) {
    e.Begin? || e.RestLooks? || e.Creates? || e.Sees? || e.RestFinds? || e.Deletes? || e.Confirms? || e.Cancels?
    || e.CancelConfirms? || e.Sent? || e.GivesUp? || e.Fails?
  }

  lemma {:induction false} WorkerGone(w: World, e: Event)
    requires Inv(w) && Gone(w) && Enabled(w, e) && OfWorker(e)
    ensures Gone(Next(w, e))
  {
    match e
    case Begin(pick) => BeginGone(w, pick);
    case RestLooks(found) => LooksGone(w, found);
    case Creates(executed, reply) => CreatesGone(w, executed, reply);
    case Sees(pick) => SeesGoneOn(w, pick);
    case RestFinds(pick) => MoveGone(w, Next(w, e).step, Next(w, e).pc);
    case Deletes(executed, reply) => DeletesGone(w, executed, reply);
    case Confirms(found) => ConfirmsGone(w, found);
    case Cancels(executed, reply) => CancelsGone(w, executed, reply);
    case CancelConfirms | Sent => EndGone(w, true);
    case GivesUp => EndGone(w, false);
    case Fails => MoveGone(w, w.step, Idle);
  }

  lemma {:induction false} StepGone(w: World, e: Event)
    requires Inv(w) && Gone(w) && Enabled(w, e) && Whole(w, e)
    ensures Gone(Next(w, e))
  {
    match e
    case Enqueue(row) => EnqueueGone(w, row);
    case HaPushes(hidden) => PushGone(w, hidden);
    case TakePush => TakeGone(w);
    case GuardDeletes(o, i) => DeletedGone(w, o.uid, if w.rows[i].action.Cancel? then None else Rid(o));
    case Drop | Connect(_, _) | Roll(_, _, _) | Crash => LinkGone(w, e);
    case _ => WorkerGone(w, e);
  }

  // ---- whole runs ----

  ghost predicate AllWhole(w: World, es: seq<Event>)
    requires Inv(w)
    decreases es
  {
    es == [] || (Enabled(w, es[0]) && Whole(w, es[0]) && (StepKeeps(w, es[0]); AllWhole(Next(w, es[0]), es[1..])))
  }

  lemma {:induction false} RunGone(w: World, es: seq<Event>, v: World)
    requires Inv(w) && Gone(w) && Reaches(w, es, v) && AllWhole(w, es)
    ensures Gone(v)
    decreases es
  {
    if es != [] {
      StepKeeps(w, es[0]);
      StepGone(w, es[0]);
      RunGone(Next(w, es[0]), es[1..], v);
    }
  }

  /** In no reachable world is an occurrence live that an applied row has dealt with: of no run at all when
      the row is no snooze with a stray child, and of none whose pushes show the whole window when it is. */
  lemma {:induction false} HandledIsNeverLive(w: World, es: seq<Event>, v: World, i: nat, o: Occ)
    requires Start(w) && Inv(w) && Reaches(w, es, v) && i < |v.rows| == |v.states| && v.states[i].Applied?
    requires Strays(v.rows[i]) ==> AllWhole(w, es)
    requires Handles(v.rows[i], o.sid, o.key)
    ensures o !in v.live
  {
    if Strays(v.rows[i]) {
      RunGone(w, es, v);
    } else if o in v.live {
      HandledIsNotLive(w, es, v, i, o);
    }
  }

  /** The whole window is needed: a run whose pushes hide the parent from the snooze's worker, and show it
      again while the tombstone is being sent, ends with the handled parent live. */
  lemma {:induction false} HiddenParentIsLive(w: World, r: Row, parent: Occ, other: Occ, child: Occ) returns (es: seq<Event>, v: World)
    requires Start(w) && Inv(w) && Enqueueable(w, r) && Snoozed(r, parent, other, child)
    requires w.ever == {parent, other} && w.nextUid == parent.uid + 1
    ensures Reaches(w, es, v) && |v.states| == |v.rows| && 0 < |v.rows| && v.states[0].Applied? && v.rows[0] == r
    ensures parent in v.live && Handles(r, parent.sid, parent.key) && !AllWhole(w, es)
  {
    es, v := StrayRun(w, r, parent, other, child);
    if AllWhole(w, es) {
      HandledIsNeverLive(w, es, v, 0, parent);
    }
  }

  // ---- exactly when it can come back ----

  /** It is live, or it is still to be pushed and no applied row has dealt with it. */
  predicate CanReturn(w: World, o: Occ)
    requires |w.states| == |w.rows|
  {
    o in w.live
    || (!Handled(w.rows, w.states, o.sid, o.key) && ToBePushed(w, o))
  }

  /** Row d is rejected, or an occurrence it deals with cannot return. */
  ghost predicate Barred(w: World, d: nat, r: Row, o: Occ) {
    && |w.states| == |w.rows| && d < |w.rows| && d <= w.done && w.rows[d] == r && Strays(r)
    && Handles(r, o.sid, o.key) && (w.states[d].Rejected? || !CanReturn(w, o))
  }

  predicate ToBePushed(w: World, o: Occ) { o in w.calendar || exists k :: 0 <= k < |w.pipe| && o in w.pipe[k] }

  /** What the rest of a step may change without letting anything return. */
  ghost predicate Narrows(w: World, v: World, d: nat, r: Row, o: Occ)
    requires |w.states| == |w.rows|
  {
    && v.live == w.live && |v.states| == |v.rows| && w.rows <= v.rows && w.done <= v.done
    && (forall i :: 0 <= i < w.done && i < |w.states| ==> v.states[i] == w.states[i])
    && (w.done > d || (ToBePushed(v, o) ==> ToBePushed(w, o)))
  }

  lemma {:induction false} HandledStays(w: World, v: World, sid: int, key: int)
    requires InOrder(w.states, w.done) && |w.states| == |w.rows| && |v.states| == |v.rows| && w.rows <= v.rows
    requires forall i :: 0 <= i < w.done && i < |w.states| ==> v.states[i] == w.states[i]
    ensures Handled(w.rows, w.states, sid, key) ==> Handled(v.rows, v.states, sid, key)
  {
    if Handled(w.rows, w.states, sid, key) {
      var i :| 0 <= i < |w.rows| && w.states[i].Applied? && Handles(w.rows[i], sid, key);
      assert v.states[i].Applied? && v.rows[i] == w.rows[i];
    }
  }

  lemma {:induction false} NarrowBars(w: World, v: World, d: nat, r: Row, o: Occ)
    requires Inv(w) && Barred(w, d, r, o) && Narrows(w, v, d, r, o)
    ensures Barred(v, d, r, o)
  {
    assert v.rows[d] == w.rows[d];
    if !v.states[d].Rejected? {
      HandledStays(w, v, o.sid, o.key);
      if w.done > d {
        assert v.states[d].Applied?;
      }
    }
  }

  lemma {:induction false} TakeBars(w: World, d: nat, r: Row, o: Occ)
    requires Inv(w) && Barred(w, d, r, o) && w.pipe != []
    ensures Barred(Next(w, TakePush), d, r, o)
  {
    var v := Next(w, TakePush);
    if !w.states[d].Rejected? {
      assert forall k :: 0 <= k < |v.pipe| ==> v.pipe[k] == w.pipe[k + 1];
    }
  }

  lemma {:induction false} LinkBars(w: World, e: Event, d: nat, r: Row, o: Occ)
    requires Inv(w) && Enabled(w, e) && Barred(w, d, r, o)
    requires e.Drop? || e.Connect? || e.Roll? || e.Crash? || e.HaPushes? || e.Enqueue? || e.GuardDeletes?
    ensures Barred(Next(w, e), d, r, o)
  {
    var v := Next(w, e);
    if e.Crash? {
      NarrowBars(w, v.(live := w.live), d, r, o);
    } else {
      if e.HaPushes? {
        assert forall k :: 0 <= k < |v.pipe| ==> v.pipe[k] == if k < |w.pipe| then w.pipe[k] else w.calendar - e.hidden;
      }
      NarrowBars(w, v, d, r, o);
    }
  }

  lemma {:induction false} RepliedNarrows(w: World, u: World, reply: Reply, step: nat, next: Stage, d: nat, r: Row, o: Occ)
    requires Inv(w) && w.done < |w.rows| && Narrows(w, u, d, r, o) && u.rows == w.rows && u.states == w.states && u.done == w.done
    ensures Narrows(w, Replied(u, reply, step, next), d, r, o)
  {
  }

  lemma {:induction false} CallNarrows(w: World, e: Event, d: nat, r: Row, o: Occ)
    requires Inv(w) && Enabled(w, e) && Barred(w, d, r, o) && (e.Creates? || e.Deletes? || e.Cancels?)
    ensures Narrows(w, Next(w, e), d, r, o)
  {
    match e
    case Creates(executed, reply) =>
      assert RowFits(w.rows[w.done], w.ever, w.nextUid);
      var u := if executed then HaCreates(w) else w;
      assert Narrows(w, u, d, r, o);
      RepliedNarrows(w, u, reply, 1, if w.pc.FarCreating? then FarConfirming else Showing, d, r, o);
    case Deletes(executed, reply) =>
      RepliedNarrows(w, if executed then HaDeletes(w, w.pc.occ.uid, Rid(w.pc.occ)) else w, reply,
        if w.rows[w.done].action.Snooze? then 2 else 1, Confirming(w.pc.rest), d, r, o);
    case Cancels(executed, reply) =>
      RepliedNarrows(w, if executed then HaDeletes(w, w.rows[w.done].uid.value, None) else w, reply, 1, CancelConfirming, d, r, o);
  }

  lemma {:induction false} BeginNarrows(w: World, pick: Option<Occ>, d: nat, r: Row, o: Occ)
    requires Inv(w) && Enabled(w, Begin(pick))
    ensures Narrows(w, Next(w, Begin(pick)), d, r, o)
  {
  }

  lemma {:induction false} SeesNarrows(w: World, pick: Option<Occ>, d: nat, r: Row, o: Occ)
    requires Inv(w) && Enabled(w, Sees(pick))
    ensures Narrows(w, Next(w, Sees(pick)), d, r, o)
  {
  }

  lemma {:induction false} LooksNarrows(w: World, found: bool, d: nat, r: Row, o: Occ)
    requires Inv(w) && Enabled(w, RestLooks(found))
    ensures Narrows(w, Next(w, RestLooks(found)), d, r, o)
  {
  }

  lemma {:induction false} FindsNarrows(w: World, e: Event, d: nat, r: Row, o: Occ)
    requires Inv(w) && Enabled(w, e) && (e.RestFinds? || e.Confirms?)
    ensures Narrows(w, Next(w, e), d, r, o)
  {
  }

  lemma {:induction false} EndNarrows(w: World, e: Event, d: nat, r: Row, o: Occ)
    requires Inv(w) && Enabled(w, e) && (e.CancelConfirms? || e.Sent? || e.GivesUp? || e.Fails?)
    ensures Narrows(w, Next(w, e), d, r, o)
  {
  }

  lemma {:induction false} WorkerNarrows(w: World, e: Event, d: nat, r: Row, o: Occ)
    requires Inv(w) && Enabled(w, e) && OfWorker(e) && Barred(w, d, r, o)
    ensures Narrows(w, Next(w, e), d, r, o)
  {
    match e
    case Creates(_, _) | Deletes(_, _) | Cancels(_, _) => CallNarrows(w, e, d, r, o);
    case Begin(pick) => BeginNarrows(w, pick, d, r, o);
    case Sees(pick) => SeesNarrows(w, pick, d, r, o);
    case RestLooks(found) => LooksNarrows(w, found, d, r, o);
    case RestFinds(_) | Confirms(_) => FindsNarrows(w, e, d, r, o);
    case _ => EndNarrows(w, e, d, r, o);
  }

  lemma {:induction false} WorkerBars(w: World, e: Event, d: nat, r: Row, o: Occ)
    requires Inv(w) && Enabled(w, e) && OfWorker(e) && Barred(w, d, r, o)
    ensures Barred(Next(w, e), d, r, o)
  {
    WorkerNarrows(w, e, d, r, o);
    NarrowBars(w, Next(w, e), d, r, o);
  }

  lemma {:induction false} StepBars(w: World, e: Event, d: nat, r: Row, o: Occ)
    requires Inv(w) && Enabled(w, e) && Barred(w, d, r, o)
    ensures Barred(Next(w, e), d, r, o)
  {
    match e
    case TakePush => TakeBars(w, d, r, o);
    case Drop | Connect(_, _) | Roll(_, _, _) | Crash | HaPushes(_) | Enqueue(_) | GuardDeletes(_, _) => LinkBars(w, e, d, r, o);
    case _ => WorkerBars(w, e, d, r, o);
  }

  lemma {:induction false} RunBars(w: World, es: seq<Event>, v: World, d: nat, r: Row, o: Occ)
    requires Inv(w) && Reaches(w, es, v) && Barred(w, d, r, o)
    ensures Barred(v, d, r, o)
    decreases es
  {
    if es != [] {
      StepKeeps(w, es[0]);
      StepBars(w, es[0], d, r, o);
      RunBars(Next(w, es[0]), es[1..], v, d, r, o);
    }
  }

  /** A push on its way that shows it makes it live, and the row is applied after. */
  lemma {:induction false} PushReturns(w: World, k: nat, o: Occ) returns (es: seq<Event>, v: World)
    requires Inv(w) && w.pc.Sending? && k < |w.pipe| && o in w.pipe[k] && !Handled(w.rows, w.states, o.sid, o.key)
    ensures Reaches(w, es, v) && ReturnedIn(v, w.done, w.rows[w.done], o)
    decreases k
  {
    StepKeeps(w, TakePush);
    var w1 := Next(w, TakePush);
    if k == 0 {
      OneStep(w1, Sent, Next(w1, Sent));
      es, v := [Sent], Next(w1, Sent);
    } else {
      es, v := PushReturns(w1, k - 1, o);
    }
    Then(w, TakePush, es, v);
    es := [TakePush] + es;
  }

  /** Row d has been applied, and o is live. */
  predicate ReturnedIn(v: World, d: nat, r: Row, o: Occ) {
    |v.states| == |v.rows| && d < |v.rows| && v.rows[d] == r && v.states[d].Applied? && o in v.live
  }

  /** So does a new subscription's first push. */
  lemma {:induction false} CalendarReturns(w: World, o: Occ) returns (es: seq<Event>, v: World)
    requires Inv(w) && w.pc.Sending? && Handles(w.rows[w.done], o.sid, o.key)
    requires o in w.calendar && !Handled(w.rows, w.states, o.sid, o.key)
    ensures Reaches(w, es, v) && ReturnedIn(v, w.done, w.rows[w.done], o)
  {
    var e := Connect(w.windowStart, w.windowEnd);
    var w1 := Next(w, e);
    OneStep(w, e, w1);
    ParentComesBack(w1, o);
    v := Next(Next(Next(w1, HaPushes({})), TakePush), Sent);
    es := [e] + ([HaPushes({})] + [TakePush, Sent]);
    Then(w, e, [HaPushes({})] + [TakePush, Sent], v);
  }

  lemma {:induction false} Returns(w: World, o: Occ) returns (es: seq<Event>, v: World)
    requires Inv(w) && w.pc.Sending? && Handles(w.rows[w.done], o.sid, o.key) && CanReturn(w, o)
    ensures Reaches(w, es, v) && ReturnedIn(v, w.done, w.rows[w.done], o)
  {
    if o in w.live {
      OneStep(w, Sent, Next(w, Sent));
      es, v := [Sent], Next(w, Sent);
    } else if o in w.calendar {
      es, v := CalendarReturns(w, o);
    } else {
      var k :| 0 <= k < |w.pipe| && o in w.pipe[k];
      es, v := PushReturns(w, k, o);
    }
  }

  ghost predicate ComesBack(w: World, o: Occ)
    requires Inv(w) && w.done < |w.rows|
  {
    exists es, v :: Reaches(w, es, v) && ReturnedIn(v, w.done, w.rows[w.done], o)
  }

  /** From a world in which the tombstone is being sent, some run ends with the row applied and an
      occurrence that it has dealt with live, if and only if that is live now, or is in the calendar or in
      a push on its way and no applied row has dealt with it. */
  lemma {:induction false} ComesBackIff(w: World, o: Occ)
    requires Inv(w) && w.pc.Sending? && Handles(w.rows[w.done], o.sid, o.key)
    ensures ComesBack(w, o) <==> CanReturn(w, o)
  {
    if CanReturn(w, o) {
      var es, v := Returns(w, o);
    } else if ComesBack(w, o) {
      var es, v :| Reaches(w, es, v) && ReturnedIn(v, w.done, w.rows[w.done], o);
      RunBars(w, es, v, w.done, w.rows[w.done], o);
    }
  }
}
