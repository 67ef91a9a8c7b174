/** When the journal's worker rejects an operation, and that it otherwise gets done (controller/em_alerts.py,
    `_drain`, `_apply`, `_reject`). */
module Verdicts {
  import opened Basics
  import opened JournalSpec
  import opened JournalProtocol

  // ---- why a row is rejected ----

  /** A call to Home Assistant that answered with an error. */
  predicate Refuses(e: Event) {
    (e.Creates? && e.reply.Refused?) || (e.Deletes? && e.reply.Refused?) || (e.Cancels? && e.reply.Refused?)
  }

  /** Nothing in the last push shows the alarm to be snoozed, nor may it lie before the window. */
  predicate ParentGone(w: World, r: Row) {
    && w.step == 0 && !(exists o :: o in w.pushed && (o.op == Some(r.op) || o.sid == r.sid))
    && !(r.keyStart.Some? && r.keyStart.value < w.windowStart)
  }

  /** What lacks the parts that its action needs. */
  predicate Malformed(r: Row) {
    match r.action
    case Create => r.event.None?
    case Dismiss | Expire => r.key.None?
    case Cancel => r.uid.None?
    case Snooze => r.key.None? || r.event.None?
  }

  /** The step, in this world, by which the worker gives its row up: an error from a call, a wait or a read
      that is given up, a REST read with the wrong answer, or a request that cannot be carried out. */
  predicate GivesUpOn(w: World, e: Event) {
    && w.done < |w.rows|
    && var r := w.rows[w.done];
      || Refuses(e) || e.GivesUp?
      || (e.Confirms? && e.found)
      || (e.RestLooks? && !e.found && (w.pc.FarConfirming? || w.pc.Checking?))
      || (e.Begin? && (Malformed(r) || (r.action.Snooze? && ParentGone(w, r))))
  }

  lemma {:induction false} BeginRejects(w: World, pick: Option<Occ>)
    requires Inv(w) && Enabled(w, Begin(pick))
    ensures var v := Next(w, Begin(pick));
      |v.states| == |w.states| && (v.states[w.done].Rejected? <==> GivesUpOn(w, Begin(pick))) && !v.states[w.done].Applied?
  {
    var r := w.rows[w.done];
    if r.action.Snooze? && Supported(r) && w.step == 0 && !ByOp(w.pushed, r.op) && !FindsSchedule(w.pushed, r.sid) {
      assert forall o :: o in w.pushed ==> o.op != Some(r.op) && o.sid != r.sid;
    }
  }

  lemma {:induction false} RestRejects(w: World, e: Event)
    requires Inv(w) && Enabled(w, e) && (e.RestLooks? || e.Confirms? || e.Sees?)
    ensures |Next(w, e).states| == |w.states| && w.done < |w.states| && (Next(w, e).states[w.done].Rejected? <==> GivesUpOn(w, e))
  {
  }

  lemma {:induction false} RepliedRejects(w: World, reply: Reply, step: nat, next: Stage)
    requires w.done < |w.states| && w.states[w.done].Pending?
    ensures |Replied(w, reply, step, next).states| == |w.states|
    ensures Replied(w, reply, step, next).states[w.done].Rejected? <==> reply.Refused?
  {
  }

  lemma {:induction false} CallRejects(w: World, e: Event)
    requires Inv(w) && Enabled(w, e) && (e.Creates? || e.Deletes? || e.Cancels?)
    ensures |Next(w, e).states| == |w.states| && w.done < |w.states| && (Next(w, e).states[w.done].Rejected? <==> GivesUpOn(w, e))
  {
    match e
    case Creates(executed, reply) =>
      RepliedRejects(if executed then HaCreates(w) else w, reply, 1, if w.pc.FarCreating? then FarConfirming else Showing);
    case Deletes(executed, reply) =>
      RepliedRejects(if executed then HaDeletes(w, w.pc.occ.uid, Rid(w.pc.occ)) else w, reply,
        if w.rows[w.done].action.Snooze? then 2 else 1, Confirming(w.pc.rest));
    case Cancels(executed, reply) =>
      RepliedRejects(if executed then HaDeletes(w, w.rows[w.done].uid.value, None) else w, reply, 1, CancelConfirming);
  }

  lemma {:induction false} OtherRejects(w: World, e: Event)
    requires Inv(w) && Enabled(w, e) && w.done < |w.states|
    requires !e.Begin? && !e.RestLooks? && !e.Confirms? && !e.Sees? && !e.Creates? && !e.Deletes? && !e.Cancels?
    ensures |Next(w, e).states| > w.done && (Next(w, e).states[w.done].Rejected? <==> GivesUpOn(w, e))
  {
  }

  /** A step rejects the worker's row if and only if it gives it up, and it rejects no other. */
  lemma {:induction false} StepRejectsIff(w: World, e: Event, i: nat)
    requires Inv(w) && Enabled(w, e) && i < |w.rows| && w.states[i].Pending?
    ensures |Next(w, e).states| >= |w.states| && (Next(w, e).states[i].Rejected? <==> i == w.done && GivesUpOn(w, e))
  {
    StepAdvances(w, e);
    match e
    case Begin(pick) => BeginRejects(w, pick);
    case RestLooks(_) | Confirms(_) | Sees(_) => RestRejects(w, e);
    case Creates(_, _) | Deletes(_, _) | Cancels(_, _) => CallRejects(w, e);
    case _ => OtherRejects(w, e);
  }

  /** Event e is taken in world u somewhere on the run. */
  ghost predicate Takes(w: World, es: seq<Event>, u: World, e: Event)
    requires Inv(w)
    decreases es
  {
    es != [] && Enabled(w, es[0]) && ((u == w && e == es[0]) || (StepKeeps(w, es[0]); Takes(Next(w, es[0]), es[1..], u, e)))
  }

  ghost predicate GivenUp(w: World, es: seq<Event>, i: nat, r: Row)
    requires Inv(w)
  {
    exists u, e :: Takes(w, es, u, e) && u.done == i < |u.rows| && u.rows[i] == r && GivesUpOn(u, e)
  }

  lemma {:induction false} NewIsPending(w: World, e: Event, i: nat)
    requires Inv(w) && Enabled(w, e) && |w.rows| <= i < |Next(w, e).rows|
    ensures |Next(w, e).states| == |Next(w, e).rows| && Next(w, e).states[i].Pending?
  {
    ShapeAdvances(w, e);
  }

  lemma {:induction false} RunRejects(w: World, es: seq<Event>, v: World, i: nat)
    requires Inv(w) && Reaches(w, es, v) && |v.states| == |v.rows| && i < |v.rows| && v.states[i].Rejected?
    ensures (i < |w.rows| && w.states[i].Rejected?) || GivenUp(w, es, i, v.rows[i])
    decreases es
  {
    if es != [] {
      var w1 := Next(w, es[0]);
      StepKeeps(w, es[0]);
      StepAdvances(w, es[0]);
      RunKeeps(w1, es[1..], v);
      RunRejects(w1, es[1..], v, i);
      if GivenUp(w1, es[1..], i, v.rows[i]) {
        var u, e :| Takes(w1, es[1..], u, e) && u.done == i < |u.rows| && u.rows[i] == v.rows[i] && GivesUpOn(u, e);
        assert Takes(w, es, u, e);
      } else {
        RejectedNow(w, es, v, i);
      }
    }
  }

  lemma {:induction false} RejectedNow(w: World, es: seq<Event>, v: World, i: nat)
    requires Inv(w) && es != [] && Enabled(w, es[0]) && Inv(Next(w, es[0])) && Follows(w, Next(w, es[0])) && Next(w, es[0]).rows <= v.rows
    requires i < |Next(w, es[0]).rows| && Next(w, es[0]).states[i].Rejected?
    ensures (i < |w.rows| && w.states[i].Rejected?) || GivenUp(w, es, i, v.rows[i])
  {
    if i >= |w.rows| {
      NewIsPending(w, es[0], i);
    } else if w.states[i].Pending? {
      StepRejectsIff(w, es[0], i);
      assert Takes(w, es, w, es[0]);
      assert Next(w, es[0]).rows[i] == w.rows[i];
    }
  }

  /** An operation is rejected only if, while it was the worker's, the worker gave it up for one of the
      reasons there are: over every run, for every action. */
  lemma {:induction false} RejectedWasGivenUp(w: World, es: seq<Event>, v: World, i: nat)
    requires Start(w) && Inv(w) && Reaches(w, es, v) && |v.states| == |v.rows| && i < |v.rows| && v.states[i].Rejected?
    ensures GivenUp(w, es, i, v.rows[i])
  {
    RunRejects(w, es, v, i);
  }
}

/** With a calendar that answers and a push that shows all of it, every operation that can be carried out is. */
module Finishing {
  import opened Basics
  import opened JournalSpec
  import opened JournalProtocol

  /** The run goes on by one step. */
  lemma {:induction false} Goes(w: World, es: seq<Event>, v: World, e: Event) returns (more: seq<Event>, u: World)
    requires Inv(w) && Reaches(w, es, v) && Inv(v) && Enabled(v, e)
    ensures u == Next(v, e) && Inv(u) && Reaches(w, more, u)
    ensures Unpushed(es) && !e.HaPushes? && !e.TakePush? ==> Unpushed(more)
    ensures Unread(es) && !e.RestLooks? && !e.RestFinds? ==> Unread(more)
  {
    StepKeeps(v, e);
    u := Next(v, e);
    OneStep(v, e, u);
    more := es + [e];
    Joined(w, es, v, [e], u);
  }

  /** No push is made or taken on the way. */
  predicate Unpushed(es: seq<Event>) {
    forall k :: 0 <= k < |es| ==> !es[k].HaPushes? && !es[k].TakePush?
  }

  /** Nothing is looked up by REST on the way. */
  predicate Unread(es: seq<Event>) {
    forall k :: 0 <= k < |es| ==> !es[k].RestLooks? && !es[k].RestFinds?
  }

  // ---- a fresh look ----

  /** The worker is about to take its row, and has just seen the whole calendar. */
  ghost predicate Fresh(w: World) {
    Ready(w) && Current(w)
  }

  /** The worker is about to take its row, whatever the last push showed. */
  ghost predicate Ready(w: World) {
    && Inv(w) && w.pc.Idle? && w.connected && w.upToDate && w.done < |w.rows| && Supported(w.rows[w.done])
  }

  /** What the row names lies before the window that pushes show. */
  predicate BeforeWindow(w: World, r: Row) { r.keyStart.Some? && r.keyStart.value < w.windowStart }

  /** What the row makes lies past it. */
  predicate PastWindow(w: World, r: Row) { r.event.Some? && r.event.value.start >= w.windowEnd }

  /** Connected, and the last push shows the calendar as it is. */
  predicate Current(w: World) { w.connected && w.upToDate && w.pipe == [] && w.pushed == w.calendar }

  /** What a look leaves alone. */
  predicate SameCalendar(w: World, v: World) {
    && v.rows == w.rows && v.states == w.states && v.done == w.done && v.step == w.step && v.calendar == w.calendar && v.ever == w.ever
    && v.nextUid == w.nextUid && v.windowStart == w.windowStart && v.windowEnd == w.windowEnd && v.shown == w.shown && v.pc == w.pc
  }

  lemma {:induction false} Drains(w: World, es: seq<Event>, v: World) returns (more: seq<Event>, u: World)
    requires Inv(w) && Reaches(w, es, v) && Inv(v)
    ensures Reaches(w, more, u) && Inv(u) && u.pipe == [] && SameCalendar(v, u) && u.connected == v.connected
    ensures Unread(es) ==> Unread(more)
    decreases |v.pipe|
  {
    more, u := es, v;
    if v.pipe != [] {
      more, u := Goes(w, es, v, TakePush);
      more, u := Drains(w, more, u);
    }
  }

  /** The pushes on their way are taken, and then one that hides nothing. */
  lemma {:induction false} LooksAgain(w: World, es: seq<Event>, v: World) returns (more: seq<Event>, u: World)
    requires Inv(w) && Reaches(w, es, v) && Inv(v) && v.connected
    ensures Reaches(w, more, u) && Inv(u) && Current(u) && SameCalendar(v, u) && (Unread(es) ==> Unread(more))
  {
    more, u := Drains(w, es, v);
    more, u := Goes(w, more, u, HaPushes({}));
    assert u.pipe == [v.calendar - {}] && v.calendar - {} == v.calendar;
    more, u := Goes(w, more, u, TakePush);
  }

  // ---- the deletion of an occurrence ----

  /** In the calendar at most one occurrence has the schedule and key that the row names. */
  predicate Lone(calendar: set<Occ>, r: Row) {
    r.key.Some? && forall a, b :: a in calendar && b in calendar && a.sid == b.sid == r.sid && a.key == b.key == r.key.value ==> a == b
  }

  predicate Deletes1(r: Row) { r.action.Dismiss? || r.action.Expire? || r.action.Snooze? }

  /** The row's verdict is Applied, and nothing that it deals with by its key is left. */
  ghost predicate DoneIn(v: World, d: nat, r: Row) {
    && |v.states| == |v.rows| && d < |v.rows| && v.rows[d] == r && v.states[d].Applied? && v.done == d + 1 && v.pc.Idle?
  }

  /** Once the worker waits for the occurrence to be gone and it is, the row is applied. */
  lemma {:induction false} GoneIsApplied(w: World, es: seq<Event>, v: World) returns (more: seq<Event>, u: World)
    requires Inv(w) && Reaches(w, es, v) && Inv(v) && v.done < |v.rows| && Deletes1(v.rows[v.done]) && v.pc.Confirming?
    requires v.rows[v.done].key.Some? && !Finds(v.pushed, v.rows[v.done].sid, v.rows[v.done].key.value)
    requires !Finds(v.calendar, v.rows[v.done].sid, v.rows[v.done].key.value)
    ensures Reaches(w, more, u) && Inv(u) && DoneIn(u, v.done, v.rows[v.done]) && u.calendar == v.calendar
    ensures (Unread(es) ==> Unread(more)) && (Unpushed(es) ==> Unpushed(more))
  {
    more, u := Goes(w, es, v, Confirms(false));
    if u.pc.Sending? {
      more, u := Goes(w, more, u, Sent);
    }
  }

  /** Where `_delete_occurrence` leaves the worker when the last push is the calendar. */
  predicate Sought(w: World, r: Row) {
    r.key.Some? &&
    match w.pc
    case Deleting(o, rest) => !rest && o in w.calendar && o.sid == r.sid && o.key == r.key.value
    case RestFinding | Confirming(_) => !Finds(w.calendar, r.sid, r.key.value)
    case _ => false
  }

  lemma {:induction false} HitIsIt(v: World, o: Occ)
    requires Inv(v) && o in v.calendar
    ensures Hit(v.calendar, o.uid, Rid(o)) == {o}
  {
    forall x
      ensures x in Hit(v.calendar, o.uid, Rid(o)) <==> x in {o}
    {
      if x in Hit(v.calendar, o.uid, Rid(o)) {
        HitsItself(v, o, x);
      }
    }
  }

  lemma {:induction false} DeletingIsGone(w: World, es: seq<Event>, v: World) returns (more: seq<Event>, u: World)
    requires Inv(w) && Reaches(w, es, v) && Inv(v) && Current(v) && v.done < |v.rows| && Deletes1(v.rows[v.done])
    requires v.pc.Deleting? && Sought(v, v.rows[v.done]) && Lone(v.calendar, v.rows[v.done])
    ensures Reaches(w, more, u) && Inv(u) && DoneIn(u, v.done, v.rows[v.done]) && u.calendar == v.calendar - {v.pc.occ}
    ensures Unread(es) ==> Unread(more)
  {
    var r, o := v.rows[v.done], v.pc.occ;
    HitIsIt(v, o);
    more, u := Goes(w, es, v, Deletes(true, Answered));
    assert u.pc == Confirming(false) && u.calendar == v.calendar - {o};
    more, u := LooksAgain(w, more, u);
    assert !Finds(u.calendar, r.sid, r.key.value);
    more, u := GoneIsApplied(w, more, u);
  }

  lemma {:induction false} SoughtIsGone(w: World, es: seq<Event>, v: World) returns (more: seq<Event>, u: World)
    requires Inv(w) && Reaches(w, es, v) && Inv(v) && Current(v) && v.done < |v.rows| && Deletes1(v.rows[v.done])
    requires Sought(v, v.rows[v.done]) && Lone(v.calendar, v.rows[v.done])
    ensures Reaches(w, more, u) && Inv(u) && DoneIn(u, v.done, v.rows[v.done])
    ensures u.calendar <= v.calendar && !Finds(u.calendar, v.rows[v.done].sid, v.rows[v.done].key.value)
    ensures forall o :: o in v.calendar && !Handles(v.rows[v.done], o.sid, o.key) ==> o in u.calendar
    ensures Unread(es) && !v.pc.RestFinding? ==> Unread(more)
  {
    more, u := es, v;
    if v.pc.Deleting? {
      more, u := DeletingIsGone(w, more, u);
    } else {
      if v.pc.RestFinding? {
        more, u := Goes(w, more, u, RestFinds(None));
      }
      more, u := GoneIsApplied(w, more, u);
    }
  }

  lemma {:induction false} SeekIsSought(w: World, r: Row, pick: Option<Occ>)
    requires w.pushed == w.calendar && Picks(w.pushed, r, pick)
    ensures Sought(Seek(w, r, pick), r) && (Seek(w, r, pick).pc.RestFinding? ==> BeforeWindow(w, r))
  {
  }

  lemma {:induction false} SomePick(view: set<Occ>, r: Row) returns (pick: Option<Occ>)
    requires r.key.Some?
    ensures Picks(view, r, pick)
  {
    if o :| o in view && o.sid == r.sid && o.key == r.key.value {
      pick := Some(o);
    } else {
      pick := None;
    }
  }

  /** A dismissal or expiry that is taken up with a fresh look deletes what it names and is applied, by what
      pushes show alone unless that lies before their window. */
  lemma {:induction false} DismissIsDone(w: World, es: seq<Event>, v: World) returns (more: seq<Event>, u: World)
    requires Inv(w) && Reaches(w, es, v) && Fresh(v) && Lone(v.calendar, v.rows[v.done])
    requires v.rows[v.done].action.Dismiss? || v.rows[v.done].action.Expire?
    ensures Reaches(w, more, u) && Inv(u) && DoneIn(u, v.done, v.rows[v.done])
    ensures u.calendar <= v.calendar && !Finds(u.calendar, v.rows[v.done].sid, v.rows[v.done].key.value)
    ensures forall o :: o in v.calendar && !Handles(v.rows[v.done], o.sid, o.key) ==> o in u.calendar
    ensures Unread(es) && !BeforeWindow(v, v.rows[v.done]) ==> Unread(more)
  {
    var r := v.rows[v.done];
    var pick := SomePick(v.pushed, r);
    SeekIsSought(v, r, pick);
    more, u := Goes(w, es, v, Begin(pick));
    more, u := SoughtIsGone(w, more, u);
  }

  /** A worker that looks by REST for what its row names finds it and deletes it, with no push. */
  lemma {:induction false} ReadIsGone(w: World, es: seq<Event>, v: World) returns (more: seq<Event>, u: World)
    requires Inv(w) && Reaches(w, es, v) && Inv(v) && v.connected && v.done < |v.rows| && Deletes1(v.rows[v.done]) && v.pc.RestFinding?
    requires Lone(v.calendar, v.rows[v.done]) && !Finds(v.pushed, v.rows[v.done].sid, v.rows[v.done].key.value)
    ensures Reaches(w, more, u) && Inv(u) && DoneIn(u, v.done, v.rows[v.done]) && (Unpushed(es) ==> Unpushed(more))
    ensures u.calendar <= v.calendar && !Finds(u.calendar, v.rows[v.done].sid, v.rows[v.done].key.value)
    ensures forall o :: o in v.calendar && !Handles(v.rows[v.done], o.sid, o.key) ==> o in u.calendar
  {
    more, u := ReadIsDeleted(w, es, v);
    more, u := GoneIsApplied(w, more, u);
  }

  lemma {:induction false} ReadIsDeleted(w: World, es: seq<Event>, v: World) returns (more: seq<Event>, u: World)
    requires Inv(w) && Reaches(w, es, v) && Inv(v) && v.connected && v.done < |v.rows| && Deletes1(v.rows[v.done]) && v.pc.RestFinding?
    requires Lone(v.calendar, v.rows[v.done])
    ensures Reaches(w, more, u) && Inv(u) && u.pc.Confirming? && (Unpushed(es) ==> Unpushed(more))
    ensures u.rows == v.rows && u.states == v.states && u.done == v.done && u.pushed == v.pushed
    ensures u.calendar <= v.calendar && !Finds(u.calendar, v.rows[v.done].sid, v.rows[v.done].key.value)
    ensures forall o :: o in v.calendar && !Handles(v.rows[v.done], o.sid, o.key) ==> o in u.calendar
  {
    var pick := SomePick(v.calendar, v.rows[v.done]);
    more, u := Goes(w, es, v, RestFinds(pick));
    if pick.Some? {
      HitIsIt(u, pick.value);
      more, u := Goes(w, more, u, Deletes(true, Answered));
    }
  }

  /** What lies before the window, where pushes do not show it, is deleted all the same. */
  lemma {:induction false} OldDismissIsDone(w: World) returns (es: seq<Event>, v: World)
    requires Ready(w) && Lone(w.calendar, w.rows[w.done]) && BeforeWindow(w, w.rows[w.done])
    requires w.rows[w.done].action.Dismiss? || w.rows[w.done].action.Expire?
    requires !Finds(w.pushed, w.rows[w.done].sid, w.rows[w.done].key.value)
    ensures Reaches(w, es, v) && Unpushed(es) && DoneIn(v, w.done, w.rows[w.done])
    ensures v.calendar <= w.calendar && !Finds(v.calendar, w.rows[w.done].sid, w.rows[w.done].key.value)
    ensures forall o :: o in w.calendar && !Handles(w.rows[w.done], o.sid, o.key) ==> o in v.calendar
  {
    var u := Next(w, Begin(None));
    StepKeeps(w, Begin(None));
    OneStep(w, Begin(None), u);
    es, v := ReadIsGone(w, [Begin(None)], u);
  }

  /** With another occurrence of that schedule and key the deletion is answered and still nothing can
      confirm it: the worker waits until it gives up. */
  lemma {:induction false} TwinIsRejected(w: World, a: Occ, b: Occ) returns (es: seq<Event>, v: World)
    requires Fresh(w) && (w.rows[w.done].action.Dismiss? || w.rows[w.done].action.Expire?)
    requires a in w.calendar && b in w.calendar && a != b && a.sid == b.sid == w.rows[w.done].sid && Some(a.key) == Some(b.key) == w.rows[w.done].key
    ensures Reaches(w, es, v) && b in v.calendar && |v.states| == |w.states| && v.states[w.done].Rejected?
  {
    es, v := TwinIsLeft(w, a, b);
    es, v := LooksAgain(w, es, v);
    TwinBlocks(v, b);
    es, v := Goes(w, es, v, GivesUp);
  }

  lemma {:induction false} TwinBlocks(v: World, b: Occ)
    requires Inv(v) && v.pc == Confirming(false) && b in v.pushed && b.sid == v.rows[v.done].sid && Some(b.key) == v.rows[v.done].key
    ensures !Enabled(v, Confirms(false)) && Enabled(v, GivesUp)
  {
    assert Finds(v.pushed, b.sid, b.key);
  }

  lemma {:induction false} TwinIsLeft(w: World, a: Occ, b: Occ) returns (es: seq<Event>, v: World)
    requires Fresh(w) && (w.rows[w.done].action.Dismiss? || w.rows[w.done].action.Expire?)
    requires a in w.calendar && b in w.calendar && a != b && a.sid == b.sid == w.rows[w.done].sid && Some(a.key) == Some(b.key) == w.rows[w.done].key
    ensures Reaches(w, es, v) && Inv(v) && v.pc == Confirming(false) && v.connected && b in v.calendar
    ensures v.rows == w.rows && v.states == w.states && v.done == w.done
  {
    var w1 := w.(pc := Deleting(a, false));
    OneStep(w, Begin(Some(a)), w1);
    if b in Hit(w.calendar, a.uid, Rid(a)) {
      HitsItself(w, a, b);
      assert false;
    }
    es, v := Goes(w, [Begin(Some(a))], w1, Deletes(true, Answered));
  }

  // ---- a cancelled schedule ----

  /** All that the calendar has of the schedule is the event that is cancelled. */
  predicate Whole(calendar: set<Occ>, r: Row) { r.uid.Some? && forall o :: o in calendar && o.sid == r.sid ==> o.uid == r.uid.value }

  lemma {:induction false} CancelIsAnswered(w: World, es: seq<Event>, v: World) returns (more: seq<Event>, u: World)
    requires Inv(w) && Reaches(w, es, v) && Fresh(v) && v.rows[v.done].action.Cancel?
    ensures Reaches(w, more, u) && Inv(u) && u.pc.CancelConfirming? && u.connected && u.calendar == v.calendar - Hit(v.calendar, v.rows[v.done].uid.value, None)
    ensures u.rows == v.rows && u.states == v.states && u.done == v.done
  {
    more, u := Goes(w, es, v, Begin(None));
    more, u := Goes(w, more, u, Cancels(true, Answered));
  }

  lemma {:induction false} CancelIsDone(w: World, es: seq<Event>, v: World) returns (more: seq<Event>, u: World)
    requires Inv(w) && Reaches(w, es, v) && Fresh(v) && v.rows[v.done].action.Cancel? && Whole(v.calendar, v.rows[v.done])
    ensures Reaches(w, more, u) && Inv(u) && DoneIn(u, v.done, v.rows[v.done])
    ensures u.calendar <= v.calendar && !FindsSchedule(u.calendar, v.rows[v.done].sid)
    ensures forall o :: o in v.calendar && o.sid != v.rows[v.done].sid ==> o in u.calendar
  {
    var r := v.rows[v.done];
    assert RowFits(r, v.ever, v.nextUid);
    more, u := CancelIsAnswered(w, es, v);
    more, u := LooksAgain(w, more, u);
    assert !FindsSchedule(u.pushed, r.sid);
    more, u := Goes(w, more, u, CancelConfirms);
  }

  // ---- an event that is made ----

  /** The row's event has an occurrence. */
  predicate Shown(r: Row) { r.event.Some? && exists k :: k in r.event.value.keys }

  lemma {:induction false} MadeIsThere(w: World, r: Row)
    requires w.done < |w.rows| && r == w.rows[w.done] && Shown(r)
    ensures ByOp(HaCreates(w).calendar, r.op) && w.calendar <= HaCreates(w).calendar
    ensures forall o :: o in HaCreates(w).calendar && o !in w.calendar ==> o.op == Some(r.op) && o.sid == r.event.value.sid
  {
    var t := r.event.value;
    var k :| k in t.keys;
    assert Occ(w.nextUid, t.sid, k, Some(r.op), t.recurring) in Made(w.nextUid, r.op, t);
  }

  /** A worker about to make its event makes it and, after a look, waits no longer for it to show. */
  lemma {:induction false} CreatingShows(w: World, es: seq<Event>, v: World) returns (more: seq<Event>, u: World)
    requires Inv(w) && Reaches(w, es, v) && Inv(v) && v.pc.Creating? && v.connected && v.done < |v.rows| && Shown(v.rows[v.done])
    ensures Reaches(w, more, u) && Inv(u) && Current(u) && u.pc.Showing? && ByOp(u.calendar, v.rows[v.done].op)
    ensures u.rows == v.rows && u.states == v.states && u.done == v.done && v.calendar <= u.calendar
    ensures forall o :: o in u.calendar && o !in v.calendar ==> o.op == Some(v.rows[v.done].op) && o.sid == v.rows[v.done].event.value.sid
    ensures Unread(es) ==> Unread(more)
  {
    more, u := Makes(w, es, v);
    more, u := LooksAgain(w, more, u);
  }

  /** A create that is taken up with a fresh look makes its event, if it is not there, and is applied, by
      what pushes show alone unless the event lies past their window. */
  lemma {:induction false} CreateIsDone(w: World, es: seq<Event>, v: World) returns (more: seq<Event>, u: World)
    requires Inv(w) && Reaches(w, es, v) && Fresh(v) && v.rows[v.done].action.Create? && Shown(v.rows[v.done]) && !PastWindow(v, v.rows[v.done])
    ensures Reaches(w, more, u) && Inv(u) && DoneIn(u, v.done, v.rows[v.done]) && (Unread(es) ==> Unread(more))
    ensures v.calendar <= u.calendar && ByOp(u.calendar, v.rows[v.done].op)
  {
    more, u := Goes(w, es, v, Begin(None));
    if u.pc.Creating? {
      more, u := CreatingShows(w, more, u);
    }
    more, u := Goes(w, more, u, Sees(None));
  }

  /** One past the window, which no push would show, is looked up by REST instead, and needs no push. */
  lemma {:induction false} FarCreateIsDone(w: World, es: seq<Event>, v: World) returns (more: seq<Event>, u: World)
    requires Inv(w) && Reaches(w, es, v) && Ready(v) && v.rows[v.done].action.Create? && Shown(v.rows[v.done]) && PastWindow(v, v.rows[v.done])
    ensures Reaches(w, more, u) && Inv(u) && DoneIn(u, v.done, v.rows[v.done]) && (Unpushed(es) ==> Unpushed(more))
    ensures v.calendar <= u.calendar && ByOp(u.calendar, v.rows[v.done].op)
  {
    more, u := Goes(w, es, v, Begin(None));
    more, u := FarIsMade(w, more, u);
    more, u := Goes(w, more, u, RestLooks(true));
  }

  lemma {:induction false} FarIsMade(w: World, es: seq<Event>, v: World) returns (more: seq<Event>, u: World)
    requires Inv(w) && Reaches(w, es, v) && Inv(v) && v.pc.FarLooking? && v.connected && v.done < |v.rows| && Shown(v.rows[v.done])
    ensures Reaches(w, more, u) && Inv(u) && u.pc.FarConfirming? && v.calendar <= u.calendar && ByOp(u.calendar, v.rows[v.done].op)
    ensures u.rows == v.rows && u.states == v.states && u.done == v.done && (Unpushed(es) ==> Unpushed(more))
  {
    var there := ByOp(v.calendar, v.rows[v.done].op);
    more, u := Goes(w, es, v, RestLooks(there));
    if !there {
      MadeIsThere(u, v.rows[v.done]);
      more, u := Goes(w, more, u, Creates(true, Answered));
    }
  }

  // ---- a snooze ----

  /** The alarm to be snoozed can be found, or the snooze was begun before. */
  predicate Snoozable(w: World, r: Row) {
    ByOp(w.calendar, r.op) || w.step != 0 || FindsSchedule(w.calendar, r.sid)
  }

  lemma {:induction false} ShowingIsGone(w: World, es: seq<Event>, v: World) returns (more: seq<Event>, u: World)
    requires Inv(w) && Reaches(w, es, v) && Inv(v) && Current(v) && v.pc.Showing? && v.done < |v.rows| && v.rows[v.done].action.Snooze?
    requires ByOp(v.calendar, v.rows[v.done].op) && Lone(v.calendar, v.rows[v.done])
    ensures Reaches(w, more, u) && Inv(u) && DoneIn(u, v.done, v.rows[v.done])
    ensures u.calendar <= v.calendar && !Finds(u.calendar, v.rows[v.done].sid, v.rows[v.done].key.value)
    ensures forall o :: o in v.calendar && !Handles(v.rows[v.done], o.sid, o.key) ==> o in u.calendar
  {
    var r := v.rows[v.done];
    var pick := SomePick(v.pushed, r);
    more, u := Goes(w, es, v, Sees(pick));
    SeekIsSought(v.(shown := v.shown + {r.op}), r, pick);
    more, u := SoughtIsGone(w, more, u);
  }

  /** A snooze that is taken up with a fresh look makes its child and takes its parent away. */
  lemma {:induction false} SnoozeIsDone(w: World, es: seq<Event>, v: World) returns (more: seq<Event>, u: World)
    requires Inv(w) && Reaches(w, es, v) && Fresh(v) && v.rows[v.done].action.Snooze? && Shown(v.rows[v.done])
    requires Snoozable(v, v.rows[v.done]) && Lone(v.calendar, v.rows[v.done])
    ensures Reaches(w, more, u) && Inv(u) && DoneIn(u, v.done, v.rows[v.done])
    ensures ByOp(u.calendar, v.rows[v.done].op) && !Finds(u.calendar, v.rows[v.done].sid, v.rows[v.done].key.value)
  {
    var r := v.rows[v.done];
    assert RowFits(r, v.ever, v.nextUid);
    more, u := Goes(w, es, v, Begin(None));
    if u.pc.Creating? {
      more, u := CreatingShows(w, more, u);
    }
    var child :| child in u.calendar && child.op == Some(r.op);
    assert RowFits(r, u.ever, u.nextUid);
    more, u := ShowingIsGone(w, more, u);
    assert child in u.calendar;
  }

  /** Before the window, where pushes show nothing of the schedule, the alarm to be snoozed is looked up by
      REST: its child is then made, with no push. */
  lemma {:induction false} OldSnoozeBegins(w: World) returns (es: seq<Event>, v: World)
    requires Ready(w) && w.rows[w.done].action.Snooze? && Shown(w.rows[w.done]) && BeforeWindow(w, w.rows[w.done])
    requires !ByOp(w.pushed, w.rows[w.done].op) && !FindsSchedule(w.pushed, w.rows[w.done].sid)
    requires Finds(w.calendar, w.rows[w.done].sid, w.rows[w.done].key.value)
    ensures Reaches(w, es, v) && Inv(v) && Unpushed(es) && v.pc.Showing? && v.connected && ByOp(v.calendar, w.rows[w.done].op)
    ensures w.calendar <= v.calendar && v.rows == w.rows && v.states == w.states && v.done == w.done
  {
    es, v := OldIsThere(w);
    es, v := Makes(w, es, v);
  }

  lemma {:induction false} OldIsThere(w: World) returns (es: seq<Event>, v: World)
    requires Ready(w) && w.rows[w.done].action.Snooze? && BeforeWindow(w, w.rows[w.done])
    requires !ByOp(w.pushed, w.rows[w.done].op) && !FindsSchedule(w.pushed, w.rows[w.done].sid)
    requires Finds(w.calendar, w.rows[w.done].sid, w.rows[w.done].key.value)
    ensures Reaches(w, es, v) && Inv(v) && Unpushed(es) && v.pc.Creating? && v.connected
    ensures w.calendar == v.calendar && v.rows == w.rows && v.states == w.states && v.done == w.done
  {
    v := Next(w, Begin(None));
    StepKeeps(w, Begin(None));
    OneStep(w, Begin(None), v);
    es := [Begin(None)];
    if v.pc.Checking? {
      es, v := Goes(w, es, v, RestLooks(true));
    }
  }

  lemma {:induction false} Makes(w: World, es: seq<Event>, v: World) returns (more: seq<Event>, u: World)
    requires Inv(w) && Reaches(w, es, v) && Inv(v) && v.pc.Creating? && v.connected && v.done < |v.rows| && Shown(v.rows[v.done])
    ensures Reaches(w, more, u) && Inv(u) && u.pc.Showing? && u.connected && ByOp(u.calendar, v.rows[v.done].op)
    ensures u.rows == v.rows && u.states == v.states && u.done == v.done && v.calendar <= u.calendar
    ensures forall o :: o in u.calendar && o !in v.calendar ==> o.op == Some(v.rows[v.done].op) && o.sid == v.rows[v.done].event.value.sid
    ensures (Unread(es) ==> Unread(more)) && (Unpushed(es) ==> Unpushed(more))
  {
    MadeIsThere(v, v.rows[v.done]);
    more, u := Goes(w, es, v, Creates(true, Answered));
  }

  /** Once its child shows, the alarm before the window is deleted, with no further push. */
  lemma {:induction false} OldSnoozeEnds(w: World) returns (es: seq<Event>, v: World)
    requires Inv(w) && w.connected && w.pc.Showing? && w.done < |w.rows| && w.rows[w.done].action.Snooze?
    requires BeforeWindow(w, w.rows[w.done]) && ByOp(w.pushed, w.rows[w.done].op)
    requires Lone(w.calendar, w.rows[w.done]) && !Finds(w.pushed, w.rows[w.done].sid, w.rows[w.done].key.value)
    ensures Reaches(w, es, v) && Unpushed(es) && DoneIn(v, w.done, w.rows[w.done])
    ensures !Finds(v.calendar, w.rows[w.done].sid, w.rows[w.done].key.value)
    ensures forall o :: o in w.calendar && !Handles(w.rows[w.done], o.sid, o.key) ==> o in v.calendar
  {
    var u := Next(w, Sees(None));
    StepKeeps(w, Sees(None));
    OneStep(w, Sees(None), u);
    es, v := ReadIsGone(w, [Sees(None)], u);
  }

  // ---- from anywhere ----

  /** What can be carried out: the event to be made has an occurrence, the alarm to be snoozed is there, and
      what is to be deleted is one thing. */
  predicate Feasible(w: World, r: Row) {
    match r.action
    case Create => Shown(r)
    case Dismiss | Expire => Lone(w.calendar, r)
    case Cancel => Whole(w.calendar, r)
    case Snooze => Shown(r) && Snoozable(w, r) && Lone(w.calendar, r)
  }

  /** The row has done what it asks: its event is there, and what it deals with is not. */
  ghost predicate Achieved(calendar: set<Occ>, r: Row) {
    && (r.action.Create? || r.action.Snooze? ==> ByOp(calendar, r.op))
    && (r.action.Cancel? ==> !FindsSchedule(calendar, r.sid))
    && (r.action.Dismiss? || r.action.Expire? || r.action.Snooze? ==> r.key.Some? && !Finds(calendar, r.sid, r.key.value))
  }

  lemma {:induction false} FreshIsDone(w: World, es: seq<Event>, v: World) returns (more: seq<Event>, u: World)
    requires Inv(w) && Reaches(w, es, v) && Fresh(v) && Feasible(v, v.rows[v.done])
    ensures Reaches(w, more, u) && Inv(u) && DoneIn(u, v.done, v.rows[v.done]) && Achieved(u.calendar, v.rows[v.done])
  {
    match v.rows[v.done].action {
      case Create =>
        if PastWindow(v, v.rows[v.done]) {
          more, u := FarCreateIsDone(w, es, v);
        } else {
          more, u := CreateIsDone(w, es, v);
        }
      case Dismiss | Expire => more, u := DismissIsDone(w, es, v);
      case Cancel => more, u := CancelIsDone(w, es, v);
      case Snooze => more, u := SnoozeIsDone(w, es, v);
    }
  }

  /** How the worker gets out of the stage it is in when the connection goes. */
  function Bail(pc: Stage): Event {
    match pc
    case Creating | FarCreating => Creates(false, Lost)
    case Deleting(_, _) => Deletes(false, Lost)
    case Cancelling => Cancels(false, Lost)
    case _ => Fails
  }

  lemma {:induction false} Bails(w: World, es: seq<Event>, v: World) returns (more: seq<Event>, u: World)
    requires Inv(w) && Reaches(w, es, v) && Inv(v) && !v.connected && !v.pc.Idle? && !v.pc.Sending?
    ensures Reaches(w, more, u) && Inv(u) && u.pc.Idle? && SameCalendar(v.(pc := Idle), u)
  {
    more, u := Goes(w, es, v, Bail(v.pc));
  }

  /** A lost connection and a new one bring the worker back to the start of its row with a fresh look. */
  lemma {:induction false} StartsAgain(w: World, es: seq<Event>, v: World) returns (more: seq<Event>, u: World)
    requires Inv(w) && Reaches(w, es, v) && Inv(v) && v.done < |v.rows| && Supported(v.rows[v.done]) && !v.pc.Sending?
    ensures Reaches(w, more, u) && Fresh(u) && SameCalendar(v.(pc := Idle), u)
  {
    more, u := Goes(w, es, v, Drop);
    if !u.pc.Idle? {
      more, u := Bails(w, more, u);
    }
    more, u := Goes(w, more, u, Connect(v.windowStart, v.windowEnd));
    more, u := LooksAgain(w, more, u);
  }

  /** Every pending operation that is well formed and can be carried out gets done: from every reachable
      world a reconnection, one push of the whole calendar and calls that are answered lead to one in which
      it is applied and has done what it asks. */
  lemma {:induction false} EveryOperationGetsDone(w: World, es: seq<Event>, v: World) returns (more: seq<Event>, u: World)
    requires Start(w) && Inv(w) && Reaches(w, es, v) && v.done < |v.rows| == |v.states| && Supported(v.rows[v.done]) && !v.pc.Sending?
    requires Feasible(v, v.rows[v.done])
    ensures Reaches(w, more, u) && DoneIn(u, v.done, v.rows[v.done]) && Achieved(u.calendar, v.rows[v.done])
  {
    RunKeeps(w, es, v);
    more, u := StartsAgain(w, es, v);
    more, u := FreshIsDone(w, more, u);
  }

  /** And without a reconnection, when the worker has not begun yet: one look, and calls that are answered. */
  lemma {:induction false} NextOperationGetsDone(w: World, es: seq<Event>, v: World) returns (more: seq<Event>, u: World)
    requires Start(w) && Inv(w) && Reaches(w, es, v) && v.done < |v.rows| == |v.states| && Supported(v.rows[v.done])
    requires v.pc.Idle? && v.connected && Feasible(v, v.rows[v.done])
    ensures Reaches(w, more, u) && DoneIn(u, v.done, v.rows[v.done]) && Achieved(u.calendar, v.rows[v.done])
  {
    RunKeeps(w, es, v);
    more, u := LooksAgain(w, es, v);
    more, u := FreshIsDone(w, more, u);
  }
}
