/** No operation makes two events, as long as a create that Home Assistant carries out is not answered by
    silence over a living connection, and the pushes show what the pending operation has made. */
module OneEvent {
  import opened Basics
  import opened JournalSpec
  import opened JournalProtocol

  /** The occurrences that the first pending operation has made. */
  function Ours(w: World): set<Occ> {
    set o | o in w.ever && w.done < |w.rows| && o.op == Some(w.rows[w.done].op)
  }

  /** What the operation relies on: a push shows something of its event, once it is made and does not start
      past the live window; a create carried out in silence is one that the next attempt looks up by REST,
      and a failed read is no confirmation of one that it would not; and the restore guard lets the event be
      while its operation is pending. */
  ghost predicate Careful(w: World, e: Event) {
    match e
    case HaPushes(hidden) => !Far(w) && Ours(w) != {} ==> Shows(w.calendar - hidden, Ours(w))
    case Creates(executed, reply) => executed && reply.Silence? ==> w.pc.FarCreating? && Far(w)
    case Fails => w.pc.FarConfirming? ==> Far(w)
    case GuardDeletes(o, i) => i < |w.rows| ==> Ours(w) !! Hit(w.calendar, o.uid, if w.rows[i].action.Cancel? then None else Rid(o))
    case _ => true
  }

  // ---- the invariant ----

  predicate Making(a: Action) { a.Create? || a.Snooze? }

  /** The stages from which the row can be started again without its event having been looked for anew. */
  predicate Settled(pc: Stage) {
    !pc.Checking? && !pc.Creating? && !pc.FarCreating? && !pc.Showing? && !pc.FarConfirming?
  }

  ghost predicate OnePerOp(rows: seq<Row>, ever: set<Occ>) {
    forall i, a, b :: 0 <= i < |rows| && a in ever && b in ever && a.op == Some(rows[i].op) && b.op == Some(rows[i].op) ==> a.uid == b.uid
  }

  ghost predicate NotYet(rows: seq<Row>, done: nat, ever: set<Occ>) {
    forall i, o :: 0 <= i < |rows| && o in ever && o.op == Some(rows[i].op) ==> i <= done && Making(rows[i].action)
  }

  predicate Shows(view: set<Occ>, mine: set<Occ>) { view * mine != {} }

  ghost predicate AllShow(mine: set<Occ>, pipe: seq<set<Occ>>) {
    forall j :: 0 <= j < |pipe| ==> Shows(pipe[j], mine)
  }

  /** Once a view of the subscription shows the event, the later ones do. */
  ghost predicate Steady(mine: set<Occ>, far: bool, pushed: set<Occ>, pipe: seq<set<Occ>>) {
    && (!far && Shows(pushed, mine) ==> AllShow(mine, pipe))
    && (!far ==> forall i, j :: 0 <= i < j < |pipe| && Shows(pipe[i], mine) ==> Shows(pipe[j], mine))
  }

  ghost predicate Visible(w: World, mine: set<Occ>) {
    !Far(w) && Settled(w.pc) && mine != {} ==> AllShow(mine, w.pipe) && (w.upToDate ==> Shows(w.pushed, mine))
  }

  ghost predicate One(w: World) {
    && OnePerOp(w.rows, w.ever) && NotYet(w.rows, w.done, w.ever)
    && Ours(w) <= w.calendar && Steady(Ours(w), Far(w), w.pushed, w.pipe) && Visible(w, Ours(w))
    && (w.pc.Checking? || w.pc.Creating? || w.pc.FarCreating? ==> Ours(w) == {})
    && (!w.connected ==> w.pipe == [] && !w.upToDate)
  }

  // ---- each kind of step ----

  lemma EndKeepsOne(w: World, applied: bool)
    requires Inv(w) && w.done < |w.rows| && OnePerOp(w.rows, w.ever) && NotYet(w.rows, w.done, w.ever)
    requires !w.connected ==> w.pipe == [] && !w.upToDate
    ensures One(Ended(w, applied))
  {
    var v := Ended(w, applied);
    assert Ours(v) == {};
  }

  lemma EnqueueKeepsOne(w: World, r: Row)
    requires Inv(w) && One(w) && Enqueueable(w, r)
    ensures One(Next(w, Enqueue(r)))
  {
    var v := Next(w, Enqueue(r));
    if w.done == |w.rows| {
      assert Ours(v) == {};
    } else {
      assert Ours(v) == Ours(w);
    }
  }

  lemma PushesKeepOne(w: World, hidden: set<Occ>)
    requires Inv(w) && One(w) && Enabled(w, HaPushes(hidden)) && Careful(w, HaPushes(hidden))
    ensures One(Next(w, HaPushes(hidden)))
  {
    var v, mine := Next(w, HaPushes(hidden)), Ours(w);
    assert Ours(v) == mine && Far(v) == Far(w);
    assert forall j :: 0 <= j < |v.pipe| ==> v.pipe[j] == if j < |w.pipe| then w.pipe[j] else w.calendar - hidden;
  }

  lemma TakeKeepsOne(w: World)
    requires Inv(w) && One(w) && w.pipe != []
    ensures One(Next(w, TakePush))
  {
    var v := Next(w, TakePush);
    assert Ours(v) == Ours(w) && Far(v) == Far(w);
    assert forall j :: 0 <= j < |v.pipe| ==> v.pipe[j] == w.pipe[j + 1];
  }

  /** A new subscription starts with no push under way and nothing up to date. */
  lemma LinkKeepsOne(w: World, e: Event)
    requires Inv(w) && One(w) && (e.Drop? || e.Connect? || e.Roll? || e.Crash?)
    ensures One(Next(w, e))
  {
    assert Ours(Next(w, e)) == Ours(w);
  }

  lemma FailsKeepsOne(w: World)
    requires Inv(w) && One(w) && Enabled(w, Fails) && Careful(w, Fails)
    ensures One(Next(w, Fails))
  {
    assert Ours(Next(w, Fails)) == Ours(w);
  }

  /** A deletion that spares the pending operation's own event. */
  lemma DeleteKeepsOne(w: World, uid: nat, rid: Option<int>)
    requires Inv(w) && One(w) && Ours(w) !! Hit(w.calendar, uid, rid)
    ensures One(HaDeletes(w, uid, rid))
  {
    assert Ours(HaDeletes(w, uid, rid)) == Ours(w);
  }

  /** A stage that may follow without any change to what is seen. */
  lemma MoveKeepsOne(w: World, step: nat, pc: Stage)
    requires Inv(w) && One(w)
    requires Settled(pc) ==> Visible(w.(pc := pc), Ours(w))
    requires pc.Checking? || pc.Creating? || pc.FarCreating? ==> Ours(w) == {}
    ensures One(w.(step := step, pc := pc))
  {
    assert Ours(w.(step := step, pc := pc)) == Ours(w);
  }

  lemma ShownIsOurs(w: World, view: set<Occ>)
    requires Inv(w) && w.done < |w.rows| && view <= w.ever
    ensures ByOp(view, w.rows[w.done].op) <==> Shows(view, Ours(w))
  {
    if ByOp(view, w.rows[w.done].op) {
      var o :| o in view && o.op == Some(w.rows[w.done].op);
      assert o in view * Ours(w);
    }
  }

  lemma BeginKeepsOne(w: World, pick: Option<Occ>)
    requires Inv(w) && One(w) && Enabled(w, Begin(pick))
    ensures One(Next(w, Begin(pick)))
  {
    var r, v := w.rows[w.done], Next(w, Begin(pick));
    ShownIsOurs(w, w.pushed);
    if v.done == w.done {
      MoveKeepsOne(w, v.step, v.pc);
    } else {
      EndKeepsOne(w, false);
    }
  }

  /** Once a push has shown the event, every later view does. */
  lemma SeesKeepsOne(w: World, pick: Option<Occ>)
    requires Inv(w) && One(w) && Enabled(w, Sees(pick))
    ensures One(Next(w, Sees(pick)))
  {
    var r, v := w.rows[w.done], Next(w, Sees(pick));
    var u := w.(shown := w.shown + {r.op});
    ShownIsOurs(w, w.pushed);
    ShowKeeps(w, w.pushed);
    assert Ours(u) == Ours(w);
    if r.action.Snooze? {
      MoveKeepsOne(u, v.step, v.pc);
    } else {
      EndKeepsOne(u, true);
    }
  }

  lemma LooksKeepsOne(w: World, found: bool)
    requires Inv(w) && One(w) && Enabled(w, RestLooks(found))
    ensures One(Next(w, RestLooks(found)))
  {
    var v := Next(w, RestLooks(found));
    if v.done == w.done {
      ShownIsOurs(w, w.calendar);
      MoveKeepsOne(w, v.step, v.pc);
    } else if w.pc.FarConfirming? && found {
      ShowKeeps(w, w.calendar);
      EndKeepsOne(w.(shown := w.shown + {w.rows[w.done].op}), true);
    } else {
      EndKeepsOne(w, false);
    }
  }

  /** Just made: no view can hold it yet. */
  lemma MadeKeepsOne(w: World)
    requires Inv(w) && One(w) && (w.pc.Creating? || w.pc.FarCreating?) && w.connected
    ensures var u := HaCreates(w);
      && OnePerOp(u.rows, u.ever) && NotYet(u.rows, u.done, u.ever)
      && Ours(u) <= u.calendar && Steady(Ours(u), Far(u), u.pushed, u.pipe)
  {
    var u, r := HaCreates(w), w.rows[w.done];
    var made := Made(w.nextUid, r.op, r.event.value);
    assert forall o :: o in w.ever ==> o !in made;
    assert forall o :: o in w.ever && o.op == Some(r.op) ==> o in Ours(w);
    assert Ours(u) == made;
    forall i, a, b | 0 <= i < |w.rows| && a in u.ever && b in u.ever && a.op == Some(w.rows[i].op) && b.op == Some(w.rows[i].op)
      ensures a.uid == b.uid
    {
      if a in made || b in made {
        assert w.rows[i].op == r.op && i == w.done;
        assert a in w.ever ==> a in Ours(w);
        assert b in w.ever ==> b in Ours(w);
      }
    }
  }

  lemma CreatesKeepsOne(w: World, executed: bool, reply: Reply)
    requires Inv(w) && One(w) && Enabled(w, Creates(executed, reply)) && Careful(w, Creates(executed, reply))
    ensures One(Next(w, Creates(executed, reply)))
  {
    var u := if executed then HaCreates(w) else w;
    if executed {
      CreateKeeps(w);
      MadeKeepsOne(w);
    }
    RepliedKeepsOne(u, reply, 1, if w.pc.FarCreating? then FarConfirming else Showing);
  }

  lemma RepliedKeepsOne(w: World, reply: Reply, step: nat, next: Stage)
    requires Inv(w) && w.done < |w.rows| && OnePerOp(w.rows, w.ever) && NotYet(w.rows, w.done, w.ever)
    requires Ours(w) <= w.calendar && Steady(Ours(w), Far(w), w.pushed, w.pipe) && (!w.connected ==> w.pipe == [] && !w.upToDate)
    requires !next.Checking? && !next.Creating? && !next.FarCreating?
    requires reply.Answered? ==> Visible(w.(pc := next), Ours(w))
    requires reply.Silence? ==> Visible(w.(pc := Idle), Ours(w))
    ensures One(Replied(w, reply, step, next))
  {
    var v := Replied(w, reply, step, next);
    if reply.Refused? {
      EndKeepsOne(w, false);
    } else {
      assert Ours(v) == Ours(w) && Far(v) == Far(w);
    }
  }

  lemma DeletesKeepsOne(w: World, executed: bool, reply: Reply)
    requires Inv(w) && One(w) && Enabled(w, Deletes(executed, reply))
    ensures One(Next(w, Deletes(executed, reply)))
  {
    var u := if executed then HaDeletes(w, w.pc.occ.uid, Rid(w.pc.occ)) else w;
    if executed {
      DeletesOther(w);
    }
    RepliedKeepsOne(u, reply, if w.rows[w.done].action.Snooze? then 2 else 1, Confirming(w.pc.rest));
  }

  /** What a row deletes is never its own event. */
  lemma {:induction false} DeletesOther(w: World)
    requires Inv(w) && One(w) && w.pc.Deleting?
    ensures var u := HaDeletes(w, w.pc.occ.uid, Rid(w.pc.occ)); Inv(u) && One(u)
  {
    var occ, r := w.pc.occ, w.rows[w.done];
    forall o | o in Hit(w.calendar, occ.uid, Rid(occ))
      ensures o !in Ours(w) && Handles(r, o.sid, o.key)
    {
      HitsItself(w, occ, o);
      assert RowFits(r, w.ever, w.nextUid);
    }
    DeleteKeeps(w, occ.uid, Rid(occ), w.done);
    DeleteKeepsOne(w, occ.uid, Rid(occ));
  }

  lemma CancelsKeepsOne(w: World, executed: bool, reply: Reply)
    requires Inv(w) && One(w) && Enabled(w, Cancels(executed, reply))
    ensures One(Next(w, Cancels(executed, reply)))
  {
    var r := w.rows[w.done];
    var u := if executed then HaDeletes(w, r.uid.value, None) else w;
    assert Ours(w) == {};
    if executed {
      CancelsKeeps(w, executed, Silence);
      DeleteKeepsOne(w, r.uid.value, None);
    }
    RepliedKeepsOne(u, reply, 1, CancelConfirming);
  }

  lemma FindsKeepsOne(w: World, pick: Option<Occ>)
    requires Inv(w) && One(w) && Enabled(w, RestFinds(pick))
    ensures One(Next(w, RestFinds(pick)))
  {
    var v := Next(w, RestFinds(pick));
    MoveKeepsOne(w, v.step, v.pc);
  }

  lemma ConfirmsKeepsOne(w: World, found: bool)
    requires Inv(w) && One(w) && Enabled(w, Confirms(found))
    ensures One(Next(w, Confirms(found)))
  {
    var v := Next(w, Confirms(found));
    if v.done == w.done {
      MoveKeepsOne(w, v.step, v.pc);
    } else {
      EndKeepsOne(w, !found);
    }
  }

  lemma StepKeepsOne(w: World, e: Event)
    requires Inv(w) && One(w) && Enabled(w, e) && Careful(w, e)
    ensures One(Next(w, e))
  {
    match e
    case Enqueue(row) => EnqueueKeepsOne(w, row);
    case HaPushes(hidden) => PushesKeepOne(w, hidden);
    case TakePush => TakeKeepsOne(w);
    case GuardDeletes(o, i) => DeleteKeepsOne(w, o.uid, if w.rows[i].action.Cancel? then None else Rid(o));
    case Begin(pick) => BeginKeepsOne(w, pick);
    case RestLooks(found) => LooksKeepsOne(w, found);
    case Creates(executed, reply) => CreatesKeepsOne(w, executed, reply);
    case Sees(pick) => SeesKeepsOne(w, pick);
    case Deletes(executed, reply) => DeletesKeepsOne(w, executed, reply);
    case Cancels(executed, reply) => CancelsKeepsOne(w, executed, reply);
    case Fails => FailsKeepsOne(w);
    case RestFinds(pick) => FindsKeepsOne(w, pick);
    case Confirms(found) => ConfirmsKeepsOne(w, found);
    case CancelConfirms | Sent => EndKeepsOne(w, true);
    case GivesUp => EndKeepsOne(w, false);
    case _ => LinkKeepsOne(w, e);
  }

  // ---- whole runs ----

  ghost predicate AllCareful(w: World, es: seq<Event>, v: World)
    requires Inv(w) && Reaches(w, es, v)
    decreases es
  {
    es == [] || (Careful(w, es[0]) && (StepKeeps(w, es[0]); AllCareful(Next(w, es[0]), es[1..], v)))
  }

  lemma {:induction false} RunKeepsOne(w: World, es: seq<Event>, v: World)
    requires Inv(w) && One(w) && Reaches(w, es, v) && AllCareful(w, es, v)
    ensures Inv(v) && One(v)
    decreases es
  {
    if es != [] {
      StepKeeps(w, es[0]);
      StepKeepsOne(w, es[0]);
      RunKeepsOne(Next(w, es[0]), es[1..], v);
    }
  }

  /** At most one event is ever made for an operation, through drops, crashes, rejections and retries. */
  lemma AtMostOneEvent(w: World, es: seq<Event>, v: World, i: nat, a: Occ, b: Occ)
    requires Start(w) && Inv(w) && Reaches(w, es, v) && AllCareful(w, es, v)
    requires i < |v.rows| && a in v.ever && b in v.ever && a.op == b.op == Some(v.rows[i].op)
    ensures a.uid == b.uid
  {
    assert Ours(w) == {};
    RunKeepsOne(w, es, v);
  }

  /** An alarm to create within the live window, and the subscription's first push taken; `made` is what
      an earlier attempt has put in the calendar since. */
  function Waking(r: Row, t: Template, uid: nat, made: set<Occ>): World {
    World([r], [Pending], 0, 0, made, uid, made, true, true, 0, t.start + 1, {}, {}, [], Idle, {})
  }

  lemma WakingIsReached(w: World, r: Row, t: Template) returns (es: seq<Event>)
    requires Start(w) && Inv(w) && w.ever == {} && Enqueueable(w, r) && r.action.Create? && r.event == Some(t)
    ensures Reaches(w, es, Waking(r, t, w.nextUid, {}))
  {
    var v, connect := Waking(r, t, w.nextUid, {}), Connect(0, t.start + 1);
    var w1 := Next(w, Enqueue(r));
    StepKeeps(w, Enqueue(r));
    var w2 := Next(w1, connect);
    StepKeeps(w1, connect);
    var w3 := Next(w2, HaPushes({}));
    StepKeeps(w2, HaPushes({}));
    StepKeeps(w3, TakePush);
    var none: set<Occ> := {};
    assert w2.calendar - none == none && w3.pipe == [none];
    assert Unhandled(w3.rows, w3.states, none) == none;
    Then(w3, TakePush, [], v);
    Then(w2, HaPushes({}), [TakePush], v);
    Then(w1, connect, [HaPushes({}), TakePush], v);
    Then(w, Enqueue(r), [connect, HaPushes({}), TakePush], v);
    es := [Enqueue(r)] + [connect, HaPushes({}), TakePush];
  }

  // ---- what goes wrong without that care ----

  /** The worker is about to start, or start again, an operation that makes an event within the window. */
  predicate Ready(w: World) {
    && w.pc.Idle? && w.connected && w.upToDate && w.done < |w.rows| && Supported(w.rows[w.done]) && Making(w.rows[w.done].action)
    && !Far(w) && (w.rows[w.done].action.Snooze? ==> w.step != 0 || FindsSchedule(w.pushed, w.rows[w.done].sid))
  }

  /** It creates the event if and only if the last push does not show it. */
  lemma {:induction false} ReadyCreatesIff(w: World)
    requires Inv(w) && Ready(w)
    ensures Enabled(w, Begin(None)) && Inv(Next(w, Begin(None)))
    ensures Next(w, Begin(None)) == w.(pc := if ByOp(w.pushed, w.rows[w.done].op) then Showing else Creating)
  {
    StepKeeps(w, Begin(None));
  }

  /** A key of the event that the worker's row asks for. */
  predicate Keyed(w: World, k: int) { w.done < |w.rows| && w.rows[w.done].event.Some? && k in w.rows[w.done].event.value.keys }

  function MadeNow(w: World, k: int): Occ
    requires Keyed(w, k)
  {
    var t := w.rows[w.done].event.value;
    Occ(w.nextUid, t.sid, k, Some(w.rows[w.done].op), t.recurring)
  }

  /** Blind to the event it has already made, it makes another. */
  lemma {:induction false} BlindMakesTwo(w: World, a: Occ, k: int) returns (es: seq<Event>, v: World, b: Occ)
    requires Inv(w) && Ready(w) && !ByOp(w.pushed, w.rows[w.done].op) && Keyed(w, k)
    requires a in w.ever && a.op == Some(w.rows[w.done].op)
    ensures Reaches(w, es, v) && a in v.ever && b in v.calendar && b in v.ever && b.op == a.op && b.uid != a.uid
    ensures a in w.calendar ==> a in v.calendar
  {
    var w1 := w.(pc := Creating);
    ReadyCreatesIff(w);
    OneStep(w, Begin(None), w1);
    b := MadeNow(w, k);
    CreateSilently(w1, k);
    v := Next(w1, Creates(true, Silence));
    OneStep(w1, Creates(true, Silence), v);
    Joined(w, [Begin(None)], w1, [Creates(true, Silence)], v);
    es := [Begin(None)] + [Creates(true, Silence)];
  }

  lemma {:induction false} CreateSilently(w: World, k: int)
    requires Inv(w) && (w.pc.Creating? || w.pc.FarCreating?) && w.connected && Keyed(w, k)
    ensures var v := Next(w, Creates(true, Silence));
      && Enabled(w, Creates(true, Silence)) && v == HaCreates(w).(pc := Idle)
      && MadeNow(w, k) in v.calendar && MadeNow(w, k) in v.ever && MadeNow(w, k) !in w.ever
      && w.ever <= v.ever && w.calendar <= v.calendar
  {
    var t := w.rows[w.done].event.value;
    assert MadeNow(w, k) in Made(w.nextUid, w.rows[w.done].op, t);
  }

  /** A create carried out behind a ten-second silence leaves the worker idle on a living connection. From
      any world in which it is about to create an event that the last push does not show, started again
      before the next push it makes a second one. */
  lemma {:induction false} SilenceMakesTwo(w: World, k: int) returns (es: seq<Event>, v: World, a: Occ, b: Occ)
    requires Inv(w) && (w.pc.Creating? || w.pc.FarCreating?) && w.connected && w.upToDate && Keyed(w, k)
    requires Ready(w.(pc := Idle)) && !ByOp(w.pushed, w.rows[w.done].op)
    ensures Reaches(w, es, v) && a in v.calendar && b in v.calendar && a.op == b.op == Some(w.rows[w.done].op) && a.uid != b.uid
  {
    CreateSilently(w, k);
    var w1 := Next(w, Creates(true, Silence));
    OneStep(w, Creates(true, Silence), w1);
    a := MadeNow(w, k);
    var more;
    more, v, b := BlindMakesTwo(w1, a, k);
    Joined(w, [Creates(true, Silence)], w1, more, v);
    es := [Creates(true, Silence)] + more;
  }

  /** A push that hides what the pending operation has made lets it make a second event. */
  lemma {:induction false} HiddenPushMakesTwo(w: World, hidden: set<Occ>, a: Occ, k: int) returns (es: seq<Event>, v: World, b: Occ)
    requires Inv(w) && w.pipe == [] && w.connected && Keyed(w, k) && a in w.ever && a.op == Some(w.rows[w.done].op)
    requires Ready(w.(upToDate := true, pushed := w.calendar - hidden)) && !ByOp(w.calendar - hidden, w.rows[w.done].op)
    ensures Reaches(w, es, v) && a in v.ever && b in v.calendar && b in v.ever && b.op == a.op && b.uid != a.uid
    ensures a in w.calendar ==> a in v.calendar
  {
    var w1 := w.(pipe := [w.calendar - hidden]);
    assert w.pipe + [w.calendar - hidden] == [w.calendar - hidden];
    OneStep(w, HaPushes(hidden), w1);
    StepKeeps(w1, TakePush);
    var w2 := Next(w1, TakePush);
    OneStep(w1, TakePush, w2);
    Joined(w, [HaPushes(hidden)], w1, [TakePush], w2);
    var more;
    more, v, b := BlindMakesTwo(w2, a, k);
    Joined(w, [HaPushes(hidden)] + [TakePush], w2, more, v);
    es := [HaPushes(hidden)] + [TakePush] + more;
  }

  /** So does a REST read that fails once the window has reached an event made past it. */
  lemma {:induction false} FailedReadMakesTwo(w: World, a: Occ, k: int) returns (es: seq<Event>, v: World, b: Occ)
    requires Inv(w) && w.pc.FarConfirming? && Ready(w.(pc := Idle)) && Keyed(w, k)
    requires a in w.calendar && a.op == Some(w.rows[w.done].op) && !ByOp(w.pushed, w.rows[w.done].op)
    ensures Reaches(w, es, v) && a in v.calendar && b in v.calendar && b.op == a.op && b.uid != a.uid
  {
    var w1 := w.(pc := Idle);
    OneStep(w, Fails, w1);
    var more;
    more, v, b := BlindMakesTwo(w1, a, k);
    Joined(w, [Fails], w1, more, v);
    es := [Fails] + more;
  }

  /** And a guard that takes a pending operation's event out of the calendar lets it be made anew. */
  lemma {:induction false} GuardMakesTwo(w: World, i: nat, a: Occ, k: int) returns (es: seq<Event>, v: World, b: Occ)
    requires Inv(w) && Enabled(w, GuardDeletes(a, i)) && w.pipe == [] && Keyed(w, k) && a.op == Some(w.rows[w.done].op)
    requires var left := w.calendar - Hit(w.calendar, a.uid, if w.rows[i].action.Cancel? then None else Rid(a));
      Ready(w.(upToDate := true, pushed := left)) && !ByOp(left, w.rows[w.done].op)
    ensures Reaches(w, es, v) && a in v.ever && b in v.ever && b.op == a.op && b.uid != a.uid
  {
    var e := GuardDeletes(a, i);
    var w1 := Next(w, e);
    OneStep(w, e, w1);
    assert w1.calendar - {} == w1.calendar;
    var more;
    more, v, b := HiddenPushMakesTwo(w1, {}, a, k);
    Joined(w, [e], w1, more, v);
    es := [e] + more;
  }
}
