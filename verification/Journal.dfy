/** The write-ahead journal of calendar operations (controller/em_alerts.py): what an operation asks of the
    calendar, and the restore guard that keeps handled occurrences out of what is delivered. */
module JournalSpec {
  import opened Basics

  datatype Action = Create | Dismiss | Expire | Cancel | Snooze

  datatype State = Pending | Applied | Rejected

  /** A payload's "event": the occurrences that creating it puts in the calendar. */
  datatype Template = Template(sid: int, keys: set<int>, recurring: bool, start: int)

  /** A journal row, but for its state. `keyStart` is the time a key names, if it names one; `stray` says
      the device derived another identity for the snooze's child. */
  datatype Row = Row(
    op: int, action: Action, sid: int, key: Option<int>, event: Option<Template>, uid: Option<nat>,
    keyStart: Option<int>, stray: bool)

  /** One occurrence of one calendar event; `op` is the operation that its description names. */
  datatype Occ = Occ(uid: nat, sid: int, key: int, op: Option<int>, recurring: bool)

  function Rid(o: Occ): Option<int> { if o.recurring then Some(o.key) else None }

  /** What a row, once applied, has dealt with. */
  predicate Handles(r: Row, sid: int, key: int) {
    match r.action
    case Create => false
    case Cancel => r.sid == sid
    case _ => r.sid == sid && r.key == Some(key)
  }

  /** The branches of `_apply`; any other row is rejected as unsupported. */
  predicate Supported(r: Row) {
    match r.action
    case Create => r.event.Some?
    case Dismiss | Expire => r.key.Some?
    case Cancel => r.uid.Some?
    case Snooze => r.key.Some? && r.event.Some?
  }

  predicate ByOp(view: set<Occ>, op: int) { exists o :: o in view && o.op == Some(op) }

  predicate Finds(view: set<Occ>, sid: int, key: int) { exists o :: o in view && o.sid == sid && o.key == key }

  predicate FindsSchedule(view: set<Occ>, sid: int) { exists o :: o in view && o.sid == sid }

  /** The occurrences that creating a row's event makes, under a new uid. */
  function Made(uid: nat, op: int, t: Template): set<Occ> {
    set k | k in t.keys :: Occ(uid, t.sid, k, Some(op), t.recurring)
  }

  /** What deleting an event, or one instance of it, takes. */
  function Hit(calendar: set<Occ>, uid: nat, rid: Option<int>): set<Occ> {
    set o | o in calendar && o.uid == uid && (rid.None? || o.key == rid.value)
  }

  predicate Handled(rows: seq<Row>, states: seq<State>, sid: int, key: int)
    requires |states| == |rows|
  {
    exists i :: 0 <= i < |rows| && states[i].Applied? && Handles(rows[i], sid, key)
  }

  function Unhandled(rows: seq<Row>, states: seq<State>, pushed: set<Occ>): set<Occ>
    requires |states| == |rows|
  {
    set o | o in pushed && !Handled(rows, states, o.sid, o.key)
  }
}

/** The journal's worker, Home Assistant's calendar and the link between them: every run of enqueued
    operations, pushes, answers, silences, drops, window rolls and crashes. */
module JournalProtocol {
  import opened Basics
  import opened JournalSpec

  /** Where the worker waits within rows[done]. */
  datatype Stage =
    | Idle
    | FarLooking | FarCreating | FarConfirming  // a create past the live window, looked up by REST
    | Checking                                  // REST: is a snooze's parent there?
    | Creating
    | Showing                                   // until a push shows the event
    | RestFinding
    | Deleting(occ: Occ, rest: bool)
    | Confirming(rest: bool)                    // until the occurrence is seen gone
    | Cancelling | CancelConfirming
    | Sending                                   // a stray child's tombstone

  /** Rows and states, `done` (the rows that are finished), `step` (of the next pending row) and the
      calendar outlive a crash. `pipe` holds the pushes of the current subscription still to arrive.
      History: `ever` is every occurrence there has been, `shown` the operations whose event the worker
      has seen in a push or a REST read. */
  datatype World = World(
    rows: seq<Row>, states: seq<State>, done: nat, step: nat,
    calendar: set<Occ>, nextUid: nat, ever: set<Occ>,
    connected: bool, upToDate: bool, windowStart: int, windowEnd: int,
    pushed: set<Occ>, live: set<Occ>, pipe: seq<set<Occ>>, pc: Stage, shown: set<int>)

  /** How a call to Home Assistant ends: `Lost` with the connection, `Silence` without. */
  datatype Reply = Answered | Refused | Lost | Silence

  datatype Event =
    | Enqueue(row: Row)
    | HaPushes(hidden: set<Occ>)
    | TakePush
    | Drop
    | Connect(start: int, end: int)
    | Roll(start: int, end: int, abandons: bool)
    | Crash
    | GuardDeletes(occ: Occ, byRow: nat)
    | Begin(pick: Option<Occ>)
    | RestLooks(found: bool)
    | Creates(executed: bool, reply: Reply)
    | Sees(pick: Option<Occ>)
    | RestFinds(pick: Option<Occ>)
    | Deletes(executed: bool, reply: Reply)
    | Confirms(found: bool)
    | Cancels(executed: bool, reply: Reply)
    | CancelConfirms
    | Sent
    | GivesUp
    | Fails

  // ---- the pieces of a step ----

  function Ended(w: World, applied: bool): World
    requires w.done < |w.states|
  {
    w.(states := w.states[w.done := if applied then Applied else Rejected], done := w.done + 1, step := 0, pc := Idle)
  }

  function HaCreates(w: World): World
    requires w.done < |w.rows| && w.rows[w.done].event.Some?
  {
    var made := Made(w.nextUid, w.rows[w.done].op, w.rows[w.done].event.value);
    w.(calendar := w.calendar + made, ever := w.ever + made, nextUid := w.nextUid + 1)
  }

  function HaDeletes(w: World, uid: nat, rid: Option<int>): World {
    w.(calendar := w.calendar - Hit(w.calendar, uid, rid))
  }

  function Unlinked(w: World): World { w.(connected := false, upToDate := false, pipe := []) }

  /** After a call: on with the next stage, a rejection, or another attempt some other time. */
  function Replied(w: World, reply: Reply, step: nat, next: Stage): World
    requires w.done < |w.states|
  {
    match reply
    case Answered => w.(step := step, pc := next)
    case Refused => Ended(w, false)
    case Lost => Unlinked(w).(pc := Idle)
    case Silence => w.(pc := Idle)
  }

  predicate Far(w: World) {
    w.done < |w.rows| && w.rows[w.done].action.Create? && w.rows[w.done].event.Some?
    && w.rows[w.done].event.value.start >= w.windowEnd
  }

  predicate Old(w: World, r: Row) { r.keyStart.Some? && r.keyStart.value < w.windowStart }

  /** `_delete_occurrence` up to its first await, with what `_find` found in the last push. */
  function Seek(w: World, r: Row, pick: Option<Occ>): World {
    if pick.Some? then w.(pc := Deleting(pick.value, false))
    else if Old(w, r) then w.(pc := RestFinding)
    else w.(step := if r.action.Snooze? then 2 else 1, pc := Confirming(false))
  }

  predicate Picks(view: set<Occ>, r: Row, pick: Option<Occ>) {
    && r.key.Some?
    && (pick.Some? ==> pick.value in view && pick.value.sid == r.sid && pick.value.key == r.key.value)
    && (pick.None? ==> !Finds(view, r.sid, r.key.value))
  }

  /** `_apply` up to its first await. */
  function Started(w: World, pick: Option<Occ>): World
    requires w.done < |w.rows| == |w.states|
  {
    var r := w.rows[w.done];
    if !Supported(r) then Ended(w, false)
    else
      match r.action
      case Create =>
        if Far(w) then w.(pc := FarLooking)
        else w.(pc := if ByOp(w.pushed, r.op) then Showing else Creating)
      case Dismiss | Expire => Seek(w, r, pick)
      case Cancel => w.(pc := Cancelling)
      case Snooze =>
        if ByOp(w.pushed, r.op) then w.(pc := Showing)
        else if w.step != 0 || FindsSchedule(w.pushed, r.sid) then w.(pc := Creating)
        else if Old(w, r) then w.(pc := Checking)
        else Ended(w, false)
  }

  predicate Waiting(pc: Stage) { pc.Showing? || pc == Confirming(false) || pc.CancelConfirming? }

  predicate Reading(pc: Stage) {
    pc.FarLooking? || pc.FarConfirming? || pc.Checking? || pc.RestFinding? || pc == Confirming(true)
  }

  predicate CallEnds(w: World, executed: bool, reply: Reply) {
    (reply.Answered? ==> executed) && (executed || !reply.Lost? ==> w.connected)
  }

  /** A new row: its operation and its event's are new, and it is as the enqueuing code makes it. */
  ghost predicate Enqueueable(w: World, r: Row) {
    && (forall i :: 0 <= i < |w.rows| ==> w.rows[i].op != r.op)
    && (forall o :: o in w.ever ==> o.op != Some(r.op))
    && (r.event.Some? && !r.event.value.recurring ==> forall a, b :: a in r.event.value.keys && b in r.event.value.keys ==> a == b)
    && (r.action.Snooze? && r.event.Some? ==> r.event.value.sid != r.sid)
    && (r.uid.Some? ==> r.uid.value < w.nextUid && forall o :: o in w.ever && o.uid == r.uid.value ==> o.sid == r.sid)
  }

  ghost predicate Enabled(w: World, e: Event)
    requires w.done <= |w.rows| == |w.states|
  {
    match e
    case Enqueue(row) => Enqueueable(w, row)
    case HaPushes(_) => w.connected
    case TakePush => w.pipe != []
    case Roll(_, _, _) => w.connected
    case GuardDeletes(o, i) => w.connected && i < |w.rows| && w.states[i].Applied? && Handles(w.rows[i], o.sid, o.key) && o in w.ever
    case Begin(pick) =>
      && w.pc.Idle? && w.connected && w.upToDate && w.done < |w.rows|
      && (w.rows[w.done].action.Dismiss? || w.rows[w.done].action.Expire? ==> w.rows[w.done].key.Some? ==> Picks(w.pushed, w.rows[w.done], pick))
    case RestLooks(found) =>
      && (w.pc.FarLooking? || w.pc.FarConfirming? ==> w.done < |w.rows| && (found <==> ByOp(w.calendar, w.rows[w.done].op)))
      && (w.pc.Checking? ==> w.done < |w.rows| && w.rows[w.done].key.Some? && (found <==> Finds(w.calendar, w.rows[w.done].sid, w.rows[w.done].key.value)))
      && (w.pc.FarLooking? || w.pc.FarConfirming? || w.pc.Checking?)
    case Creates(executed, reply) => (w.pc.Creating? || w.pc.FarCreating?) && CallEnds(w, executed, reply)
    case Sees(pick) =>
      && w.pc.Showing? && w.done < |w.rows| && ByOp(w.pushed, w.rows[w.done].op)
      && (w.rows[w.done].action.Snooze? ==> Picks(w.pushed, w.rows[w.done], pick))
    case RestFinds(pick) => w.pc.RestFinding? && w.done < |w.rows| && Picks(w.calendar, w.rows[w.done], pick)
    case Deletes(executed, reply) => w.pc.Deleting? && CallEnds(w, executed, reply)
    case Confirms(found) =>
      && w.pc.Confirming? && w.done < |w.rows| && w.rows[w.done].key.Some?
      && !Finds(w.pushed, w.rows[w.done].sid, w.rows[w.done].key.value)
      && (w.pc.rest ==> (found <==> Finds(w.calendar, w.rows[w.done].sid, w.rows[w.done].key.value)))
      && (!w.pc.rest ==> !found)
    case Cancels(executed, reply) => w.pc.Cancelling? && CallEnds(w, executed, reply)
    case CancelConfirms => w.pc.CancelConfirming? && w.done < |w.rows| && !FindsSchedule(w.pushed, w.rows[w.done].sid)
    case Sent => w.pc.Sending?
    case GivesUp => Waiting(w.pc) || Reading(w.pc)
    case Fails => Reading(w.pc) || (Waiting(w.pc) && !w.connected)
    case _ => true
  }

  function Next(w: World, e: Event): World
    requires w.done <= |w.rows| == |w.states| && (w.pc.Idle? || w.done < |w.rows|) && PcFits(w)
    requires e.Begin? ==> w.done < |w.rows|
    requires e.TakePush? ==> w.pipe != []
    requires e.GuardDeletes? ==> e.byRow < |w.rows|
    requires e.Creates? ==> w.pc.Creating? || w.pc.FarCreating?
    requires e.Deletes? ==> w.pc.Deleting?
    requires e.Cancels? ==> w.pc.Cancelling?
    requires e.RestLooks? || e.Sees? || e.RestFinds? || e.Confirms? || e.CancelConfirms? || e.Sent? || e.GivesUp? ==> !w.pc.Idle?
  {
    match e
    case Enqueue(row) => w.(rows := w.rows + [row], states := w.states + [Pending])
    case HaPushes(hidden) => w.(pipe := w.pipe + [w.calendar - hidden])
    case TakePush =>
      w.(pushed := w.pipe[0], pipe := w.pipe[1..], upToDate := true, live := Unhandled(w.rows, w.states, w.pipe[0]))
    case Drop => Unlinked(w)
    case Connect(start, end) => Unlinked(w).(connected := true, windowStart := start, windowEnd := end)
    case Roll(start, end, abandons) =>
      w.(upToDate := false, pipe := [], windowStart := start, windowEnd := end,
        pc := if abandons && Waiting(w.pc) then Idle else w.pc)
    case Crash => Unlinked(w).(pushed := {}, live := {}, pc := Idle)
    case GuardDeletes(o, i) => HaDeletes(w, o.uid, if w.rows[i].action.Cancel? then None else Rid(o))
    case Begin(pick) => Started(w, pick)
    case RestLooks(found) =>
      if w.pc.FarLooking? then w.(pc := if found then FarConfirming else FarCreating)
      else if w.pc.FarConfirming? then Ended(if found then w.(shown := w.shown + {w.rows[w.done].op}) else w, found)
      else if found then w.(pc := Creating)
      else Ended(w, false)
    case Creates(executed, reply) =>
      var next := if w.pc.FarCreating? then FarConfirming else Showing;
      Replied(if executed then HaCreates(w) else w, reply, 1, next)
    case Sees(pick) =>
      var u := w.(shown := w.shown + {w.rows[w.done].op});
      if w.rows[w.done].action.Snooze? then Seek(u, w.rows[w.done], pick) else Ended(u, true)
    case RestFinds(pick) =>
      if pick.Some? then w.(pc := Deleting(pick.value, true))
      else w.(step := if w.rows[w.done].action.Snooze? then 2 else 1, pc := Confirming(true))
    case Deletes(executed, reply) =>
      Replied(if executed then HaDeletes(w, w.pc.occ.uid, Rid(w.pc.occ)) else w, reply,
        if w.rows[w.done].action.Snooze? then 2 else 1, Confirming(w.pc.rest))
    case Confirms(found) =>
      if found then Ended(w, false)
      else if w.rows[w.done].action.Snooze? && w.rows[w.done].stray then w.(pc := Sending)
      else Ended(w, true)
    case Cancels(executed, reply) =>
      Replied(if executed then HaDeletes(w, w.rows[w.done].uid.value, None) else w, reply, 1, CancelConfirming)
    case CancelConfirms => Ended(w, true)
    case Sent => Ended(w, true)
    case GivesUp => Ended(w, false)
    case Fails => w.(pc := Idle)
  }

  /** The worker's stage fits its row. */
  predicate PcFits(w: World) {
    w.pc.Idle? ||
    (w.done < |w.rows| &&
     var r := w.rows[w.done];
     Supported(r) &&
     match w.pc
     case Idle => true
     case FarLooking | FarCreating | FarConfirming => r.action.Create?
     case Checking => r.action.Snooze?
     case Creating | Showing => r.action.Create? || r.action.Snooze?
     case RestFinding | Confirming(_) => r.action.Dismiss? || r.action.Expire? || r.action.Snooze?
     case Deleting(o, _) =>
       (r.action.Dismiss? || r.action.Expire? || r.action.Snooze?) && o.sid == r.sid && r.key == Some(o.key)
     case Cancelling | CancelConfirming => r.action.Cancel?
     case Sending => Strays(r))
  }

  // ---- what every reachable world keeps ----

  /** Rows are finished strictly in order: those before `done`, and no others. */
  ghost predicate InOrder(states: seq<State>, done: nat) {
    done <= |states| && forall i :: 0 <= i < |states| ==> (states[i].Pending? <==> done <= i)
  }

  /** An event's occurrences are alike, and one without a recurrence has only one. */
  ghost predicate Proper(ever: set<Occ>, nextUid: nat) {
    && (forall o :: o in ever ==> o.uid < nextUid)
    && forall a, b :: a in ever && b in ever && a.uid == b.uid ==>
      && a.sid == b.sid && a.op == b.op && a.recurring == b.recurring && (!a.recurring ==> a == b)
  }

  ghost predicate RowsFit(rows: seq<Row>, ever: set<Occ>, nextUid: nat) {
    && (forall i, j :: 0 <= i < j < |rows| ==> rows[i].op != rows[j].op)
    && forall i :: 0 <= i < |rows| ==> RowFits(rows[i], ever, nextUid)
  }

  ghost predicate RowFits(r: Row, ever: set<Occ>, nextUid: nat) {
    && (r.event.Some? && !r.event.value.recurring ==> forall a, b :: a in r.event.value.keys && b in r.event.value.keys ==> a == b)
    && (r.action.Snooze? && r.event.Some? ==> r.event.value.sid != r.sid)
    && (r.uid.Some? ==> r.uid.value < nextUid && forall o :: o in ever && o.uid == r.uid.value ==> o.sid == r.sid)
    && (forall o :: o in ever && o.op == Some(r.op) ==> r.event.Some? && o.sid == r.event.value.sid && o.key in r.event.value.keys)
  }

  /** Whatever left the calendar was dealt with by a row, and if that is a snooze its child was seen first. */
  ghost predicate Removals(rows: seq<Row>, calendar: set<Occ>, ever: set<Occ>, shown: set<int>) {
    forall o :: o in ever && o !in calendar ==> Removed(rows, o, shown)
  }

  ghost predicate Removed(rows: seq<Row>, o: Occ, shown: set<int>) {
    exists i :: 0 <= i < |rows| && Handles(rows[i], o.sid, o.key) && (rows[i].action.Snooze? ==> rows[i].op in shown)
  }

  ghost predicate Views(w: World) {
    && w.calendar <= w.ever && w.pushed <= w.ever && w.live <= w.pushed
    && forall i :: 0 <= i < |w.pipe| ==> w.pipe[i] <= w.ever
  }

  /** An operation counts as shown only if its event has existed; a create or snooze is applied only then. */
  ghost predicate ShownHolds(w: World)
    requires |w.states| == |w.rows|
  {
    && (forall op :: op in w.shown ==> ByOp(w.ever, op))
    && forall i :: 0 <= i < |w.rows| && w.states[i].Applied? && (w.rows[i].action.Create? || w.rows[i].action.Snooze?) ==> w.rows[i].op in w.shown
  }

  /** The rows that wait once more, to send a stray child's tombstone, after they saw their parent gone. */
  predicate Strays(r: Row) { r.action.Snooze? && r.stray }

  /** Nothing live was dealt with by an applied row, save for the parent of a snooze with a stray child. */
  ghost predicate NothingRearmed(rows: seq<Row>, states: seq<State>, live: set<Occ>)
    requires |states| == |rows|
  {
    forall o, i :: o in live && 0 <= i < |rows| && states[i].Applied? && Handles(rows[i], o.sid, o.key) ==> Strays(rows[i])
  }

  ghost predicate StageHolds(w: World) {
    && PcFits(w)
    && (w.pc.Deleting? ==> w.pc.occ in w.ever)
    && (w.pc.RestFinding? || w.pc.Deleting? || w.pc.Confirming? || w.pc.Sending? ==>
        w.done < |w.rows| && (w.rows[w.done].action.Snooze? ==> w.rows[w.done].op in w.shown))
  }

  ghost predicate Inv(w: World) {
    && |w.rows| == |w.states| && InOrder(w.states, w.done)
    && Proper(w.ever, w.nextUid) && RowsFit(w.rows, w.ever, w.nextUid)
    && Removals(w.rows, w.calendar, w.ever, w.shown) && Views(w) && ShownHolds(w)
    && NothingRearmed(w.rows, w.states, w.live) && StageHolds(w)
  }

  lemma EndKeeps(w: World, applied: bool)
    requires Inv(w) && w.done < |w.rows|
    requires applied && (w.rows[w.done].action.Create? || w.rows[w.done].action.Snooze?) ==> w.rows[w.done].op in w.shown
    requires applied && !Strays(w.rows[w.done]) ==> forall o :: o in w.live ==> !Handles(w.rows[w.done], o.sid, o.key)
    ensures Inv(Ended(w, applied))
  {
  }

  lemma CreateKeeps(w: World)
    requires Inv(w) && w.done < |w.rows| && w.rows[w.done].event.Some?
    ensures Inv(HaCreates(w))
  {
    var v, r := HaCreates(w), w.rows[w.done];
    var made := Made(w.nextUid, r.op, r.event.value);
    assert RowFits(r, w.ever, w.nextUid);
    assert Proper(v.ever, v.nextUid);
    forall i | 0 <= i < |w.rows|
      ensures RowFits(w.rows[i], v.ever, v.nextUid)
    {
      assert RowFits(w.rows[i], w.ever, w.nextUid);
      assert i != w.done ==> w.rows[i].op != r.op;
    }
  }

  lemma DeleteKeeps(w: World, uid: nat, rid: Option<int>, i: nat)
    requires Inv(w) && i < |w.rows| && (w.rows[i].action.Snooze? ==> w.rows[i].op in w.shown)
    requires forall o :: o in Hit(w.calendar, uid, rid) ==> Handles(w.rows[i], o.sid, o.key)
    ensures Inv(HaDeletes(w, uid, rid))
  {
    var v := HaDeletes(w, uid, rid);
    forall o | o in v.ever && o !in v.calendar
      ensures Removed(v.rows, o, v.shown)
    {
      if o in w.calendar {
        assert o in Hit(w.calendar, uid, rid);
      } else {
        assert Removed(w.rows, o, w.shown);
      }
    }
  }

  /** Deleting an occurrence as the calendar named it takes that occurrence and no other. */
  lemma HitsItself(w: World, occ: Occ, o: Occ)
    requires Proper(w.ever, w.nextUid) && w.calendar <= w.ever && occ in w.ever
    requires o in Hit(w.calendar, occ.uid, Rid(occ))
    ensures o == occ
  {
  }

  lemma EnqueueKeeps(w: World, r: Row)
    requires Inv(w) && Enqueueable(w, r)
    ensures Inv(w.(rows := w.rows + [r], states := w.states + [Pending]))
  {
    var v := w.(rows := w.rows + [r], states := w.states + [Pending]);
    forall o | o in v.ever && o !in v.calendar
      ensures Removed(v.rows, o, v.shown)
    {
      var i :| 0 <= i < |w.rows| && Handles(w.rows[i], o.sid, o.key) && (w.rows[i].action.Snooze? ==> w.rows[i].op in w.shown);
      assert v.rows[i] == w.rows[i];
    }
    assert RowFits(r, v.ever, v.nextUid);
  }

  /** What arrives from Home Assistant, or fails to, changes only what the controller sees. */
  lemma LinkKeeps(w: World, e: Event)
    requires Inv(w) && Enabled(w, e)
    requires e.HaPushes? || e.Drop? || e.Connect? || e.Roll? || e.Crash? || e.Fails?
    ensures Inv(Next(w, e))
  {
    if e.HaPushes? {
      var v := Next(w, e);
      assert forall i :: 0 <= i < |v.pipe| ==> v.pipe[i] == (if i < |w.pipe| then w.pipe[i] else w.calendar - e.hidden);
    }
  }

  lemma PushKeeps(w: World)
    requires Inv(w) && w.pipe != []
    ensures Inv(Next(w, TakePush))
  {
    var v := Next(w, TakePush);
    assert forall i :: 0 <= i < |v.pipe| ==> v.pipe[i] == w.pipe[i + 1];
    assert forall o :: o in v.live ==> !Handled(v.rows, v.states, o.sid, o.key);
  }

  lemma GuardKeeps(w: World, occ: Occ, i: nat)
    requires Inv(w) && Enabled(w, GuardDeletes(occ, i))
    ensures Inv(Next(w, GuardDeletes(occ, i)))
  {
    var rid := if w.rows[i].action.Cancel? then None else Rid(occ);
    forall o | o in Hit(w.calendar, occ.uid, rid)
      ensures Handles(w.rows[i], o.sid, o.key)
    {
      assert o.sid == occ.sid;
      if !w.rows[i].action.Cancel? {
        HitsItself(w, occ, o);
      }
    }
    DeleteKeeps(w, occ.uid, rid, i);
  }

  lemma SeekKeeps(w: World, pick: Option<Occ>)
    requires Inv(w) && w.done < |w.rows| && Supported(w.rows[w.done]) && Picks(w.pushed, w.rows[w.done], pick)
    requires var a := w.rows[w.done].action; a.Dismiss? || a.Expire? || (a.Snooze? && w.rows[w.done].op in w.shown)
    ensures Inv(Seek(w, w.rows[w.done], pick))
  {
  }

  lemma BeginKeeps(w: World, pick: Option<Occ>)
    requires Inv(w) && Enabled(w, Begin(pick))
    ensures Inv(Next(w, Begin(pick)))
  {
    var r := w.rows[w.done];
    if !Supported(r) {
      EndKeeps(w, false);
    } else if r.action.Dismiss? || r.action.Expire? {
      SeekKeeps(w, pick);
    } else if r.action.Snooze? {
      EndKeeps(w, false);
    }
  }

  lemma SeesKeeps(w: World, pick: Option<Occ>)
    requires Inv(w) && Enabled(w, Sees(pick))
    ensures Inv(Next(w, Sees(pick)))
  {
    var r := w.rows[w.done];
    ShowKeeps(w, w.pushed);
    var u := w.(shown := w.shown + {r.op});
    if r.action.Snooze? {
      SeekKeeps(u, pick);
    } else {
      EndKeeps(u, true);
    }
  }

  lemma ShowKeeps(w: World, view: set<Occ>)
    requires Inv(w) && w.done < |w.rows| && ByOp(view, w.rows[w.done].op) && view <= w.ever
    ensures Inv(w.(shown := w.shown + {w.rows[w.done].op}))
  {
    var v := w.(shown := w.shown + {w.rows[w.done].op});
    forall o | o in v.ever && o !in v.calendar
      ensures Removed(v.rows, o, v.shown)
    {
      assert Removed(w.rows, o, w.shown);
    }
  }

  lemma LooksKeeps(w: World, found: bool)
    requires Inv(w) && Enabled(w, RestLooks(found))
    ensures Inv(Next(w, RestLooks(found)))
  {
    if w.pc.FarConfirming? && found {
      ShowKeeps(w, w.calendar);
      EndKeeps(w.(shown := w.shown + {w.rows[w.done].op}), true);
    } else {
      EndKeeps(w, false);
    }
  }

  lemma FindsKeeps(w: World, pick: Option<Occ>)
    requires Inv(w) && Enabled(w, RestFinds(pick))
    ensures Inv(Next(w, RestFinds(pick)))
  {
  }

  lemma RepliedKeeps(w: World, reply: Reply, step: nat, next: Stage)
    requires Inv(w) && w.done < |w.rows| && Inv(w.(pc := next))
    ensures Inv(Replied(w, reply, step, next))
  {
    EndKeeps(w, false);
  }

  lemma CreatesKeeps(w: World, executed: bool, reply: Reply)
    requires Inv(w) && Enabled(w, Creates(executed, reply))
    ensures Inv(Next(w, Creates(executed, reply)))
  {
    var u := if executed then HaCreates(w) else w;
    if executed {
      CreateKeeps(w);
    }
    RepliedKeeps(u, reply, 1, if w.pc.FarCreating? then FarConfirming else Showing);
  }

  lemma DeletesKeeps(w: World, executed: bool, reply: Reply)
    requires Inv(w) && Enabled(w, Deletes(executed, reply))
    ensures Inv(Next(w, Deletes(executed, reply)))
  {
    var occ, r := w.pc.occ, w.rows[w.done];
    var u := if executed then HaDeletes(w, occ.uid, Rid(occ)) else w;
    if executed {
      forall o | o in Hit(w.calendar, occ.uid, Rid(occ))
        ensures Handles(r, o.sid, o.key)
      {
        HitsItself(w, occ, o);
      }
      DeleteKeeps(w, occ.uid, Rid(occ), w.done);
    }
    RepliedKeeps(u, reply, if r.action.Snooze? then 2 else 1, Confirming(w.pc.rest));
  }

  lemma CancelsKeeps(w: World, executed: bool, reply: Reply)
    requires Inv(w) && Enabled(w, Cancels(executed, reply))
    ensures Inv(Next(w, Cancels(executed, reply)))
  {
    var r := w.rows[w.done];
    var u := if executed then HaDeletes(w, r.uid.value, None) else w;
    if executed {
      assert RowFits(r, w.ever, w.nextUid);
      DeleteKeeps(w, r.uid.value, None, w.done);
    }
    RepliedKeeps(u, reply, 1, CancelConfirming);
  }

  lemma ConfirmsKeeps(w: World, found: bool)
    requires Inv(w) && Enabled(w, Confirms(found))
    ensures Inv(Next(w, Confirms(found)))
  {
    EndKeeps(w, false);
    if !found {
      EndKeeps(w, true);
    }
  }

  lemma EndsKeep(w: World, e: Event)
    requires Inv(w) && Enabled(w, e) && (e.CancelConfirms? || e.Sent? || e.GivesUp?)
    ensures Inv(Next(w, e))
  {
    EndKeeps(w, !e.GivesUp?);
  }

  /** Every step keeps the invariant. */
  lemma StepKeeps(w: World, e: Event)
    requires Inv(w) && Enabled(w, e)
    ensures Inv(Next(w, e))
  {
    match e
    case Enqueue(row) => EnqueueKeeps(w, row);
    case TakePush => PushKeeps(w);
    case GuardDeletes(o, i) => GuardKeeps(w, o, i);
    case Begin(pick) => BeginKeeps(w, pick);
    case RestLooks(found) => LooksKeeps(w, found);
    case Creates(executed, reply) => CreatesKeeps(w, executed, reply);
    case Sees(pick) => SeesKeeps(w, pick);
    case RestFinds(pick) => FindsKeeps(w, pick);
    case Deletes(executed, reply) => DeletesKeeps(w, executed, reply);
    case Confirms(found) => ConfirmsKeeps(w, found);
    case Cancels(executed, reply) => CancelsKeeps(w, executed, reply);
    case CancelConfirms | Sent | GivesUp => EndsKeep(w, e);
    case _ => LinkKeeps(w, e);
  }

  // ---- whole runs ----

  /** A journal with no row yet, and a calendar of events that none of its operations has made. */
  ghost predicate Start(w: World) {
    && w.rows == [] && w.states == [] && w.done == 0 && w.step == 0 && w.ever == w.calendar && Proper(w.ever, w.nextUid)
    && !w.connected && !w.upToDate && w.pushed == {} && w.live == {} && w.pipe == [] && w.pc.Idle? && w.shown == {}
  }

  ghost predicate Reaches(w: World, es: seq<Event>, v: World)
    requires Inv(w)
    decreases es
  {
    if es == [] then v == w
    else Enabled(w, es[0]) && (StepKeeps(w, es[0]); Reaches(Next(w, es[0]), es[1..], v))
  }

  /** A later world: rows are only added, and finished ones never change. */
  ghost predicate Follows(w: World, v: World) {
    && |w.rows| == |w.states| && |v.rows| == |v.states| && w.rows <= v.rows && w.done <= v.done <= |v.states|
    && w.done <= |w.states| && w.states[..w.done] <= v.states && w.ever <= v.ever && w.shown <= v.shown
  }

  /** One step finishes at most one row: the first pending one. */
  ghost predicate Advances(w: World, v: World) {
    && v.rows == w.rows && w.ever <= v.ever && w.shown <= v.shown
    && ((v.states == w.states && v.done == w.done)
        || (w.done < |w.states| && w.states[w.done].Pending? && v.done == w.done + 1
            && |v.states| == |w.states| && !v.states[w.done].Pending?
            && forall i :: 0 <= i < |w.states| && i != w.done ==> v.states[i] == w.states[i]))
  }

  lemma LinkAdvances(w: World, e: Event)
    requires Inv(w) && Enabled(w, e)
    requires e.HaPushes? || e.TakePush? || e.Drop? || e.Connect? || e.Roll? || e.Crash? || e.Fails? || e.GuardDeletes? || e.RestFinds?
    ensures Advances(w, Next(w, e))
  {
  }

  lemma CallAdvances(w: World, e: Event)
    requires Inv(w) && Enabled(w, e) && (e.Creates? || e.Deletes? || e.Cancels?)
    ensures Advances(w, Next(w, e))
  {
    match e
    case Creates(executed, reply) =>
      RepliedAdvances(if executed then HaCreates(w) else w, reply, 1, if w.pc.FarCreating? then FarConfirming else Showing);
    case Deletes(executed, reply) =>
      RepliedAdvances(if executed then HaDeletes(w, w.pc.occ.uid, Rid(w.pc.occ)) else w, reply,
        if w.rows[w.done].action.Snooze? then 2 else 1, Confirming(w.pc.rest));
    case Cancels(executed, reply) =>
      RepliedAdvances(if executed then HaDeletes(w, w.rows[w.done].uid.value, None) else w, reply, 1, CancelConfirming);
  }

  lemma RepliedAdvances(w: World, reply: Reply, step: nat, next: Stage)
    requires w.done < |w.states| && w.states[w.done].Pending?
    ensures Advances(w, Replied(w, reply, step, next))
  {
  }

  lemma BeginAdvances(w: World, pick: Option<Occ>)
    requires Inv(w) && Enabled(w, Begin(pick))
    ensures Advances(w, Next(w, Begin(pick)))
  {
  }

  lemma LooksAdvances(w: World, e: Event)
    requires Inv(w) && Enabled(w, e) && (e.RestLooks? || e.Sees?)
    ensures Advances(w, Next(w, e))
  {
  }

  lemma EndAdvances(w: World, e: Event)
    requires Inv(w) && Enabled(w, e) && (e.Confirms? || e.CancelConfirms? || e.Sent? || e.GivesUp?)
    ensures Advances(w, Next(w, e))
  {
  }

  lemma StepAdvances(w: World, e: Event)
    requires Inv(w) && Enabled(w, e)
    ensures e.Enqueue? || Advances(w, Next(w, e))
    ensures Follows(w, Next(w, e))
  {
    ShapeAdvances(w, e);
    assert e.Enqueue? ==> Next(w, e).states[..w.done] == w.states[..w.done];
  }

  lemma ShapeAdvances(w: World, e: Event)
    requires Inv(w) && Enabled(w, e)
    ensures e.Enqueue? || Advances(w, Next(w, e))
  {
    match e
    case Enqueue(row) =>
    case Creates(_, _) | Deletes(_, _) | Cancels(_, _) => CallAdvances(w, e);
    case Begin(pick) => BeginAdvances(w, pick);
    case RestLooks(_) | Sees(_) => LooksAdvances(w, e);
    case Confirms(_) | CancelConfirms | Sent | GivesUp => EndAdvances(w, e);
    case _ => LinkAdvances(w, e);
  }

  lemma {:induction false} RunKeeps(w: World, es: seq<Event>, v: World)
    requires Inv(w) && Reaches(w, es, v)
    ensures Inv(v) && Follows(w, v)
    decreases es
  {
    if es != [] {
      StepKeeps(w, es[0]);
      StepAdvances(w, es[0]);
      RunKeeps(Next(w, es[0]), es[1..], v);
    }
  }

  lemma StartHolds(w: World)
    requires Start(w)
    ensures Inv(w)
  {
  }

  /** Operations finish exactly once, in the order they were journaled: in every later world the finished
      rows are a prefix, and each of the earlier world's keeps its verdict. */
  lemma FinishedOnceInOrder(w: World, es: seq<Event>, v: World, i: nat)
    requires Inv(w) && Reaches(w, es, v) && i < |v.rows|
    ensures |v.states| == |v.rows| && (v.states[i].Pending? <==> v.done <= i)
    ensures i < |w.rows| == |w.states| && !w.states[i].Pending? ==> v.states[i] == w.states[i] && v.rows[i] == w.rows[i]
  {
    RunKeeps(w, es, v);
  }

  /** An occurrence of the event that a row asks for: for a snooze, its child. */
  predicate MadeBy(r: Row, o: Occ) {
    r.event.Some? && o.op == Some(r.op) && o.sid == r.event.value.sid && o.key in r.event.value.keys
  }

  /** No other row deals with the parent or with the child. */
  ghost predicate Alone(rows: seq<Row>, i: nat, parent: Occ)
    requires i < |rows|
  {
    forall j :: 0 <= j < |rows| && j != i ==>
      && !Handles(rows[j], parent.sid, parent.key)
      && forall o :: MadeBy(rows[i], o) ==> !Handles(rows[j], o.sid, o.key)
  }

  /** A snooze never loses the alarm: whatever drops, silences, crashes and other operations there have
      been, if the parent was in the calendar then it still is, or the child is, unless another operation
      dealt with one of them. */
  lemma SnoozeNeverLoses(w: World, es: seq<Event>, v: World, i: nat, parent: Occ)
    requires Inv(w) && Reaches(w, es, v) && i < |w.rows| && w.rows[i].action.Snooze?
    requires parent in w.calendar && Handles(w.rows[i], parent.sid, parent.key)
    requires i < |v.rows| && Alone(v.rows, i, parent)
    ensures parent in v.calendar || exists child :: child in v.calendar && MadeBy(w.rows[i], child)
  {
    RunKeeps(w, es, v);
    if parent !in v.calendar {
      var r := v.rows[i];
      assert Removed(v.rows, parent, v.shown);
      assert r.op in v.shown;
      var child :| child in v.ever && child.op == Some(r.op);
      assert RowFits(r, v.ever, v.nextUid);
      assert !Removed(v.rows, child, v.shown);
    }
  }

  // ---- what the worker saw before it applied an operation ----

  /** A world the run passes through. */
  ghost predicate Visits(w: World, es: seq<Event>, u: World)
    requires Inv(w)
    decreases es
  {
    u == w || (es != [] && Enabled(w, es[0]) && (StepKeeps(w, es[0]); Visits(Next(w, es[0]), es[1..], u)))
  }

  /** In this world row i is the worker's, and a push, or a REST read, shows its event. */
  predicate SeesEvent(u: World, i: nat) {
    u.done == i < |u.rows| && (ByOp(u.pushed, u.rows[i].op) || (u.pc.FarConfirming? && ByOp(u.calendar, u.rows[i].op)))
  }

  /** In this world row i is the worker's and what it deletes is gone from the last push, and by REST from
      the calendar when it was found there. */
  predicate SeesGone(u: World, i: nat) {
    && u.done == i < |u.rows|
    && match u.rows[i].action
       case Create => false
       case Cancel => !FindsSchedule(u.pushed, u.rows[i].sid)
       case _ =>
         && u.pc.Confirming? && u.rows[i].key.Some? && !Finds(u.pushed, u.rows[i].sid, u.rows[i].key.value)
         && (u.pc.rest ==> !Finds(u.calendar, u.rows[i].sid, u.rows[i].key.value))
  }

  predicate Makes(a: Action) { a.Create? || a.Snooze? }

  /** What one step adds: an operation counts as shown, waits to send, or is applied, only from a world in
      which the worker sees what that takes. */
  predicate Saw(w: World, v: World, i: nat)
    requires i < |w.rows| && i < |v.rows| && i < |w.states| && i < |v.states|
  {
    && v.rows[i] == w.rows[i] && (v.states[i].Applied? ==> !w.states[i].Rejected?)
    && (v.rows[i].op in v.shown && v.rows[i].op !in w.shown ==> SeesEvent(w, i))
    && (v.done == i && v.pc.Sending? ==> SeesGone(w, i) || (w.done == i && w.pc.Sending?))
    && (v.states[i].Applied? && w.states[i].Pending? ==>
      && (Makes(v.rows[i].action) ==> v.rows[i].op in v.shown)
      && (!v.rows[i].action.Create? ==> SeesGone(w, i) || (w.done == i && w.pc.Sending?)))
  }

  lemma {:induction false} LinkSees(w: World, e: Event, i: nat)
    requires Inv(w) && Enabled(w, e) && i < |w.rows|
    requires e.Enqueue? || e.HaPushes? || e.TakePush? || e.Drop? || e.Connect? || e.Roll? || e.Crash? || e.Fails? || e.GuardDeletes? || e.RestFinds?
    ensures |Next(w, e).rows| == |Next(w, e).states| >= |w.rows| && Saw(w, Next(w, e), i)
  {
  }

  lemma {:induction false} RepliedSees(w: World, u: World, reply: Reply, step: nat, next: Stage, i: nat)
    requires i < |w.rows| == |w.states| && w.done < |w.rows| && !w.pc.Sending? && !next.Sending?
    requires u.rows == w.rows && u.states == w.states && u.done == w.done && u.shown == w.shown && u.pc == w.pc
    ensures Replied(u, reply, step, next).rows == w.rows && |Replied(u, reply, step, next).states| == |w.states|
    ensures Saw(w, Replied(u, reply, step, next), i)
  {
  }

  lemma {:induction false} CallSees(w: World, e: Event, i: nat)
    requires Inv(w) && Enabled(w, e) && i < |w.rows| && (e.Creates? || e.Deletes? || e.Cancels?)
    ensures |Next(w, e).states| == |w.states| && Next(w, e).rows == w.rows && Saw(w, Next(w, e), i)
  {
    match e
    case Creates(executed, reply) =>
      RepliedSees(w, if executed then HaCreates(w) else w, reply, 1, if w.pc.FarCreating? then FarConfirming else Showing, i);
    case Deletes(executed, reply) =>
      RepliedSees(w, if executed then HaDeletes(w, w.pc.occ.uid, Rid(w.pc.occ)) else w, reply,
        if w.rows[w.done].action.Snooze? then 2 else 1, Confirming(w.pc.rest), i);
    case Cancels(executed, reply) =>
      RepliedSees(w, if executed then HaDeletes(w, w.rows[w.done].uid.value, None) else w, reply, 1, CancelConfirming, i);
  }

  lemma {:induction false} BeginSees(w: World, pick: Option<Occ>, i: nat)
    requires Inv(w) && Enabled(w, Begin(pick)) && i < |w.rows|
    ensures var v := Next(w, Begin(pick)); |v.states| == |w.states| && v.rows == w.rows && Saw(w, v, i)
  {
  }

  lemma {:induction false} RestSees(w: World, found: bool, i: nat)
    requires Inv(w) && Enabled(w, RestLooks(found)) && i < |w.rows|
    ensures var v := Next(w, RestLooks(found)); |v.states| == |w.states| && v.rows == w.rows && Saw(w, v, i)
  {
  }

  lemma {:induction false} PushSees(w: World, pick: Option<Occ>, i: nat)
    requires Inv(w) && Enabled(w, Sees(pick)) && i < |w.rows|
    ensures var v := Next(w, Sees(pick)); |v.states| == |w.states| && v.rows == w.rows && Saw(w, v, i)
  {
  }

  lemma {:induction false} EndSees(w: World, e: Event, i: nat)
    requires Inv(w) && Enabled(w, e) && i < |w.rows| && (e.Confirms? || e.CancelConfirms? || e.Sent? || e.GivesUp?)
    ensures |Next(w, e).states| == |w.states| && Next(w, e).rows == w.rows && Saw(w, Next(w, e), i)
  {
  }

  lemma StepSees(w: World, e: Event, i: nat)
    requires Inv(w) && Enabled(w, e) && i < |w.rows|
    ensures |Next(w, e).rows| == |Next(w, e).states| >= |w.rows| && Saw(w, Next(w, e), i)
  {
    match e
    case Creates(_, _) | Deletes(_, _) | Cancels(_, _) => CallSees(w, e, i);
    case Begin(pick) => BeginSees(w, pick, i);
    case RestLooks(found) => RestSees(w, found, i);
    case Sees(pick) => PushSees(w, pick, i);
    case Confirms(_) | CancelConfirms | Sent | GivesUp => EndSees(w, e, i);
    case _ => LinkSees(w, e, i);
  }

  ghost predicate EventSeen(w: World, es: seq<Event>, i: nat, r: Row)
    requires Inv(w)
  {
    exists u :: Visits(w, es, u) && SeesEvent(u, i) && u.rows[i] == r
  }

  ghost predicate GoneSeen(w: World, es: seq<Event>, i: nat, r: Row)
    requires Inv(w)
  {
    exists u :: Visits(w, es, u) && SeesGone(u, i) && u.rows[i] == r
  }

  lemma {:induction false} LaterSeen(w: World, es: seq<Event>, i: nat, r: Row)
    requires Inv(w) && es != [] && Enabled(w, es[0]) && Inv(Next(w, es[0]))
    ensures EventSeen(Next(w, es[0]), es[1..], i, r) ==> EventSeen(w, es, i, r)
    ensures GoneSeen(Next(w, es[0]), es[1..], i, r) ==> GoneSeen(w, es, i, r)
  {
    var w1 := Next(w, es[0]);
    if EventSeen(w1, es[1..], i, r) {
      var u :| Visits(w1, es[1..], u) && SeesEvent(u, i) && u.rows[i] == r;
      assert Visits(w, es, u);
    }
    if GoneSeen(w1, es[1..], i, r) {
      var u :| Visits(w1, es[1..], u) && SeesGone(u, i) && u.rows[i] == r;
      assert Visits(w, es, u);
    }
  }

  lemma {:induction false} NowSeen(w: World, es: seq<Event>, i: nat)
    requires Inv(w)
    ensures SeesEvent(w, i) ==> EventSeen(w, es, i, w.rows[i])
    ensures SeesGone(w, i) ==> GoneSeen(w, es, i, w.rows[i])
  {
    assert Visits(w, es, w);
  }

  /** Before the run, or in it. */
  ghost predicate SeenSince(w: World, es: seq<Event>, v: World, i: nat)
    requires Inv(w) && |v.rows| == |v.states| && i < |v.rows|
  {
    && (v.rows[i].op in v.shown ==> (i < |w.rows| && v.rows[i].op in w.shown) || EventSeen(w, es, i, v.rows[i]))
    && (v.states[i].Applied? && !v.rows[i].action.Create? ==>
      (i < |w.rows| && (w.states[i].Applied? || (w.done == i && w.pc.Sending?))) || GoneSeen(w, es, i, v.rows[i]))
  }

  /** A new row's operation has not been shown. */
  lemma {:induction false} NewIsUnseen(w: World, e: Event, i: nat)
    requires Inv(w) && Enabled(w, e) && |w.rows| <= i < |Next(w, e).rows|
    ensures var v := Next(w, e);
      |v.rows| == |v.states| && v.rows[i].op !in v.shown && v.states[i].Pending? && !(v.done == i && v.pc.Sending?)
  {
    ShapeAdvances(w, e);
    assert e.Enqueue? && i == |w.rows|;
    assert !ByOp(w.ever, e.row.op);
  }

  lemma {:induction false} SeenStep(w: World, es: seq<Event>, v: World, i: nat)
    requires Inv(w) && es != [] && Enabled(w, es[0]) && Inv(Next(w, es[0])) && |v.rows| == |v.states| && i < |v.rows|
    requires SeenSince(Next(w, es[0]), es[1..], v, i) && Next(w, es[0]).rows <= v.rows
    ensures SeenSince(w, es, v, i)
  {
    if i < |w.rows| {
      StepSees(w, es[0], i);
      OldRowStep(w, es, v, i);
    } else {
      NewRowStep(w, es, v, i);
    }
  }

  lemma {:induction false} OldRowStep(w: World, es: seq<Event>, v: World, i: nat)
    requires Inv(w) && es != [] && Enabled(w, es[0]) && Inv(Next(w, es[0])) && |v.rows| == |v.states| && i < |v.rows|
    requires i < |w.rows| <= |Next(w, es[0]).rows| && Saw(w, Next(w, es[0]), i)
    requires SeenSince(Next(w, es[0]), es[1..], v, i) && v.rows[i] == w.rows[i]
    ensures SeenSince(w, es, v, i)
  {
    LaterSeen(w, es, i, v.rows[i]);
    NowSeen(w, es, i);
  }

  lemma {:induction false} NewRowStep(w: World, es: seq<Event>, v: World, i: nat)
    requires Inv(w) && es != [] && Enabled(w, es[0]) && Inv(Next(w, es[0])) && |v.rows| == |v.states| && i < |v.rows|
    requires |w.rows| <= i && Next(w, es[0]).rows <= v.rows && SeenSince(Next(w, es[0]), es[1..], v, i)
    ensures SeenSince(w, es, v, i)
  {
    var w1 := Next(w, es[0]);
    if i < |w1.rows| {
      NewIsUnseen(w, es[0], i);
    }
    LaterRowStep(w, w1, es, v, i);
  }

  lemma {:induction false} LaterRowStep(w: World, w1: World, es: seq<Event>, v: World, i: nat)
    requires Inv(w) && es != [] && Enabled(w, es[0]) && w1 == Next(w, es[0]) && Inv(w1) && |v.rows| == |v.states| && i < |v.rows|
    requires SeenSince(w1, es[1..], v, i)
    requires i < |w1.rows| ==> v.rows[i].op !in w1.shown && !w1.states[i].Applied? && !(w1.done == i && w1.pc.Sending?)
    ensures SeenSince(w, es, v, i)
  {
    LaterSeen(w, es, i, v.rows[i]);
  }

  lemma {:induction false} RunSees(w: World, es: seq<Event>, v: World, i: nat)
    requires Inv(w) && Reaches(w, es, v) && |v.rows| == |v.states| && i < |v.rows|
    ensures SeenSince(w, es, v, i)
    decreases es
  {
    if es != [] {
      StepKeeps(w, es[0]);
      RunSees(Next(w, es[0]), es[1..], v, i);
      RunKeeps(Next(w, es[0]), es[1..], v);
      SeenStep(w, es, v, i);
    }
  }

  /** An operation is applied only after the worker saw its effect: somewhere on the run, while the row was
      its, a push or a REST read showed the event of a create or a snooze, and what a dismiss, an expire, a
      cancel or a snooze deletes was gone from the last push, and by REST when it was looked up there. */
  lemma AppliedWasSeen(w: World, es: seq<Event>, v: World, i: nat)
    requires Start(w) && Inv(w) && Reaches(w, es, v) && i < |v.rows| == |v.states| && v.states[i].Applied?
    ensures Makes(v.rows[i].action) ==> EventSeen(w, es, i, v.rows[i])
    ensures !v.rows[i].action.Create? ==> GoneSeen(w, es, i, v.rows[i])
  {
    RunKeeps(w, es, v);
    RunSees(w, es, v, i);
  }

  lemma Then(w: World, e: Event, es: seq<Event>, v: World)
    requires Inv(w) && Enabled(w, e) && Inv(Next(w, e)) && Reaches(Next(w, e), es, v)
    ensures Reaches(w, [e] + es, v)
  {
    assert ([e] + es)[1..] == es;
  }

  lemma {:induction false} Joined(w: World, es: seq<Event>, v: World, more: seq<Event>, u: World)
    requires Inv(w) && Reaches(w, es, v) && Inv(v) && Reaches(v, more, u)
    ensures Reaches(w, es + more, u)
    decreases es
  {
    if es == [] {
      assert es + more == more;
    } else {
      StepKeeps(w, es[0]);
      assert (es + more)[0] == es[0] && (es + more)[1..] == es[1..] + more;
      Joined(Next(w, es[0]), es[1..], v, more, u);
    }
  }

  /** Whatever leaves the calendar was dealt with by a journaled operation: nothing else is deleted. */
  lemma NothingElseIsDeleted(w: World, es: seq<Event>, v: World, o: Occ)
    requires Inv(w) && Reaches(w, es, v) && o in w.calendar && o !in v.calendar
    ensures exists i :: 0 <= i < |v.rows| && Handles(v.rows[i], o.sid, o.key)
  {
    RunKeeps(w, es, v);
    assert Removed(v.rows, o, v.shown);
  }

  /** In no reachable world is an occurrence live that an applied row has dealt with, save for the parent of
      a snooze with a stray child. */
  lemma HandledIsNotLive(w: World, es: seq<Event>, v: World, i: nat, o: Occ)
    requires Inv(w) && Reaches(w, es, v) && i < |v.rows| == |v.states| && o in v.live
    requires v.states[i].Applied? && Handles(v.rows[i], o.sid, o.key)
    ensures Strays(v.rows[i])
  {
    RunKeeps(w, es, v);
  }

  /** Such a parent can be live after all: a push that shows it again while the tombstone is being sent makes
      it live before the row is applied, and nothing takes it back until the next push. */
  lemma StrayParentIsLive(w: World, parent: Occ)
    requires Inv(w) && w.pc.Sending? && w.pipe != [] && parent in w.pipe[0]
    requires Handles(w.rows[w.done], parent.sid, parent.key) && !Handled(w.rows, w.states, parent.sid, parent.key)
    ensures Reaches(w, [TakePush, Sent], Next(Next(w, TakePush), Sent))
    ensures var v := Next(Next(w, TakePush), Sent);
      parent in v.live && |v.states| == |v.rows| && w.done < |v.states| && v.states[w.done].Applied? && v.rows[w.done] == w.rows[w.done]
  {
    StepKeeps(w, TakePush);
    var w1 := Next(w, TakePush);
    StepKeeps(w1, Sent);
    Then(w1, Sent, [], Next(w1, Sent));
    Then(w, TakePush, [Sent], Next(w1, Sent));
    assert [TakePush] + [Sent] == [TakePush, Sent];
  }

  /** So it is with the parent still in the calendar and the next push hiding nothing. */
  lemma {:induction false} ParentComesBack(w: World, parent: Occ)
    requires Inv(w) && w.pc.Sending? && w.connected && w.pipe == [] && parent in w.calendar
    requires Handles(w.rows[w.done], parent.sid, parent.key) && !Handled(w.rows, w.states, parent.sid, parent.key)
    ensures var w1 := Next(w, HaPushes({}));
      && Inv(w1) && w1.pipe != [] && w1.pc.Sending? && Inv(Next(w1, TakePush))
      && var v := Next(Next(w1, TakePush), Sent);
      && Reaches(w, [HaPushes({})] + [TakePush, Sent], v)
      && parent in v.live && |v.states| == |v.rows| && w.done < |v.states| && v.states[w.done].Applied? && v.rows[w.done] == w.rows[w.done]
  {
    var w1 := Next(w, HaPushes({}));
    OneStep(w, HaPushes({}), w1);
    assert w1.pipe == [w.calendar - {}];
    StepKeeps(w1, TakePush);
    StrayParentIsLive(w1, parent);
    Joined(w, [HaPushes({})], w1, [TakePush, Sent], Next(Next(w1, TakePush), Sent));
  }

  /** A recurring alarm with two occurrences, the first snoozed by a device that derived another child. */
  predicate Snoozed(r: Row, parent: Occ, other: Occ, child: Occ) {
    && Strays(r) && r.sid == parent.sid && r.key == Some(parent.key) && (r.keyStart.Some? ==> r.keyStart.value >= 0) && r.uid.None?
    && other == parent.(key := other.key) && other.key != parent.key && parent.recurring && parent.op.None?
    && r.event.Some? && r.event.value.keys == {child.key} && !r.event.value.recurring && r.event.value.sid != r.sid
    && child == Occ(parent.uid + 1, r.event.value.sid, child.key, Some(r.op), false)
  }

  /** The worker's stages while the pushes hide the parent: `made` is the child once it is, `seen` the last push. */
  function Snoozing(r: Row, parent: Occ, other: Occ, made: set<Occ>, seen: set<Occ>, step: nat, pc: Stage): World {
    World([r], [Pending], 0, step, {parent, other} + made, parent.uid + 1 + |made|, {parent, other} + made, true, true, 0, 0,
      seen, seen, [], pc, if step == 2 then {r.op} else {})
  }

  lemma {:induction false} PushReaches(w: World, hidden: set<Occ>, seen: set<Occ>)
    requires Inv(w) && w.connected && w.pipe == [] && seen == w.calendar - hidden && Unhandled(w.rows, w.states, seen) == seen
    ensures var v := w.(pushed := seen, live := seen, upToDate := true); Inv(v) && Reaches(w, [HaPushes(hidden), TakePush], v)
  {
    var v := w.(pushed := seen, live := seen, upToDate := true);
    StepKeeps(w, HaPushes(hidden));
    var w1 := Next(w, HaPushes(hidden));
    assert w1.pipe == [seen];
    StepKeeps(w1, TakePush);
    assert Next(w1, TakePush) == v;
    Then(w1, TakePush, [], v);
    Then(w, HaPushes(hidden), [TakePush], v);
    assert [HaPushes(hidden)] + [TakePush] == [HaPushes(hidden), TakePush];
  }

  lemma {:induction false} NothingHandled(rows: seq<Row>, states: seq<State>, seen: set<Occ>)
    requires |states| == |rows| && forall i :: 0 <= i < |states| ==> states[i].Pending?
    ensures Unhandled(rows, states, seen) == seen
  {
  }

  /** The row is journaled and the link comes up. */
  function Linked(r: Row, parent: Occ, other: Occ): World {
    Snoozing(r, parent, other, {}, {}, 0, Idle).(upToDate := false)
  }

  lemma {:induction false} SnoozeLinks(w: World, r: Row, parent: Occ, other: Occ, child: Occ)
    requires Start(w) && Inv(w) && Enqueueable(w, r) && Snoozed(r, parent, other, child)
    requires w.ever == {parent, other} && w.nextUid == parent.uid + 1
    ensures var v := Linked(r, parent, other); Inv(v) && Reaches(w, [Enqueue(r)] + [Connect(0, 0)], v)
  {
    var w1, v := Next(w, Enqueue(r)), Linked(r, parent, other);
    OneStep(w, Enqueue(r), w1);
    assert {parent, other} + {} == {parent, other};
    OneStep(w1, Connect(0, 0), v);
    Joined(w, [Enqueue(r)], w1, [Connect(0, 0)], v);
  }

  lemma {:induction false} SnoozeArrives(w: World, r: Row, parent: Occ, other: Occ, child: Occ) returns (es: seq<Event>)
    requires Start(w) && Inv(w) && Enqueueable(w, r) && Snoozed(r, parent, other, child)
    requires w.ever == {parent, other} && w.nextUid == parent.uid + 1
    ensures var v := Snoozing(r, parent, other, {}, {other}, 0, Idle); Inv(v) && Reaches(w, es, v)
  {
    var w1, v := Linked(r, parent, other), Snoozing(r, parent, other, {}, {other}, 0, Idle);
    SnoozeLinks(w, r, parent, other, child);
    NothingHandled(w1.rows, w1.states, {other});
    assert w1.calendar - {parent} == {other};
    PushReaches(w1, {parent}, {other});
    Joined(w, [Enqueue(r)] + [Connect(0, 0)], w1, [HaPushes({parent}), TakePush], v);
    es := [Enqueue(r)] + [Connect(0, 0)] + [HaPushes({parent}), TakePush];
  }

  lemma {:induction false} OneStep(w: World, e: Event, v: World)
    requires Inv(w) && Enabled(w, e) && Next(w, e) == v
    ensures Inv(v) && Reaches(w, [e], v)
  {
    StepKeeps(w, e);
    Then(w, e, [], v);
    assert [e] + [] == [e];
  }

  lemma {:induction false} BeginsCreating(r: Row, parent: Occ, other: Occ, child: Occ)
    requires Snoozed(r, parent, other, child)
    ensures var w := Snoozing(r, parent, other, {}, {other}, 0, Idle); Enabled(w, Begin(None)) && Next(w, Begin(None)) == w.(pc := Creating)
  {
    var w := Snoozing(r, parent, other, {}, {other}, 0, Idle);
    assert other in w.pushed && FindsSchedule(w.pushed, r.sid) && !ByOp(w.pushed, r.op);
  }

  lemma {:induction false} CreatesChild(r: Row, parent: Occ, other: Occ, child: Occ)
    requires Snoozed(r, parent, other, child)
    ensures var w := Snoozing(r, parent, other, {}, {other}, 0, Creating);
      Enabled(w, Creates(true, Answered)) && Next(w, Creates(true, Answered)) == Snoozing(r, parent, other, {child}, {other}, 1, Showing)
  {
    assert Made(parent.uid + 1, r.op, r.event.value) == {child};
    assert {parent, other} + {} + {child} == {parent, other} + {child};
  }

  lemma {:induction false} SeesChild(r: Row, parent: Occ, other: Occ, child: Occ)
    requires Snoozed(r, parent, other, child)
    ensures var w := Snoozing(r, parent, other, {child}, {other, child}, 1, Showing);
      Enabled(w, Sees(None)) && Next(w, Sees(None)) == Snoozing(r, parent, other, {child}, {other, child}, 2, Confirming(false))
  {
    assert child in {other, child} && ByOp({other, child}, r.op);
  }

  lemma {:induction false} ConfirmsParent(r: Row, parent: Occ, other: Occ, child: Occ)
    requires Snoozed(r, parent, other, child)
    ensures var w := Snoozing(r, parent, other, {child}, {other, child}, 2, Confirming(false));
      Enabled(w, Confirms(false)) && Next(w, Confirms(false)) == Snoozing(r, parent, other, {child}, {other, child}, 2, Sending)
  {
  }

  lemma {:induction false} ChildIsMade(r: Row, parent: Occ, other: Occ, child: Occ) returns (es: seq<Event>)
    requires Snoozed(r, parent, other, child) && Inv(Snoozing(r, parent, other, {}, {other}, 0, Idle))
    ensures var v := Snoozing(r, parent, other, {child}, {other}, 1, Showing);
      Inv(v) && Reaches(Snoozing(r, parent, other, {}, {other}, 0, Idle), es, v)
  {
    var w, w1 := Snoozing(r, parent, other, {}, {other}, 0, Idle), Snoozing(r, parent, other, {}, {other}, 0, Creating);
    BeginsCreating(r, parent, other, child);
    OneStep(w, Begin(None), w1);
    CreatesChild(r, parent, other, child);
    OneStep(w1, Creates(true, Answered), Snoozing(r, parent, other, {child}, {other}, 1, Showing));
    Joined(w, [Begin(None)], w1, [Creates(true, Answered)], Snoozing(r, parent, other, {child}, {other}, 1, Showing));
    es := [Begin(None)] + [Creates(true, Answered)];
  }

  lemma {:induction false} ChildIsPushed(r: Row, parent: Occ, other: Occ, child: Occ) returns (es: seq<Event>)
    requires Snoozed(r, parent, other, child) && Inv(Snoozing(r, parent, other, {child}, {other}, 1, Showing))
    ensures var v := Snoozing(r, parent, other, {child}, {other, child}, 1, Showing);
      Inv(v) && Reaches(Snoozing(r, parent, other, {child}, {other}, 1, Showing), es, v)
  {
    var w, seen := Snoozing(r, parent, other, {child}, {other}, 1, Showing), {other, child};
    NothingHandled(w.rows, w.states, seen);
    assert w.calendar - {parent} == seen;
    PushReaches(w, {parent}, seen);
    es := [HaPushes({parent}), TakePush];
  }

  lemma {:induction false} ChildIsSeen(r: Row, parent: Occ, other: Occ, child: Occ) returns (es: seq<Event>)
    requires Snoozed(r, parent, other, child) && Inv(Snoozing(r, parent, other, {child}, {other, child}, 1, Showing))
    ensures var v := Snoozing(r, parent, other, {child}, {other, child}, 2, Sending);
      Inv(v) && Reaches(Snoozing(r, parent, other, {child}, {other, child}, 1, Showing), es, v)
  {
    var seen := {other, child};
    var w, w1 := Snoozing(r, parent, other, {child}, seen, 1, Showing), Snoozing(r, parent, other, {child}, seen, 2, Confirming(false));
    SeesChild(r, parent, other, child);
    OneStep(w, Sees(None), w1);
    ConfirmsParent(r, parent, other, child);
    OneStep(w1, Confirms(false), Snoozing(r, parent, other, {child}, seen, 2, Sending));
    Joined(w, [Sees(None)], w1, [Confirms(false)], Snoozing(r, parent, other, {child}, seen, 2, Sending));
    es := [Sees(None)] + [Confirms(false)];
  }

  lemma {:induction false} ParentIsShown(r: Row, parent: Occ, other: Occ, child: Occ) returns (es: seq<Event>, v: World)
    requires Snoozed(r, parent, other, child) && Inv(Snoozing(r, parent, other, {child}, {other, child}, 2, Sending))
    ensures Reaches(Snoozing(r, parent, other, {child}, {other, child}, 2, Sending), es, v)
    ensures |v.states| == |v.rows| && 0 < |v.rows| && v.states[0].Applied? && v.rows[0] == r && parent in v.live
  {
    var w := Snoozing(r, parent, other, {child}, {other, child}, 2, Sending);
    ParentComesBack(w, parent);
    v := Next(Next(Next(w, HaPushes({})), TakePush), Sent);
    es := [HaPushes({})] + [TakePush, Sent];
  }

  /** A whole run that ends so: the parent is hidden from the pushes that the snooze goes by, and shown again
      while the tombstone is on its way. */
  lemma {:induction false} StrayRun(w: World, r: Row, parent: Occ, other: Occ, child: Occ) returns (es: seq<Event>, v: World)
    requires Start(w) && Inv(w) && Enqueueable(w, r) && Snoozed(r, parent, other, child)
    requires w.ever == {parent, other} && w.nextUid == parent.uid + 1
    ensures Reaches(w, es, v) && |v.states| == |v.rows| && 0 < |v.rows| && v.states[0].Applied? && v.rows[0] == r
    ensures parent in v.live && Handles(r, parent.sid, parent.key)
  {
    var start := SnoozeArrives(w, r, parent, other, child);
    var made := ChildIsMade(r, parent, other, child);
    var pushed := ChildIsPushed(r, parent, other, child);
    var seen := ChildIsSeen(r, parent, other, child);
    var shown;
    shown, v := ParentIsShown(r, parent, other, child);
    Joined(w, start, Snoozing(r, parent, other, {}, {other}, 0, Idle), made, Snoozing(r, parent, other, {child}, {other}, 1, Showing));
    Joined(w, start + made, Snoozing(r, parent, other, {child}, {other}, 1, Showing), pushed, Snoozing(r, parent, other, {child}, {other, child}, 1, Showing));
    Joined(w, start + made + pushed, Snoozing(r, parent, other, {child}, {other, child}, 1, Showing), seen,
      Snoozing(r, parent, other, {child}, {other, child}, 2, Sending));
    Joined(w, start + made + pushed + seen, Snoozing(r, parent, other, {child}, {other, child}, 2, Sending), shown, v);
    es := start + made + pushed + seen + shown;
  }
}
