/** The endpoint state machine of one utterance (controller/em_endpoint_policy.py,
    `EndpointReducer`). All times are capture samples. */
module EndpointSpec {
  import opened Basics
  import opened AttributionSpec

  const SAMPLE_RATE := 16_000
  const NO_INPUT := 5 * SAMPLE_RATE
  const NO_INPUT_REPLY := 7 * SAMPLE_RATE
  const REPLY_SPAN_PREROLL := 4_800
  const TOO_LONG := 15 * SAMPLE_RATE
  const TOO_LONG_EXTENDED := 30 * SAMPLE_RATE
  const LOOKAHEAD := 3_072
  const REVOCATION_CELLS := 4
  const MIN_COMMAND_CELLS := 6
  const PAUSE_WINDOW_CELLS := 19
  const PAUSE_QUIET_CELLS := 15
  const MIN_TRAILING_BLANKS := 10
  const ROUTE_B_STABLE := 9_728
  const ROUTE_R_PAUSE := 16_384
  const NO_PROGRESS := 3 * SAMPLE_RATE

  datatype Grammar = Complete | Extendable | NeedsMore | UnknownText

  function RouteAPause(g: Grammar): int {
    match g case Complete => 9_728 case Extendable => 19_456 case NeedsMore => 28_672 case UnknownText => 28_672
  }

  datatype StableText = StableText(prefix: string, prefixSample: Option<int>, progressSample: int, trailingBlanks: int)

  datatype Setup = Setup(
    utteranceStart: int, trigger: int, completeness: string -> Grammar,
    extended: bool, esphomeReply: bool, reply: bool, noInputAt: int)
  {
    function Maximum(): int { if extended then TOO_LONG_EXTENDED else TOO_LONG }

    function TriggerCell(): int { trigger - trigger % CELL_SAMPLES }
  }

  datatype Route = A | B | R | Fallback

  datatype Pending = Pending(boundary: int, since: int, route: Route, text: string)

  datatype Commit = Commit(start: int, boundary: int, end: int, route: Route, text: string, redecode: bool)

  datatype CloseReason = Muted | SessionLost | Interrupted | AudioOverrun | NoInput | TooLong | Retry

  datatype Phase = Listening | EndPending | Committed | Closed

  datatype Reducer = Reducer(
    phase: Phase, pending: Option<Pending>, cells: seq<Classified>, commandEnds: seq<int>,
    commandStart: Option<int>, answerRun: Option<int>, heldCells: int, frontier: int,
    commit: Option<Commit>, close: Option<CloseReason>)

  function Initial(c: Setup): Reducer {
    Reducer(Listening, None, [], [], None, None, 0, c.utteranceStart, None, None)
  }

  datatype Verdict = Nothing | Waiting(pending: Pending) | Revoked(pending: Pending) | Commits(commit: Commit) | Closes(reason: CloseReason)

  datatype Fault = Terminal | FrontierBack | AudioAhead | AlreadyCommitted | AlreadyClosed | BoundaryOutside | CellOrder

  datatype Input = Input(
    frontier: int, stable: StableText, validAudioEnd: int, muted: bool, sessionLost: bool, gap: bool, overrun: bool)

  // ---- observing cells ----

  /** Where the cells held before a run's first command cell begin, and how many there are. */
  function HeldFrom(c: Setup, run: int): int { if c.TriggerCell() < run then run else c.TriggerCell() }

  function Held(c: Setup, run: int, first: int): int {
    (if first <= HeldFrom(c, run) then 0 else first - HeldFrom(c, run)) / CELL_SAMPLES
  }

  function ObserveCell(c: Setup, s: Reducer, cell: Classified): Result<Reducer, Fault> {
    if s.cells != [] && cell.start <= s.cells[|s.cells| - 1].start then Err(CellOrder)
    else
      var answers := cell.command && s.answerRun.None? && cell.runStart.Some?;
      Ok(s.(
        answerRun := if answers then cell.runStart else s.answerRun,
        heldCells := if answers then Held(c, cell.runStart.value, cell.start) else s.heldCells,
        cells := s.cells + [cell],
        commandEnds := if cell.command then s.commandEnds + [cell.End()] else s.commandEnds,
        commandStart := if cell.command && s.commandStart.None? && cell.start >= c.trigger then Some(cell.start) else s.commandStart))
  }

  /** The cells in order; an out-of-order cell stops there. */
  function Observe(c: Setup, s: Reducer, cells: seq<Classified>): Reducer
    decreases |cells|
  {
    if cells == [] then s
    else
      match ObserveCell(c, s, cells[0])
      case Err(_) => s
      case Ok(u) => Observe(c, u, cells[1..])
  }

  // ---- deciding ----

  function Through(cells: seq<Classified>, frontier: int): seq<Classified> {
    if cells == [] then []
    else
      var rest := Through(cells[..|cells| - 1], frontier);
      if cells[|cells| - 1].End() <= frontier then rest + [cells[|cells| - 1]] else rest
  }

  function CountClass(cells: seq<Classified>, quiet: bool): (n: nat)
    ensures n <= |cells|
  {
    if cells == [] then 0
    else
      var last := cells[|cells| - 1].cls;
      CountClass(cells[..|cells| - 1], quiet) +
        if (quiet && (last.NonSpeech? || last.SelfOutput?)) || (!quiet && last.BackgroundSpeech?) then 1 else 0
  }

  function CountAfter(ends: seq<int>, sample: int): (n: nat)
    ensures n <= |ends|
  {
    if ends == [] then 0 else CountAfter(ends[..|ends| - 1], sample) + if ends[|ends| - 1] > sample then 1 else 0
  }

  /** The last listed command end that is at most `sample`. */
  function BoundaryAt(ends: seq<int>, sample: int): (r: Option<int>)
    ensures r.Some? ==> r.value in ends && r.value <= sample
    ensures r.None? ==> forall k :: 0 <= k < |ends| ==> ends[k] > sample
  {
    if ends == [] then None
    else if ends[|ends| - 1] <= sample then Some(ends[|ends| - 1])
    else BoundaryAt(ends[..|ends| - 1], sample)
  }

  function SpeechAfter(cells: seq<Classified>, sample: int): seq<Classified> {
    if cells == [] then []
    else
      var rest, last := SpeechAfter(cells[..|cells| - 1], sample), cells[|cells| - 1];
      if last.End() > sample && last.speechPositive then rest + [last] else rest
  }

  function RouteA(c: Setup, s: Reducer, frontier: int, stable: StableText, cells: seq<Classified>): Option<Pending> {
    if |s.commandEnds| + s.heldCells < MIN_COMMAND_CELLS || stable.prefix == "" || |cells| < PAUSE_WINDOW_CELLS || s.commandEnds == [] then None
    else
      var window := cells[|cells| - PAUSE_WINDOW_CELLS..];
      var quiet, background := CountClass(window, true), CountClass(window, false);
      var g := c.completeness(stable.prefix);
      var last := s.commandEnds[|s.commandEnds| - 1];
      if quiet + background < PAUSE_QUIET_CELLS then None
      else if stable.trailingBlanks < MIN_TRAILING_BLANKS then None
      else if quiet < PAUSE_QUIET_CELLS && !g.NeedsMore? && !g.UnknownText? then None
      else if frontier - last < RouteAPause(g) then None
      else Some(Pending(last, frontier, A, stable.prefix))
  }

  function RouteB(c: Setup, s: Reducer, frontier: int, stable: StableText, cells: seq<Classified>): Option<Pending> {
    if stable.prefix == "" || stable.prefixSample.None? then None
    else if !c.completeness(stable.prefix).Complete? then None
    else if frontier - stable.prefixSample.value < ROUTE_B_STABLE then None
    else
      var after := SpeechAfter(cells, stable.prefixSample.value);
      var boundary := BoundaryAt(s.commandEnds, stable.prefixSample.value);
      if after == [] || 5 * CountClass(after, false) < 4 * |after| || boundary.None? then None
      else Some(Pending(boundary.value, frontier, B, stable.prefix))
  }

  function RouteR(s: Reducer, frontier: int, stable: StableText): Option<Pending> {
    if s.commandEnds == [] || frontier - s.commandEnds[|s.commandEnds| - 1] < ROUTE_R_PAUSE then None
    else Some(Pending(s.commandEnds[|s.commandEnds| - 1], frontier, R, stable.prefix))
  }

  function Found(c: Setup, s: Reducer, frontier: int, stable: StableText): Option<Pending> {
    var cells := Through(s.cells, frontier);
    if c.esphomeReply then RouteR(s, frontier, stable)
    else
      var a := RouteA(c, s, frontier, stable, cells);
      if a.Some? then a else RouteB(c, s, frontier, stable, cells)
  }

  function Finalize(c: Setup, s: Reducer, boundary: int, route: Route, text: string, validAudioEnd: int): (Reducer, Result<Verdict, Fault>) {
    if s.commit.Some? then (s, Err(AlreadyCommitted))
    else if s.close.Some? then (s, Err(AlreadyClosed))
    else if !(c.utteranceStart <= boundary <= validAudioEnd) then (s, Err(BoundaryOutside))
    else
      var start := if c.reply && s.answerRun.Some? && s.answerRun.value - REPLY_SPAN_PREROLL > c.utteranceStart
        then s.answerRun.value - REPLY_SPAN_PREROLL else c.utteranceStart;
      var commit := Commit(start, boundary, Min(boundary + LOOKAHEAD, validAudioEnd), route, text, route.B? || route.Fallback?);
      (s.(commit := Some(commit), pending := None, phase := Committed), Ok(Commits(commit)))
  }

  function CloseOnce(s: Reducer, reason: CloseReason): (Reducer, Result<Verdict, Fault>) {
    (s.(close := Some(reason), phase := Closed), Ok(Closes(reason)))
  }

  /** The reasons to close before any endpoint is looked for, in the source's order. */
  function ClosingReason(c: Setup, s: Reducer, i: Input): Option<CloseReason> {
    if i.muted then Some(Muted)
    else if i.sessionLost then Some(SessionLost)
    else if i.gap || exists k :: 0 <= k < |s.cells| && s.cells[k].End() <= i.frontier && s.cells[k].cls.Gap? then Some(Interrupted)
    else if i.overrun then Some(AudioOverrun)
    else if s.commandEnds == [] && i.frontier >= c.noInputAt then Some(NoInput)
    else
      var since := if c.reply then s.commandStart else Some(c.trigger);
      if since.Some? && i.frontier - since.value >= c.Maximum() then Some(TooLong) else None
  }

  function StepPending(c: Setup, s: Reducer, i: Input, p: Pending): (Reducer, Result<Verdict, Fault>) {
    if CountAfter(s.commandEnds, p.since) >= REVOCATION_CELLS then (s.(pending := None, phase := Listening), Ok(Revoked(p)))
    else if i.frontier - p.since >= LOOKAHEAD then Finalize(c, s, p.boundary, p.route, p.text, i.validAudioEnd)
    else (s, Ok(Waiting(p)))
  }

  function StepListening(c: Setup, s: Reducer, i: Input): (Reducer, Result<Verdict, Fault>) {
    var found := Found(c, s, i.frontier, i.stable);
    if found.Some? then (s.(pending := found, phase := EndPending), Ok(Waiting(found.value)))
    else
      var progress := if s.commandStart.None? || s.commandStart.value <= i.stable.progressSample then i.stable.progressSample else s.commandStart.value;
      if s.commandEnds != [] && i.frontier - progress >= NO_PROGRESS then
        var boundary := if i.stable.prefixSample.Some? then BoundaryAt(s.commandEnds, i.stable.prefixSample.value) else None;
        if i.stable.prefix != "" && c.completeness(i.stable.prefix).Complete? && boundary.Some? then
          Finalize(c, s, boundary.value, Fallback, i.stable.prefix, i.validAudioEnd)
        else CloseOnce(s, Retry)
      else (s, Ok(Nothing))
  }

  function Step(c: Setup, s: Reducer, i: Input): (Reducer, Result<Verdict, Fault>) {
    if s.phase.Committed? || s.phase.Closed? then (s, Err(Terminal))
    else if i.frontier < s.frontier then (s, Err(FrontierBack))
    else if i.validAudioEnd > i.frontier then (s, Err(AudioAhead))
    else
      var u := s.(frontier := i.frontier);
      var reason := ClosingReason(c, u, i);
      if reason.Some? then CloseOnce(u, reason.value)
      else if u.pending.Some? then StepPending(c, u, i, u.pending.value)
      else StepListening(c, u, i)
  }

  // ---- whole utterances ----

  /** One block: the cells classified since the last step, then the step. */
  datatype Tick = Tick(cells: seq<Classified>, input: Input)

  function ApplyTick(c: Setup, s: Reducer, t: Tick): Reducer { Step(c, Observe(c, s, t.cells), t.input).0 }

  function Run(c: Setup, ts: seq<Tick>): Reducer {
    if ts == [] then Initial(c) else ApplyTick(c, Run(c, ts[..|ts| - 1]), ts[|ts| - 1])
  }

  /** What the attributor promises of a cell: command speech ends after the trigger and carries a run
      start that is not after it. */
  predicate Attributed(c: Setup, cell: Classified) {
    cell.start % CELL_SAMPLES == 0 && (cell.command ==> cell.End() > c.trigger && cell.runStart.Some? && cell.runStart.value <= cell.start)
  }

  /** The frontier the ticks have reached. */
  function Reached(ts: seq<Tick>): Option<int> {
    if ts == [] then None else Some(ts[|ts| - 1].input.frontier)
  }

  /** Cells are observed through each frontier before its step, once, in order. */
  predicate Fed(c: Setup, ts: seq<Tick>) {
    ts == [] || (Fed(c, ts[..|ts| - 1]) && FedTick(c, ts[|ts| - 1], Reached(ts[..|ts| - 1])))
  }

  predicate FedTick(c: Setup, t: Tick, before: Option<int>) {
    && t.input.validAudioEnd <= t.input.frontier && c.utteranceStart <= t.input.frontier
    && (before.Some? ==> before.value <= t.input.frontier)
    && (forall j :: 0 <= j < |t.cells| ==> Attributed(c, t.cells[j]) && t.cells[j].End() <= t.input.frontier)
    && (before.Some? ==> forall j :: 0 <= j < |t.cells| ==> t.cells[j].End() > before.value)
    && (forall j, k :: 0 <= j < k < |t.cells| ==> t.cells[j].start < t.cells[k].start)
  }

  predicate AscendingEnds(ends: seq<int>) {
    forall j, k :: 0 <= j < k < |ends| ==> ends[j] < ends[k]
  }

  /** The silence a pause route waits for. */
  function Pause(c: Setup, route: Route, text: string): int {
    if route.A? then RouteAPause(c.completeness(text)) else ROUTE_R_PAUSE
  }

  /** A pending endpoint: a command cell's end, with the route's whole pause behind it and no command
      cell in between (routes A and R). */
  predicate PendingHolds(c: Setup, s: Reducer, p: Pending) {
    && p.boundary in s.commandEnds && p.since <= s.frontier
    && (p.route.A? || p.route.R? ==> p.since - p.boundary >= Pause(c, p.route, p.text))
    && (p.route.A? || p.route.R? ==>
      forall k :: 0 <= k < |s.commandEnds| && s.commandEnds[k] > p.boundary ==> s.commandEnds[k] > p.since)
    && !p.route.Fallback? && (p.route.R? <==> c.esphomeReply)
  }

  /** The command ends are those of the cells observed, in order, after the trigger. */
  predicate EndsHold(c: Setup, s: Reducer) {
    && AscendingEnds(s.commandEnds)
    && (forall k :: 0 <= k < |s.commandEnds| ==> s.commandEnds[k] > c.trigger && s.commandEnds[k] % CELL_SAMPLES == 0)
    && (s.cells == [] ==> s.commandEnds == [])
    && (s.cells != [] ==> forall k :: 0 <= k < |s.commandEnds| ==> s.commandEnds[k] <= s.cells[|s.cells| - 1].End())
  }

  /** The answer's run, its held cells and the first command cell. */
  predicate AnswerHolds(c: Setup, s: Reducer) {
    && (s.commandEnds == [] <==> s.answerRun.None?)
    && (s.answerRun.None? ==> s.heldCells == 0)
    && (s.answerRun.Some? ==> s.answerRun.value <= s.commandEnds[0] - CELL_SAMPLES)
    && (s.answerRun.Some? ==> s.heldCells == Held(c, s.answerRun.value, s.commandEnds[0] - CELL_SAMPLES))
  }

  /** The command's start is that of a command cell from the trigger on; before there is one, every command
      cell straddles the trigger. */
  predicate StartHolds(c: Setup, s: Reducer) {
    match s.commandStart
    case None => forall k :: 0 <= k < |s.commandEnds| ==> s.commandEnds[k] - CELL_SAMPLES < c.trigger
    case Some(start) => c.trigger <= start && start + CELL_SAMPLES in s.commandEnds
  }

  predicate PhaseHolds(c: Setup, s: Reducer) {
    match s.phase
    case Listening => s.pending.None? && s.commit.None? && s.close.None?
    case EndPending => s.pending.Some? && s.commit.None? && s.close.None? && PendingHolds(c, s, s.pending.value)
    case Committed => s.pending.None? && s.commit.Some? && s.close.None?
    case Closed => s.commit.None? && s.close.Some?
  }

  /** Coherence of the state's parts. */
  predicate Inv(c: Setup, s: Reducer) {
    EndsHold(c, s) && AnswerHolds(c, s) && StartHolds(c, s) && PhaseHolds(c, s)
  }

  lemma InitialInv(c: Setup)
    ensures Inv(c, Initial(c))
  {
  }

  /** The held cells fill the grid from where they begin up to the first command cell, which starts at or
      after the trigger's cell. */
  lemma HeldCellsFit(c: Setup, run: int, first: int)
    requires first % CELL_SAMPLES == 0 && first + CELL_SAMPLES > c.trigger
    ensures c.TriggerCell() <= first && Held(c, run, first) >= 0
    ensures Held(c, run, first) > 0 ==> HeldFrom(c, run) <= first - CELL_SAMPLES * Held(c, run, first) < HeldFrom(c, run) + CELL_SAMPLES
    ensures first - CELL_SAMPLES * Held(c, run, first) - CELL_SAMPLES < HeldFrom(c, run)
  {
    assert c.TriggerCell() % CELL_SAMPLES == 0;
  }

  lemma ObserveEnds(c: Setup, s: Reducer, cell: Classified)
    requires EndsHold(c, s) && Attributed(c, cell) && (s.cells != [] ==> s.cells[|s.cells| - 1].start < cell.start)
    ensures ObserveCell(c, s, cell).Ok? && EndsHold(c, ObserveCell(c, s, cell).value)
  {
    var u := ObserveCell(c, s, cell).value;
    assert u.cells[|u.cells| - 1] == cell;
    assert forall k :: 0 <= k < |s.commandEnds| ==> s.commandEnds[k] < cell.End();
    if cell.command {
      assert cell.End() % CELL_SAMPLES == 0;
      EndsGrow(s.commandEnds, cell.End());
    }
  }

  lemma EndsGrow(ends: seq<int>, end: int)
    requires AscendingEnds(ends) && forall k :: 0 <= k < |ends| ==> ends[k] < end
    ensures AscendingEnds(ends + [end]) && forall k :: 0 <= k <= |ends| ==> (ends + [end])[k] <= end
  {
  }

  lemma ObserveAnswer(c: Setup, s: Reducer, cell: Classified)
    requires AnswerHolds(c, s) && Attributed(c, cell) && (s.cells != [] ==> s.cells[|s.cells| - 1].start < cell.start)
    ensures ObserveCell(c, s, cell).Ok? && AnswerHolds(c, ObserveCell(c, s, cell).value)
  {
    if cell.command && s.commandEnds != [] {
      assert (s.commandEnds + [cell.End()])[0] == s.commandEnds[0];
    }
  }

  /** One cell keeps the parts coherent; a pending endpoint keeps holding when the cell ends after it. */
  lemma ObserveCellKeeps(c: Setup, s: Reducer, cell: Classified)
    requires Inv(c, s) && Attributed(c, cell) && (s.cells != [] ==> s.cells[|s.cells| - 1].start < cell.start)
    requires s.pending.Some? && s.phase.EndPending? ==> cell.End() > s.pending.value.since
    ensures ObserveCell(c, s, cell).Ok?
    ensures var u := ObserveCell(c, s, cell).value;
      Inv(c, u) && u.phase == s.phase && u.pending == s.pending && u.frontier == s.frontier && u.cells == s.cells + [cell]
  {
    ObserveEnds(c, s, cell);
    ObserveAnswer(c, s, cell);
    ObserveStart(c, s, cell);
  }

  lemma ObserveStart(c: Setup, s: Reducer, cell: Classified)
    requires StartHolds(c, s) && (s.cells != [] ==> s.cells[|s.cells| - 1].start < cell.start)
    ensures ObserveCell(c, s, cell).Ok? && StartHolds(c, ObserveCell(c, s, cell).value)
    ensures s.commandStart.Some? ==> ObserveCell(c, s, cell).value.commandStart == s.commandStart
  {
    if cell.command {
      var ends := s.commandEnds + [cell.End()];
      assert ends[|s.commandEnds|] == cell.End() && forall e :: e in s.commandEnds ==> e in ends;
    }
  }

  predicate Increasing(cells: seq<Classified>) {
    forall j, k :: 0 <= j < k < |cells| ==> cells[j].start < cells[k].start
  }

  lemma {:induction false} ObserveKeeps(c: Setup, s: Reducer, cells: seq<Classified>)
    requires Inv(c, s) && Increasing(s.cells + cells)
    requires forall j :: 0 <= j < |cells| ==> Attributed(c, cells[j])
    requires s.phase.EndPending? ==> forall j :: 0 <= j < |cells| ==> cells[j].End() > s.pending.value.since
    ensures var u := Observe(c, s, cells);
      Inv(c, u) && u.phase == s.phase && u.pending == s.pending && u.frontier == s.frontier && u.cells == s.cells + cells
    decreases |cells|
  {
    if cells != [] {
      var all := s.cells + cells;
      assert all[|s.cells|] == cells[0];
      assert s.cells != [] ==> all[|s.cells| - 1] == s.cells[|s.cells| - 1];
      ObserveCellKeeps(c, s, cells[0]);
      assert s.cells + [cells[0]] + cells[1..] == all;
      ObserveKeeps(c, ObserveCell(c, s, cells[0]).value, cells[1..]);
    }
  }

  lemma LastEnd(ends: seq<int>)
    requires AscendingEnds(ends) && ends != []
    ensures forall k :: 0 <= k < |ends| ==> ends[k] <= ends[|ends| - 1]
  {
  }

  /** A route's finding is a pending endpoint that holds. */
  lemma FoundHolds(c: Setup, s: Reducer, i: Input)
    requires Inv(c, s) && s.frontier == i.frontier && Found(c, s, i.frontier, i.stable).Some?
    ensures var p := Found(c, s, i.frontier, i.stable).value; PendingHolds(c, s, p) && p.since == i.frontier
  {
    if s.commandEnds != [] {
      LastEnd(s.commandEnds);
    }
  }

  lemma StepKeeps(c: Setup, s: Reducer, i: Input)
    requires Inv(c, s)
    ensures Inv(c, Step(c, s, i).0)
  {
    var u := s.(frontier := i.frontier);
    if !(s.phase.Committed? || s.phase.Closed?) && s.frontier <= i.frontier && i.validAudioEnd <= i.frontier {
      SamePartsHold(c, s, u);
      assert PhaseHolds(c, u);
      if ClosingReason(c, u, i).None? {
        OpenStepKeeps(c, u, i);
      } else {
        SamePartsHold(c, u, Step(c, s, i).0);
      }
    }
  }

  lemma {:induction false} OpenStepKeeps(c: Setup, s: Reducer, i: Input)
    requires Inv(c, s) && s.frontier == i.frontier && (s.phase.Listening? || s.phase.EndPending?)
    ensures s.pending.Some? ==> Inv(c, StepPending(c, s, i, s.pending.value).0)
    ensures s.pending.None? ==> Inv(c, StepListening(c, s, i).0)
  {
    var u := if s.pending.Some? then StepPending(c, s, i, s.pending.value).0 else StepListening(c, s, i).0;
    SamePartsHold(c, s, u);
    if s.pending.Some? {
      PendingStepHolds(c, s, i);
    } else {
      ListeningStepHolds(c, s, i);
    }
  }

  /** The cells' parts of the state hold whatever happens to the phase. */
  lemma {:induction false} SamePartsHold(c: Setup, s: Reducer, u: Reducer)
    requires EndsHold(c, s) && AnswerHolds(c, s) && StartHolds(c, s)
    requires u.cells == s.cells && u.commandEnds == s.commandEnds && u.commandStart == s.commandStart
    requires u.answerRun == s.answerRun && u.heldCells == s.heldCells
    ensures EndsHold(c, u) && AnswerHolds(c, u) && StartHolds(c, u)
  {
  }

  lemma {:induction false} PendingStepHolds(c: Setup, s: Reducer, i: Input)
    requires PhaseHolds(c, s) && s.phase.EndPending?
    ensures PhaseHolds(c, StepPending(c, s, i, s.pending.value).0)
  {
  }

  lemma {:induction false} ListeningStepHolds(c: Setup, s: Reducer, i: Input)
    requires Inv(c, s) && s.phase.Listening? && s.frontier == i.frontier
    ensures PhaseHolds(c, StepListening(c, s, i).0)
  {
    if Found(c, s, i.frontier, i.stable).Some? {
      FoundHolds(c, s, i);
    }
  }

  /** Every commit lies in the audio: start <= boundary <= end <= the end of valid audio, the tail is
      at most the look-ahead, and the boundary is the end of a command cell that ends after the
      trigger. */
  predicate WellPlaced(c: Setup, s: Reducer, m: Commit, validAudioEnd: int) {
    && c.utteranceStart <= m.start <= m.boundary <= m.end <= validAudioEnd && m.end <= m.boundary + LOOKAHEAD
    && m.boundary in s.commandEnds && m.boundary > c.trigger
    && (m.redecode <==> m.route.B? || m.route.Fallback?)
  }

  /** The commit a step answered with, if it did. */
  function CommitOf(r: Result<Verdict, Fault>): Option<Commit> {
    if r.Ok? && r.value.Commits? then Some(r.value.commit) else None
  }

  /** What a pause route waited for: at least the look-ahead plus its pause since the boundary, and
      fewer than four command cells after it. */
  predicate Waited(c: Setup, s: Reducer, m: Commit, frontier: int) {
    m.route.A? || m.route.R? ==>
      frontier - m.boundary >= LOOKAHEAD + Pause(c, m.route, m.text) && CountAfter(s.commandEnds, m.boundary) < REVOCATION_CELLS
  }

  lemma FinalizePlaces(c: Setup, s: Reducer, boundary: int, route: Route, text: string, validAudioEnd: int)
    requires Inv(c, s) && boundary in s.commandEnds
    ensures Finalize(c, s, boundary, route, text, validAudioEnd).1.Ok? ==>
      var m := CommitOf(Finalize(c, s, boundary, route, text, validAudioEnd).1);
      m.Some? && WellPlaced(c, s, m.value, validAudioEnd) && m.value.boundary == boundary && m.value.route == route && m.value.text == text
  {
    var k :| 0 <= k < |s.commandEnds| && s.commandEnds[k] == boundary;
    assert s.commandEnds[0] <= boundary;
  }

  /** A commit, whatever route it came by, is well placed, and a pause route's has waited. */
  lemma CommitIsPlaced(c: Setup, s: Reducer, i: Input)
    requires Inv(c, s)
    ensures var m := CommitOf(Step(c, s, i).1);
      m.Some? ==> WellPlaced(c, s, m.value, i.validAudioEnd) && Waited(c, s, m.value, i.frontier)
  {
    var u := s.(frontier := i.frontier);
    if CommitOf(Step(c, s, i).1).Some? {
      assert Inv(c, u);
      if u.pending.Some? {
        var p := u.pending.value;
        FinalizePlaces(c, u, p.boundary, p.route, p.text, i.validAudioEnd);
        if p.route.A? || p.route.R? {
          CountSame(s.commandEnds, p.boundary, p.since);
        }
      } else {
        var boundary := BoundaryAt(s.commandEnds, i.stable.prefixSample.value);
        FinalizePlaces(c, u, boundary.value, Fallback, i.stable.prefix, i.validAudioEnd);
      }
    }
  }

  lemma {:induction false} CountSame(ends: seq<int>, a: int, b: int)
    requires a <= b && forall k :: 0 <= k < |ends| && ends[k] > a ==> ends[k] > b
    ensures CountAfter(ends, a) == CountAfter(ends, b)
  {
    if ends != [] {
      CountSame(ends[..|ends| - 1], a, b);
    }
  }

  // ---- runs ----

  /** The state after fed ticks: coherent, with every cell observed so far ending by the frontier. */
  ghost predicate RunHolds(c: Setup, reached: Option<int>, s: Reducer) {
    && Inv(c, s) && Increasing(s.cells)
    && (reached.None? ==> s == Initial(c))
    && (reached.Some? ==> s.frontier <= reached.value)
    && (reached.Some? ==> forall k :: 0 <= k < |s.cells| ==> s.cells[k].End() <= reached.value)
  }

  lemma ObserveTick(c: Setup, reached: Option<int>, s: Reducer, t: Tick)
    requires RunHolds(c, reached, s) && FedTick(c, t, reached)
    ensures var u := Observe(c, s, t.cells);
      && Inv(c, u) && u.phase == s.phase && u.pending == s.pending && u.frontier == s.frontier && u.cells == s.cells + t.cells
      && Increasing(u.cells) && (forall k :: 0 <= k < |u.cells| ==> u.cells[k].End() <= t.input.frontier)
      && u.frontier <= t.input.frontier
  {
    var joined := s.cells + t.cells;
    assert Increasing(joined);
    ObserveKeeps(c, s, t.cells);
  }

  lemma TickHolds(c: Setup, reached: Option<int>, s: Reducer, t: Tick)
    requires RunHolds(c, reached, s) && FedTick(c, t, reached)
    ensures RunHolds(c, Some(t.input.frontier), ApplyTick(c, s, t))
  {
    ObserveTick(c, reached, s, t);
    StepKeeps(c, Observe(c, s, t.cells), t.input);
    StepFrame(c, Observe(c, s, t.cells), t.input);
  }

  lemma StepFrame(c: Setup, s: Reducer, i: Input)
    ensures var u := Step(c, s, i).0;
      u.cells == s.cells && u.commandEnds == s.commandEnds && u.commandStart == s.commandStart && u.answerRun == s.answerRun
      && u.heldCells == s.heldCells && (u.frontier == s.frontier || u.frontier == i.frontier)
  {
  }

  /** Every state a fed utterance reaches is coherent: never both committed and closed, a pending
      endpoint only while one is pending, and that one still holding. */
  lemma {:induction false} RunsHold(c: Setup, ts: seq<Tick>)
    requires Fed(c, ts) && c.utteranceStart <= c.trigger
    ensures RunHolds(c, Reached(ts), Run(c, ts))
  {
    if ts == [] {
      InitialInv(c);
    } else {
      var front := ts[..|ts| - 1];
      RunsHold(c, front);
      TickHolds(c, Reached(front), Run(c, front), ts[|ts| - 1]);
    }
  }

  /** The decision of the last tick. */
  function LastDecision(c: Setup, ts: seq<Tick>): Result<Verdict, Fault>
    requires ts != []
  {
    Step(c, Observe(c, Run(c, ts[..|ts| - 1]), ts[|ts| - 1].cells), ts[|ts| - 1].input).1
  }

  /** The commits of an utterance. Each lies in the audio with its boundary at the end of an observed
      command cell; a pause route's commit comes at least the look-ahead plus its pause after the
      boundary and leaves fewer than four command cells after it. */
  lemma EveryCommit(c: Setup, ts: seq<Tick>)
    requires Fed(c, ts) && ts != [] && c.utteranceStart <= c.trigger
    ensures var m := CommitOf(LastDecision(c, ts));
      m.Some? ==>
        && WellPlaced(c, Run(c, ts), m.value, ts[|ts| - 1].input.validAudioEnd)
        && Waited(c, Run(c, ts), m.value, ts[|ts| - 1].input.frontier)
        && Run(c, ts).phase.Committed? && Run(c, ts).commit == m
  {
    var front, t := ts[..|ts| - 1], ts[|ts| - 1];
    RunsHold(c, front);
    ObserveTick(c, Reached(front), Run(c, front), t);
    var u := Observe(c, Run(c, front), t.cells);
    CommitIsPlaced(c, u, t.input);
    StepFrame(c, u, t.input);
    CommitSetsState(c, u, t.input);
  }

  lemma CommitSetsState(c: Setup, s: Reducer, i: Input)
    ensures var (u, r) := Step(c, s, i);
      && (CommitOf(r).Some? ==> u.phase.Committed? && u.commit == CommitOf(r))
      && (r.Ok? && r.value.Closes? ==> u.phase.Closed? && u.close == Some(r.value.reason))
  {
  }

  predicate Over(s: Reducer) { s.phase.Committed? || s.phase.Closed? }

  /** An utterance ends once: after a commit or a close every further tick is refused, and neither the
      phase nor the commit nor the close ever changes again. */
  lemma EndsOnce(c: Setup, ts: seq<Tick>)
    requires Fed(c, ts) && ts != [] && c.utteranceStart <= c.trigger && Over(Run(c, ts[..|ts| - 1]))
    ensures LastDecision(c, ts) == Err(Terminal)
    ensures var s, u := Run(c, ts[..|ts| - 1]), Run(c, ts); u.phase == s.phase && u.commit == s.commit && u.close == s.close
    ensures Run(c, ts).commit.Some? != Run(c, ts).close.Some?
  {
    RunsHold(c, ts);
    RunsHold(c, ts[..|ts| - 1]);
    ObserveTick(c, Reached(ts[..|ts| - 1]), Run(c, ts[..|ts| - 1]), ts[|ts| - 1]);
    ObserveKeepsEnd(c, Run(c, ts[..|ts| - 1]), ts[|ts| - 1].cells);
  }

  lemma {:induction false} ObserveKeepsEnd(c: Setup, s: Reducer, cells: seq<Classified>)
    ensures Observe(c, s, cells).commit == s.commit && Observe(c, s, cells).close == s.close
    ensures Observe(c, s, cells).phase == s.phase && Observe(c, s, cells).pending == s.pending
    decreases |cells|
  {
    if cells != [] && ObserveCell(c, s, cells[0]).Ok? {
      ObserveKeepsEnd(c, ObserveCell(c, s, cells[0]).value, cells[1..]);
    }
  }

  function RunOn(c: Setup, s: Reducer, ts: seq<Tick>): Reducer {
    if ts == [] then s else ApplyTick(c, RunOn(c, s, ts[..|ts| - 1]), ts[|ts| - 1])
  }

  /** A close is for good: whatever is observed and stepped after it, every step is refused, and the reason,
      the phase, the absent commit and whatever was pending stay as the close found them. */
  lemma {:induction false} ClosedForGood(c: Setup, s: Reducer, reason: CloseReason, ts: seq<Tick>, t: Tick)
    ensures var u := RunOn(c, CloseOnce(s, reason).0, ts);
      && u.phase.Closed? && u.close == Some(reason) && u.commit == s.commit && u.pending == s.pending
      && LastOf(c, u, t) == Err(Terminal)
  {
    var u := RunOn(c, CloseOnce(s, reason).0, ts);
    if ts != [] {
      var before, last := RunOn(c, CloseOnce(s, reason).0, ts[..|ts| - 1]), ts[|ts| - 1];
      ClosedForGood(c, s, reason, ts[..|ts| - 1], last);
      ObserveKeepsEnd(c, before, last.cells);
    }
    ObserveKeepsEnd(c, u, t.cells);
  }

  /** How far an utterance can still be open: a turn below its maximum after the trigger; anything
      without command speech below its no-input time; a reply whose command speech started at or
      after the trigger below its maximum after that start. */
  predicate WithinLimits(c: Setup, s: Reducer, frontier: int) {
    && (!c.reply ==> frontier - c.trigger < c.Maximum())
    && (s.commandEnds == [] ==> frontier < c.noInputAt)
    && (c.reply && s.commandStart.Some? ==> frontier - s.commandStart.value < c.Maximum())
  }

  /** Past its limits a step always closes, and never commits. */
  lemma LimitsClose(c: Setup, s: Reducer, i: Input)
    requires !Over(s) && s.frontier <= i.frontier && i.validAudioEnd <= i.frontier
    ensures !WithinLimits(c, s, i.frontier) ==> Step(c, s, i).1.Ok? && Step(c, s, i).1.value.Closes?
    ensures Step(c, s, i).1.Ok? && !Step(c, s, i).1.value.Closes? ==> WithinLimits(c, s, i.frontier)
  {
  }

  /** A turn whose frontiers advance by at least `block` and that is still open after its ticks has
      had fewer than (maximum + trigger - first frontier) / block + 1 of them. */
  lemma TurnsEnd(c: Setup, ts: seq<Tick>, block: nat)
    requires Fed(c, ts) && ts != [] && c.utteranceStart <= c.trigger && !c.reply && block > 0
    requires forall k :: 0 < k < |ts| ==> ts[k - 1].input.frontier + block <= ts[k].input.frontier
    requires !Over(Run(c, ts)) && LastDecision(c, ts).Ok?
    ensures block * (|ts| - 1) < c.trigger + c.Maximum() - ts[0].input.frontier
  {
    var front, t := ts[..|ts| - 1], ts[|ts| - 1];
    RunsHold(c, front);
    ObserveTick(c, Reached(front), Run(c, front), t);
    var u := Observe(c, Run(c, front), t.cells);
    CommitSetsState(c, u, t.input);
    if !Over(u) {
      LimitsClose(c, u, t.input);
    }
    FrontiersAdvance(ts, block, |ts| - 1);
  }

  lemma {:induction false} FrontiersAdvance(ts: seq<Tick>, block: nat, n: nat)
    requires n < |ts| && forall k :: 0 < k < |ts| ==> ts[k - 1].input.frontier + block <= ts[k].input.frontier
    ensures ts[0].input.frontier + block * n <= ts[n].input.frontier
  {
    if n > 0 {
      FrontiersAdvance(ts, block, n - 1);
    }
  }

  // ---- replies ----

  /** Every step so far was answered without a fault. */
  predicate AllOk(c: Setup, ts: seq<Tick>) {
    ts == [] || (AllOk(c, ts[..|ts| - 1]) && LastDecision(c, ts).Ok?)
  }

  predicate Advancing(ts: seq<Tick>, block: int) {
    forall k :: 0 < k < |ts| ==> ts[k - 1].input.frontier + block <= ts[k].input.frontier
  }

  /** What n blocks add up to. */
  function Blocks(block: int, n: nat): int {
    if n == 0 then 0 else Blocks(block, n - 1) + block
  }

  lemma {:induction false} BlocksGrow(block: int, n: nat)
    requires block > 0
    ensures Blocks(block, n) == block * n >= n
  {
    if n > 0 {
      BlocksGrow(block, n - 1);
    }
  }

  /** What a caller can see before the utterance: with the trigger on the cell grid no command cell can
      straddle it, and a reply to an ESPHome question ends by route R after one that does. */
  predicate Closable(c: Setup) { c.trigger % CELL_SAMPLES == 0 || c.esphomeReply }

  /** When a reply that has no command start yet must have found its end or one. */
  function Deadline(c: Setup): int {
    if c.noInputAt < c.TriggerCell() + CELL_SAMPLES + ROUTE_R_PAUSE then c.TriggerCell() + CELL_SAMPLES + ROUTE_R_PAUSE else c.noInputAt
  }

  function Head(c: Setup, first: int, block: int): int {
    (if first < Deadline(c) then Deadline(c) - first else 0) + block
  }

  /** How far the frontiers of a reply that is still open can have gone, `spent` being what the blocks
      after the first add up to. */
  predicate Travelled(c: Setup, s: Reducer, first: int, spent: int, frontier: int, block: int) {
    if s.commandEnds == [] then first + spent <= frontier < c.noInputAt
    else
      match s.commandStart
      case Some(start) => spent <= Head(c, first, block) + LOOKAHEAD + block + (frontier - start) && start <= frontier < start + c.Maximum()
      case None => c.esphomeReply && s.commandEnds == [c.TriggerCell() + CELL_SAMPLES] && TravelledStraddled(c, s.pending, first, spent, frontier, block)
  }

  predicate TravelledStraddled(c: Setup, pending: Option<Pending>, first: int, spent: int, frontier: int, block: int) {
    match pending
    case None => first + spent <= frontier < Deadline(c)
    case Some(p) => spent <= Head(c, first, block) + (frontier - p.since) && p.since <= frontier < p.since + LOOKAHEAD
  }

  /** Without a command start there is at most the one straddling cell. */
  lemma OneStraddles(c: Setup, s: Reducer)
    requires EndsHold(c, s) && StartHolds(c, s) && s.commandStart.None? && s.commandEnds != []
    ensures s.commandEnds == [c.TriggerCell() + CELL_SAMPLES] && c.trigger % CELL_SAMPLES != 0
  {
    forall k | 0 <= k < |s.commandEnds|
      ensures s.commandEnds[k] == c.TriggerCell() + CELL_SAMPLES && c.trigger % CELL_SAMPLES != 0
    {
      assert c.trigger < s.commandEnds[k] < c.trigger + CELL_SAMPLES && s.commandEnds[k] % CELL_SAMPLES == 0;
    }
    assert s.commandEnds[0] == s.commandEnds[|s.commandEnds| - 1];
  }

  lemma StartIsReached(c: Setup, s: Reducer, frontier: int)
    requires EndsHold(c, s) && StartHolds(c, s) && s.commandStart.Some?
    requires forall k :: 0 <= k < |s.cells| ==> s.cells[k].End() <= frontier
    ensures s.commandStart.value + CELL_SAMPLES <= frontier
  {
    var k :| 0 <= k < |s.commandEnds| && s.commandEnds[k] == s.commandStart.value + CELL_SAMPLES;
  }

  lemma {:induction false} StartStays(c: Setup, s: Reducer, cells: seq<Classified>)
    requires StartHolds(c, s) && Increasing(s.cells + cells)
    ensures s.commandStart.Some? ==> Observe(c, s, cells).commandStart == s.commandStart
    ensures s.commandEnds != [] ==> Observe(c, s, cells).commandEnds != []
    decreases |cells|
  {
    if cells != [] {
      var all := s.cells + cells;
      assert all[|s.cells|] == cells[0] && (s.cells != [] ==> all[|s.cells| - 1] == s.cells[|s.cells| - 1]);
      ObserveStart(c, s, cells[0]);
      assert s.cells + [cells[0]] + cells[1..] == all;
      StartStays(c, ObserveCell(c, s, cells[0]).value, cells[1..]);
    }
  }

  /** What a step that leaves an ESPHome reply open says while only a straddling cell has been heard: it
      waits for the pause, starts to wait out the look-ahead, or is still within it. */
  lemma RouteRWaits(c: Setup, s: Reducer, i: Input)
    requires c.esphomeReply && !Over(s) && s.frontier <= i.frontier && i.validAudioEnd <= i.frontier
    requires s.commandEnds == [c.TriggerCell() + CELL_SAMPLES] && PhaseHolds(c, s) && (s.pending.Some? ==> s.pending.value.since <= s.frontier)
    requires Step(c, s, i).1.Ok? && !Over(Step(c, s, i).0)
    ensures var v := Step(c, s, i).0;
      if s.pending.Some? then v.pending == s.pending && i.frontier < s.pending.value.since + LOOKAHEAD
      else if v.pending.Some? then v.pending.value.since == i.frontier
      else i.frontier < Deadline(c)
  {
    if s.pending.Some? {
      assert s.pending.value.boundary in s.commandEnds;
      assert CountAfter(s.commandEnds, s.pending.value.since) <= |s.commandEnds|;
    }
  }

  /** One more block of an open reply. */
  lemma ReplyTravels(c: Setup, s: Reducer, before: int, t: Tick, first: int, spent: int, block: int)
    requires c.reply && Closable(c) && block > 0 && RunHolds(c, Some(before), s) && FedTick(c, t, Some(before))
    requires Travelled(c, s, first, spent, before, block) && before + block <= t.input.frontier
    requires !Over(s) && LastOf(c, s, t).Ok? && !Over(ApplyTick(c, s, t))
    ensures Travelled(c, ApplyTick(c, s, t), first, spent + block, t.input.frontier, block)
  {
    ObserveTick(c, Some(before), s, t);
    StartStays(c, s, t.cells);
    OpenReplyTravels(c, s.commandStart, s.commandEnds == [], s.pending, Observe(c, s, t.cells), before, t.input, first, spent, block);
  }

  function LastOf(c: Setup, s: Reducer, t: Tick): Result<Verdict, Fault> { Step(c, Observe(c, s, t.cells), t.input).1 }

  /** What Travelled says, of the parts of a state before the block's cells. */
  predicate TravelledBefore(c: Setup, start: Option<int>, unheard: bool, pending: Option<Pending>, first: int, spent: int, frontier: int, block: int) {
    if unheard then first + spent <= frontier < c.noInputAt
    else
      match start
      case Some(from) => spent <= Head(c, first, block) + LOOKAHEAD + block + (frontier - from) && from <= frontier < from + c.Maximum()
      case None => c.esphomeReply && TravelledStraddled(c, pending, first, spent, frontier, block)
  }

  lemma OpenReplyTravels(c: Setup, start: Option<int>, unheard: bool, pending: Option<Pending>, u: Reducer, before: int, i: Input, first: int, spent: int, block: int)
    requires c.reply && Closable(c) && block > 0 && Inv(c, u) && u.pending == pending
    requires TravelledBefore(c, start, unheard, pending, first, spent, before, block) && before + block <= i.frontier
    requires start.Some? ==> u.commandStart == start
    requires !unheard ==> u.commandEnds != []
    requires u.frontier <= i.frontier && i.validAudioEnd <= i.frontier && (pending.Some? ==> pending.value.since <= u.frontier)
    requires unheard ==> pending.None?
    requires forall k :: 0 <= k < |u.cells| ==> u.cells[k].End() <= i.frontier
    requires !Over(u) && Step(c, u, i).1.Ok? && !Over(Step(c, u, i).0)
    ensures Travelled(c, Step(c, u, i).0, first, spent + block, i.frontier, block)
  {
    var v := Step(c, u, i).0;
    StepFrame(c, u, i);
    CommitSetsState(c, u, i);
    LimitsClose(c, u, i);
    if u.commandStart.Some? {
      StartIsReached(c, u, i.frontier);
    } else if u.commandEnds != [] {
      OneStraddles(c, u);
      RouteRWaits(c, u, i);
    }
  }

  lemma FirstReplyTravels(c: Setup, t: Tick, block: int)
    requires c.reply && Closable(c) && block > 0 && c.utteranceStart <= c.trigger && FedTick(c, t, None)
    requires LastOf(c, Initial(c), t).Ok? && !Over(ApplyTick(c, Initial(c), t))
    ensures Travelled(c, ApplyTick(c, Initial(c), t), t.input.frontier, 0, t.input.frontier, block)
  {
    InitialInv(c);
    ObserveTick(c, None, Initial(c), t);
    var u := Observe(c, Initial(c), t.cells);
    StepFrame(c, u, t.input);
    CommitSetsState(c, u, t.input);
    LimitsClose(c, u, t.input);
    if u.commandStart.Some? {
      StartIsReached(c, u, t.input.frontier);
    } else if u.commandEnds != [] {
      OneStraddles(c, u);
      RouteRWaits(c, u, t.input);
    }
  }

  lemma {:induction false} RepliesTravel(c: Setup, ts: seq<Tick>, block: int)
    requires Fed(c, ts) && AllOk(c, ts) && Advancing(ts, block) && ts != []
    requires c.reply && Closable(c) && block > 0 && c.utteranceStart <= c.trigger && !Over(Run(c, ts))
    ensures Travelled(c, Run(c, ts), ts[0].input.frontier, Blocks(block, |ts| - 1), ts[|ts| - 1].input.frontier, block)
  {
    var n := |ts| - 1;
    var front, t := ts[..n], ts[n];
    if n == 0 {
      assert front == [];
      FirstReplyTravels(c, t, block);
    } else {
      assert front[0] == ts[0] && front[n - 1] == ts[n - 1];
      if Over(Run(c, front)) {
        StillOver(c, front, t);
        assert false;
      }
      RunsHold(c, front);
      RepliesTravel(c, front, block);
      ReplyTravels(c, Run(c, front), ts[n - 1].input.frontier, t, ts[0].input.frontier, Blocks(block, n - 1), block);
    }
  }

  lemma StillOver(c: Setup, front: seq<Tick>, t: Tick)
    requires Fed(c, front) && c.utteranceStart <= c.trigger && FedTick(c, t, Reached(front)) && Over(Run(c, front))
    ensures LastOf(c, Run(c, front), t) == Err(Terminal)
  {
    RunsHold(c, front);
    ObserveTick(c, Reached(front), Run(c, front), t);
  }

  /** How much blocks after the first can add up to before a closable reply is over, the first frontier
      being `first`: its deadline, the look-ahead, and its maximum. */
  function ReplyBound(c: Setup, first: int, block: int): int { Head(c, first, block) + LOOKAHEAD + block + c.Maximum() }

  /** A run of a reply that is still open, every step answered, its frontiers advancing by the block. */
  predicate OpenReply(c: Setup, ts: seq<Tick>, block: int) {
    ts != [] && Fed(c, ts) && AllOk(c, ts) && Advancing(ts, block) && !Over(Run(c, ts))
  }

  /** A closable reply ends: still open, it has had less than its bound of blocks. */
  lemma RepliesEnd(c: Setup, ts: seq<Tick>, block: int)
    requires c.reply && Closable(c) && block > 0 && c.utteranceStart <= c.trigger && OpenReply(c, ts, block)
    ensures Blocks(block, |ts| - 1) < ReplyBound(c, ts[0].input.frontier, block)
  {
    RepliesTravel(c, ts, block);
  }

  // ---- the replies that need not end ----

  /** One command cell that straddles the trigger, and then nothing but text that keeps progressing. */
  function Straddling(c: Setup): Classified {
    Classified(c.TriggerCell(), CommandSpeech, VadRule, true, true, Some(c.TriggerCell()))
  }

  function TalkingInput(frontier: int): Input {
    Input(frontier, StableText("", None, frontier, 0), frontier, false, false, false, false)
  }

  function Straddled(c: Setup, frontier: int): Reducer {
    Initial(c).(cells := [Straddling(c)], commandEnds := [c.TriggerCell() + CELL_SAMPLES], answerRun := Some(c.TriggerCell()), frontier := frontier)
  }

  lemma TalkingStaysOpen(c: Setup, before: int, frontier: int)
    requires c.reply && !c.esphomeReply && before <= frontier
    ensures Step(c, Straddled(c, before), TalkingInput(frontier)) == (Straddled(c, frontier), Ok(Nothing))
  {
    assert ClosingReason(c, Straddled(c, frontier), TalkingInput(frontier)).None?;
  }

  function FirstHeard(c: Setup): int {
    if c.utteranceStart < c.TriggerCell() + CELL_SAMPLES then c.TriggerCell() + CELL_SAMPLES else c.utteranceStart
  }

  lemma {:induction false} FirstStaysOpen(c: Setup, block: int)
    requires c.reply && !Closable(c) && c.utteranceStart <= c.trigger
    ensures var ts := [Tick([Straddling(c)], TalkingInput(FirstHeard(c)))];
      OpenReply(c, ts, block) && Run(c, ts) == Straddled(c, FirstHeard(c))
  {
    var cell := Straddling(c);
    assert c.TriggerCell() % CELL_SAMPLES == 0;
    var t := Tick([cell], TalkingInput(FirstHeard(c)));
    var ts := [t];
    assert [cell][1..] == [];
    var u := ObserveCell(c, Initial(c), cell).value;
    assert Observe(c, u, []) == u == Straddled(c, c.utteranceStart);
    assert Observe(c, Initial(c), [cell]) == u;
    TalkingStaysOpen(c, c.utteranceStart, FirstHeard(c));
    var none: seq<Tick> := [];
    assert ts[..0] == none && Run(c, none) == Initial(c) && Fed(c, none) && AllOk(c, none);
    assert Run(c, ts) == ApplyTick(c, Initial(c), t) && LastDecision(c, ts) == Ok(Nothing);
    assert FedTick(c, t, None);
  }

  lemma {:induction false} MoreStaysOpen(c: Setup, block: int, front: seq<Tick>, before: int)
    requires c.reply && !c.esphomeReply && block > 0 && OpenReply(c, front, block) && Run(c, front) == Straddled(c, before)
    requires c.utteranceStart <= before && front[|front| - 1].input.frontier == before
    ensures var ts := front + [Tick([], TalkingInput(before + block))];
      OpenReply(c, ts, block) && Run(c, ts) == Straddled(c, before + block)
  {
    var t := Tick([], TalkingInput(before + block));
    var ts := front + [t];
    assert ts[..|ts| - 1] == front && ts[|ts| - 1] == t;
    TalkingStaysOpen(c, before, before + block);
    assert LastDecision(c, ts) == Ok(Nothing);
    assert forall k :: 0 <= k < |front| ==> ts[k] == front[k];
  }

  lemma {:induction false} StaysOpen(c: Setup, block: int, n: nat) returns (ts: seq<Tick>)
    requires c.reply && !Closable(c) && block > 0 && c.utteranceStart <= c.trigger && n > 0
    ensures |ts| == n && OpenReply(c, ts, block) && ts[0].input.frontier == FirstHeard(c)
    ensures ts[n - 1].input.frontier == FirstHeard(c) + Blocks(block, n - 1)
    ensures Run(c, ts) == Straddled(c, ts[n - 1].input.frontier)
  {
    if n == 1 {
      FirstStaysOpen(c, block);
      ts := [Tick([Straddling(c)], TalkingInput(FirstHeard(c)))];
    } else {
      var front := StaysOpen(c, block, n - 1);
      BlocksGrow(block, n - 2);
      var before := front[n - 2].input.frontier;
      MoreStaysOpen(c, block, front, before);
      ts := front + [Tick([], TalkingInput(before + block))];
    }
  }

  /** The exact condition: every reply of a setup ends within its bound if and only if the trigger lies on
      the cell grid or it answers an ESPHome question. Outside it a run stays open for any number of
      blocks: its only command cell straddles the trigger and so starts no maximum. */
  lemma RepliesEndIff(c: Setup, block: int)
    requires c.reply && block > 0 && c.utteranceStart <= c.trigger
    ensures Closable(c) <==>
      forall ts: seq<Tick> :: OpenReply(c, ts, block) ==> Blocks(block, |ts| - 1) < ReplyBound(c, ts[0].input.frontier, block)
  {
    if Closable(c) {
      forall ts: seq<Tick> | OpenReply(c, ts, block)
        ensures Blocks(block, |ts| - 1) < ReplyBound(c, ts[0].input.frontier, block)
      {
        RepliesEnd(c, ts, block);
      }
    } else {
      var ts := Outlasts(c, block, ReplyBound(c, FirstHeard(c), block));
      assert OpenReply(c, ts, block) && ts[0].input.frontier == FirstHeard(c);
    }
  }

  lemma Outlasts(c: Setup, block: int, bound: int) returns (ts: seq<Tick>)
    requires c.reply && !Closable(c) && block > 0 && c.utteranceStart <= c.trigger
    ensures OpenReply(c, ts, block) && ts[0].input.frontier == FirstHeard(c) && Blocks(block, |ts| - 1) >= bound
  {
    var n := if bound < 0 then 1 else bound + 1;
    ts := StaysOpen(c, block, n);
    BlocksGrow(block, n - 1);
  }

  /** The starts that route A's minimum counts: the held cells, each between where the answer's run and the
      trigger's cell allow and the first command cell, with room for no further one, and then the command
      cells; all different, none before the trigger's cell. */
  predicate Counted(c: Setup, s: Reducer, starts: seq<int>) {
    && 0 <= s.heldCells && |starts| == s.heldCells + |s.commandEnds|
    && (forall i, j :: 0 <= i < j < |starts| ==> starts[i] < starts[j])
    && (forall i :: 0 <= i < |starts| ==> starts[i] >= c.TriggerCell() && starts[i] % CELL_SAMPLES == 0)
    && (forall k :: 0 <= k < |s.commandEnds| ==> starts[s.heldCells + k] == s.commandEnds[k] - CELL_SAMPLES)
    && (s.commandEnds == [] ==> s.heldCells == 0)
    && (s.commandEnds != [] ==>
      && s.answerRun.Some?
      && (forall i :: 0 <= i < s.heldCells ==> HeldFrom(c, s.answerRun.value) <= starts[i] < s.commandEnds[0] - CELL_SAMPLES)
      && s.commandEnds[0] - CELL_SAMPLES - CELL_SAMPLES * s.heldCells - CELL_SAMPLES < HeldFrom(c, s.answerRun.value))
  }

  lemma MinimumCountsDistinctCells(c: Setup, ts: seq<Tick>) returns (starts: seq<int>)
    requires Fed(c, ts) && c.utteranceStart <= c.trigger
    ensures Counted(c, Run(c, ts), starts)
  {
    RunsHold(c, ts);
    starts := CountedStarts(c, Run(c, ts));
  }

  /** `held` cells right before `first`, ascending. */
  function HeldStarts(first: int, held: nat): (starts: seq<int>)
    requires first % CELL_SAMPLES == 0
    ensures |starts| == held && forall k :: 0 <= k < held ==> first - CELL_SAMPLES * held <= starts[k] < first && starts[k] % CELL_SAMPLES == 0
    ensures forall j, k :: 0 <= j < k < held ==> starts[j] < starts[k]
    decreases held
  {
    if held == 0 then [] else HeldStarts(first - CELL_SAMPLES, held - 1) + [first - CELL_SAMPLES]
  }

  function CommandStarts(ends: seq<int>): (starts: seq<int>)
    requires AscendingEnds(ends) && forall k :: 0 <= k < |ends| ==> ends[k] % CELL_SAMPLES == 0
    ensures |starts| == |ends| && forall k :: 0 <= k < |ends| ==> starts[k] == ends[k] - CELL_SAMPLES && starts[k] % CELL_SAMPLES == 0
    ensures forall j, k :: 0 <= j < k < |starts| ==> starts[j] < starts[k]
  {
    seq(|ends|, k requires 0 <= k < |ends| => ends[k] - CELL_SAMPLES)
  }

  lemma CountedStarts(c: Setup, s: Reducer) returns (starts: seq<int>)
    requires EndsHold(c, s) && AnswerHolds(c, s)
    ensures Counted(c, s, starts)
  {
    if s.commandEnds == [] {
      return [];
    }
    var first := s.commandEnds[0] - CELL_SAMPLES;
    HeldCellsFit(c, s.answerRun.value, first);
    var held, commands := HeldStarts(first, s.heldCells), CommandStarts(s.commandEnds);
    assert forall k :: 0 <= k < |commands| ==> first <= commands[k] by {
      forall k | 0 <= k < |commands| ensures first <= commands[k] { assert k > 0 ==> commands[0] < commands[k]; }
    }
    Joined(held, commands, first, c.TriggerCell());
    starts := held + commands;
  }

  lemma Joined(held: seq<int>, commands: seq<int>, first: int, low: int)
    requires forall k :: 0 <= k < |held| ==> low <= held[k] < first && held[k] % CELL_SAMPLES == 0
    requires forall k :: 0 <= k < |commands| ==> first <= commands[k] && commands[k] % CELL_SAMPLES == 0
    requires forall j, k :: 0 <= j < k < |held| ==> held[j] < held[k]
    requires forall j, k :: 0 <= j < k < |commands| ==> commands[j] < commands[k]
    requires low <= first
    ensures var all := held + commands;
      && (forall i, j :: 0 <= i < j < |all| ==> all[i] < all[j])
      && (forall i :: 0 <= i < |all| ==> all[i] >= low && all[i] % CELL_SAMPLES == 0)
  {
  }
}

module Endpoints {
  import opened Basics
  import A = AttributionSpec
  import opened EndpointSpec

  /** The reducer of one utterance. */
  class EndpointReducer {
    const setup: Setup
    var phase: Phase
    var pending: Option<Pending>
    var cells: seq<A.Classified>
    var commandEnds: seq<int>
    var commandStart: Option<int>
    var answerRun: Option<int>
    var heldCells: int
    var frontier: int
    var commit: Option<Commit>
    var close: Option<CloseReason>

    function View(): Reducer
      reads this
    {
      Reducer(phase, pending, cells, commandEnds, commandStart, answerRun, heldCells, frontier, commit, close)
    }

    /** The setup of one utterance; a given `noInputAt` replaces the computed one. */
    constructor (utteranceStart: int, trigger: int, completeness: string -> Grammar, extended: bool, esphomeReply: bool,
        reply: bool, noInputAt: Option<int>)
      requires utteranceStart <= trigger
      ensures setup == Setup(utteranceStart, trigger, completeness, extended, esphomeReply, reply,
        if noInputAt.Some? then noInputAt.value else trigger + if reply then NO_INPUT_REPLY else NO_INPUT)
      ensures View() == EndpointSpec.Initial(setup)
    {
      setup := Setup(utteranceStart, trigger, completeness, extended, esphomeReply, reply,
        if noInputAt.Some? then noInputAt.value else trigger + if reply then NO_INPUT_REPLY else NO_INPUT);
      phase, pending, cells, commandEnds, commandStart := Listening, None, [], [], None;
      answerRun, heldCells, frontier, commit, close := None, 0, utteranceStart, None, None;
    }

    /** Takes the cells in, refusing any that does not follow the newest one. */
    method Observe(newCells: seq<A.Classified>) returns (fault: Option<Fault>)
      modifies this
      ensures View() == EndpointSpec.Observe(setup, old(View()), newCells)
      ensures fault.None? ==> cells == old(cells) + newCells
    {
      for n := 0 to |newCells|
        invariant EndpointSpec.Observe(setup, View(), newCells[n..]) == EndpointSpec.Observe(setup, old(View()), newCells)
        invariant cells == old(cells) + newCells[..n]
      {
        var cell := newCells[n];
        assert newCells[n..][0] == cell && newCells[n..][1..] == newCells[n + 1..];
        if cells != [] && cell.start <= cells[|cells| - 1].start {
          return Some(CellOrder);
        }
        TakeCell(cell);
        assert newCells[..n + 1] == newCells[..n] + [cell];
      }
      fault := None;
    }

    method TakeCell(cell: A.Classified)
      requires cells == [] || cells[|cells| - 1].start < cell.start
      modifies this
      ensures ObserveCell(setup, old(View()), cell) == Ok(View())
    {
      if cell.command && answerRun.None? && cell.runStart.Some? {
        answerRun := cell.runStart;
        var heldFrom := if setup.TriggerCell() < cell.runStart.value then cell.runStart.value else setup.TriggerCell();
        var held := cell.start - heldFrom;
        heldCells := (if held <= 0 then 0 else held) / CELL_SAMPLES;
      }
      cells := cells + [cell];
      if cell.command {
        commandEnds := commandEnds + [cell.End()];
        if commandStart.None? && cell.start >= setup.trigger {
          commandStart := Some(cell.start);
        }
      }
    }

    method CloseOnce(reason: CloseReason) returns (r: Result<Verdict, Fault>)
      modifies this`close, this`phase
      ensures (View(), r) == EndpointSpec.CloseOnce(old(View()), reason)
    {
      close := Some(reason);
      phase := Closed;
      r := Ok(Closes(reason));
    }

    method FinalizeOnce(boundary: int, route: Route, text: string, validAudioEnd: int) returns (r: Result<Verdict, Fault>)
      modifies this`commit, this`pending, this`phase
      ensures (View(), r) == Finalize(setup, old(View()), boundary, route, text, validAudioEnd)
    {
      if commit.Some? {
        return Err(AlreadyCommitted);
      }
      if close.Some? {
        return Err(AlreadyClosed);
      }
      if !(setup.utteranceStart <= boundary <= validAudioEnd) {
        return Err(BoundaryOutside);
      }
      var start := setup.utteranceStart;
      if setup.reply && answerRun.Some? && answerRun.value - REPLY_SPAN_PREROLL > start {
        start := answerRun.value - REPLY_SPAN_PREROLL;
      }
      var m := Commit(start, boundary, Min(boundary + LOOKAHEAD, validAudioEnd), route, text, route.B? || route.Fallback?);
      commit := Some(m);
      pending := None;
      phase := Committed;
      r := Ok(Commits(m));
    }

    /** One step of the specification on this reducer's view. */
    method Step(i: Input) returns (r: Result<Verdict, Fault>)
      modifies this
      ensures (View(), r) == EndpointSpec.Step(setup, old(View()), i)
    {
      if phase.Committed? || phase.Closed? {
        return Err(Terminal);
      }
      if i.frontier < frontier {
        return Err(FrontierBack);
      }
      if i.validAudioEnd > i.frontier {
        return Err(AudioAhead);
      }
      frontier := i.frontier;
      var reason := ClosingReason(setup, View(), i);
      if reason.Some? {
        r := CloseOnce(reason.value);
      } else if pending.Some? {
        r := HoldPending(i);
      } else {
        r := Listen(i);
      }
    }

    method HoldPending(i: Input) returns (r: Result<Verdict, Fault>)
      requires pending.Some?
      modifies this
      ensures (View(), r) == StepPending(setup, old(View()), i, old(pending).value)
    {
      var p := pending.value;
      var resumed := 0;
      for k := 0 to |commandEnds|
        invariant resumed == CountAfter(commandEnds[..k], p.since)
      {
        assert commandEnds[..k + 1][..k] == commandEnds[..k];
        if commandEnds[k] > p.since {
          resumed := resumed + 1;
        }
      }
      assert commandEnds[..|commandEnds|] == commandEnds;
      if resumed >= REVOCATION_CELLS {
        pending := None;
        phase := Listening;
        return Ok(Revoked(p));
      }
      if i.frontier - p.since >= LOOKAHEAD {
        r := FinalizeOnce(p.boundary, p.route, p.text, i.validAudioEnd);
      } else {
        r := Ok(Waiting(p));
      }
    }

    method Listen(i: Input) returns (r: Result<Verdict, Fault>)
      modifies this
      ensures (View(), r) == StepListening(setup, old(View()), i)
    {
      var found := Found(setup, View(), i.frontier, i.stable);
      if found.Some? {
        pending := found;
        phase := EndPending;
        return Ok(Waiting(found.value));
      }
      var progress := i.stable.progressSample;
      if commandStart.Some? && commandStart.value > progress {
        progress := commandStart.value;
      }
      if commandEnds != [] && i.frontier - progress >= NO_PROGRESS {
        var boundary := if i.stable.prefixSample.Some? then BoundaryAt(commandEnds, i.stable.prefixSample.value) else None;
        if i.stable.prefix != "" && setup.completeness(i.stable.prefix).Complete? && boundary.Some? {
          r := FinalizeOnce(boundary.value, Fallback, i.stable.prefix, i.validAudioEnd);
        } else {
          r := CloseOnce(Retry);
        }
      } else {
        r := Ok(Nothing);
      }
    }
  }
}

/** Attributor and reducer together: one utterance, from its cells' evidence to its end. */
module Turns {
  import opened Basics
  import A = AttributionSpec
  import opened EndpointSpec

  /** The attributor's classification of cell i. */
  function OutputAt(cfg: A.Config, es: seq<A.Evidence>, i: nat): (out: A.Classified)
    requires A.Cells(es) && i < |es|
    ensures out.start == es[i].0.start
    ensures out.command ==> out.End() > cfg.trigger && out.runStart.Some? && out.runStart.value <= out.start && es[i].0.Speech()
    ensures out.command ==> A.HasOpener(cfg, es[..i + 1], out.runStart.value)
  {
    A.CommandCells(cfg, es, i);
    A.ResultAt(cfg, es, i).value.1
  }

  /** The attributor's classifications of the utterance's cells, in order. */
  function Outputs(cfg: A.Config, es: seq<A.Evidence>): (outs: seq<A.Classified>)
    requires A.Cells(es)
    ensures |outs| == |es| && forall i :: 0 <= i < |es| ==> outs[i] == OutputAt(cfg, es, i)
  {
    seq(|es|, i requires 0 <= i < |es| => OutputAt(cfg, es, i))
  }

  function Concat(ts: seq<Tick>): seq<A.Classified> {
    if ts == [] then [] else Concat(ts[..|ts| - 1]) + ts[|ts| - 1].cells
  }

  /** The reducer is stepped at advancing frontiers, with every cell that ends by then, once. */
  predicate Paced(c: Setup, ts: seq<Tick>) {
    ts == [] || (Paced(c, ts[..|ts| - 1]) && PacedTick(c, ts[|ts| - 1], Reached(ts[..|ts| - 1])))
  }

  predicate PacedTick(c: Setup, t: Tick, before: Option<int>) {
    && t.input.validAudioEnd <= t.input.frontier && c.utteranceStart <= t.input.frontier
    && (before.Some? ==> before.value <= t.input.frontier)
    && (forall j :: 0 <= j < |t.cells| ==> t.cells[j].End() <= t.input.frontier)
    && (before.Some? ==> forall j :: 0 <= j < |t.cells| ==> t.cells[j].End() > before.value)
  }

  /** What the attributor hands over is what the reducer needs of each cell. */
  lemma OutputsAttributed(cfg: A.Config, c: Setup, es: seq<A.Evidence>)
    requires A.Cells(es) && cfg.trigger == c.trigger
    ensures forall i :: 0 <= i < |Outputs(cfg, es)| ==> Attributed(c, Outputs(cfg, es)[i])
    ensures Increasing(Outputs(cfg, es))
  {
    var out := Outputs(cfg, es);
    forall i | 0 <= i < |out|
      ensures Attributed(c, out[i])
    {
      assert out[i] == OutputAt(cfg, es, i);
    }
    forall i, j | 0 <= i < j < |out|
      ensures out[i].start < out[j].start
    {
      assert es[i].0.start == es[0].0.start + CELL_SAMPLES * i && es[j].0.start == es[0].0.start + CELL_SAMPLES * j;
    }
  }

  lemma {:induction false} PacedIsFed(c: Setup, ts: seq<Tick>, all: seq<A.Classified>)
    requires Paced(c, ts) && Concat(ts) == all && Increasing(all)
    requires forall i :: 0 <= i < |all| ==> Attributed(c, all[i])
    ensures Fed(c, ts)
  {
    if ts != [] {
      var front, t := ts[..|ts| - 1], ts[|ts| - 1];
      Parts(c, Concat(front), t.cells);
      PacedIsFed(c, front, Concat(front));
      assert FedTick(c, t, Reached(front));
    }
  }

  lemma {:induction false} Parts(c: Setup, rest: seq<A.Classified>, last: seq<A.Classified>)
    requires Increasing(rest + last) && forall i :: 0 <= i < |rest + last| ==> Attributed(c, (rest + last)[i])
    ensures Increasing(rest) && forall i :: 0 <= i < |rest| ==> Attributed(c, rest[i])
    ensures Increasing(last) && forall i :: 0 <= i < |last| ==> Attributed(c, last[i])
  {
    var all := rest + last;
    assert forall i :: 0 <= i < |rest| ==> all[i] == rest[i];
    forall i, j | 0 <= i < j < |last|
      ensures last[i].start < last[j].start
    {
      assert all[|rest| + i] == last[i] && all[|rest| + j] == last[j];
    }
    forall i | 0 <= i < |last|
      ensures Attributed(c, last[i])
    {
      assert all[|rest| + i] == last[i];
    }
  }

  /** One utterance end to end. When the reducer commits on cells the attributor classified, the
      commit lies in the audio, a pause route has waited, and its boundary is the end of one of the
      utterance's cells: speech that ended after the trigger, in a run some cell opened. */
  lemma CommitEndsCommandSpeech(cfg: A.Config, c: Setup, es: seq<A.Evidence>, ts: seq<Tick>) returns (i: nat)
    requires A.Cells(es) && cfg.trigger == c.trigger && c.utteranceStart <= c.trigger
    requires Paced(c, ts) && Concat(ts) == Outputs(cfg, es) && ts != [] && CommitOf(LastDecision(c, ts)).Some?
    ensures var m := CommitOf(LastDecision(c, ts)).value;
      && WellPlaced(c, Run(c, ts), m, ts[|ts| - 1].input.validAudioEnd) && Waited(c, Run(c, ts), m, ts[|ts| - 1].input.frontier)
      && i < |es| && m.boundary == es[i].0.End() && m.boundary > c.trigger && es[i].0.Speech()
      && OutputAt(cfg, es, i).command && A.HasOpener(cfg, es[..i + 1], OutputAt(cfg, es, i).runStart.value)
  {
    OutputsAttributed(cfg, c, es);
    PacedIsFed(c, ts, Outputs(cfg, es));
    EveryCommit(c, ts);
    EndsAreCommands(c, ts);
    var m := CommitOf(LastDecision(c, ts)).value;
    i := CommandAt(Run(c, ts).cells, m.boundary);
    assert Outputs(cfg, es)[i] == OutputAt(cfg, es, i);
  }

  function CommandEnds(cells: seq<A.Classified>): seq<int> {
    if cells == [] then []
    else CommandEnds(cells[..|cells| - 1]) + if cells[|cells| - 1].command then [cells[|cells| - 1].End()] else []
  }

  lemma {:induction false} CommandAt(cells: seq<A.Classified>, end: int) returns (i: nat)
    requires end in CommandEnds(cells)
    ensures i < |cells| && cells[i].command && cells[i].End() == end
  {
    var n := |cells| - 1;
    if cells[n].command && cells[n].End() == end {
      i := n;
    } else {
      i := CommandAt(cells[..n], end);
    }
  }

  lemma {:induction false} ObserveEnds(c: Setup, s: Reducer, cells: seq<A.Classified>)
    requires s.commandEnds == CommandEnds(s.cells) && Increasing(s.cells + cells)
    ensures Observe(c, s, cells).commandEnds == CommandEnds(s.cells + cells) && Observe(c, s, cells).cells == s.cells + cells
    decreases |cells|
  {
    if cells == [] {
      assert s.cells + cells == s.cells;
    } else {
      var all := s.cells + cells;
      assert all[|s.cells|] == cells[0] && (s.cells != [] ==> all[|s.cells| - 1] == s.cells[|s.cells| - 1]);
      var u := ObserveCell(c, s, cells[0]).value;
      assert u.cells[..|u.cells| - 1] == s.cells;
      assert u.cells + cells[1..] == all;
      ObserveEnds(c, u, cells[1..]);
    }
  }

  /** The reducer's command ends are exactly those of the command cells it was fed, in order. */
  lemma {:induction false} EndsAreCommands(c: Setup, ts: seq<Tick>)
    requires Fed(c, ts) && c.utteranceStart <= c.trigger
    ensures Run(c, ts).cells == Concat(ts) && Run(c, ts).commandEnds == CommandEnds(Concat(ts))
  {
    if ts != [] {
      var front, t := ts[..|ts| - 1], ts[|ts| - 1];
      EndsAreCommands(c, front);
      RunsHold(c, front);
      ObserveTick(c, Reached(front), Run(c, front), t);
      ObserveEnds(c, Run(c, front), t.cells);
      StepFrame(c, Observe(c, Run(c, front), t.cells), t.input);
    }
  }

  /** The first command cell dates the answer's run. */
  predicate FirstCommand(cells: seq<A.Classified>, i: nat, s: Reducer) {
    && i < |cells| && cells[i].command && (forall k :: 0 <= k < i ==> !cells[k].command)
    && s.answerRun.Some? && cells[i].runStart == s.answerRun && s.commandEnds != [] && s.commandEnds[0] == cells[i].End()
  }

  lemma AnswerStep(c: Setup, s: Reducer, cell: A.Classified)
    requires Attributed(c, cell) && (s.cells != [] ==> s.cells[|s.cells| - 1].start < cell.start)
    requires s.commandEnds == [] <==> s.answerRun.None?
    requires s.commandEnds == [] ==> forall k :: 0 <= k < |s.cells| ==> !s.cells[k].command
    requires s.commandEnds != [] ==> exists i: nat :: FirstCommand(s.cells, i, s)
    ensures var u := ObserveCell(c, s, cell).value;
      && (u.commandEnds == [] <==> u.answerRun.None?)
      && (u.commandEnds == [] ==> forall k :: 0 <= k < |u.cells| ==> !u.cells[k].command)
      && (u.commandEnds != [] ==> exists i: nat :: FirstCommand(u.cells, i, u))
  {
    var u := ObserveCell(c, s, cell).value;
    if s.commandEnds != [] {
      var i: nat :| FirstCommand(s.cells, i, s);
      assert u.commandEnds[0] == s.commandEnds[0];
      assert FirstCommand(u.cells, i, u);
    } else if cell.command {
      assert u.cells[|s.cells|] == cell;
      assert FirstCommand(u.cells, |s.cells|, u);
    }
  }

  lemma {:induction false} AnswerOfCells(c: Setup, s: Reducer, cells: seq<A.Classified>)
    requires Increasing(s.cells + cells) && forall j :: 0 <= j < |cells| ==> Attributed(c, cells[j])
    requires s.commandEnds == [] <==> s.answerRun.None?
    requires s.commandEnds == [] ==> forall k :: 0 <= k < |s.cells| ==> !s.cells[k].command
    requires s.commandEnds != [] ==> exists i: nat :: FirstCommand(s.cells, i, s)
    ensures var u := Observe(c, s, cells);
      && (u.commandEnds == [] <==> u.answerRun.None?)
      && (u.commandEnds == [] ==> forall k :: 0 <= k < |u.cells| ==> !u.cells[k].command)
      && (u.commandEnds != [] ==> exists i: nat :: FirstCommand(u.cells, i, u))
    decreases |cells|
  {
    if cells != [] {
      var all := s.cells + cells;
      assert all[|s.cells|] == cells[0] && (s.cells != [] ==> all[|s.cells| - 1] == s.cells[|s.cells| - 1]);
      AnswerStep(c, s, cells[0]);
      assert s.cells + [cells[0]] + cells[1..] == all;
      AnswerOfCells(c, ObserveCell(c, s, cells[0]).value, cells[1..]);
    }
  }

  lemma {:induction false} AnswerOfRun(c: Setup, ts: seq<Tick>)
    requires Fed(c, ts) && c.utteranceStart <= c.trigger
    ensures var u := Run(c, ts);
      && (u.commandEnds == [] <==> u.answerRun.None?)
      && (u.commandEnds == [] ==> forall k :: 0 <= k < |u.cells| ==> !u.cells[k].command)
      && (u.commandEnds != [] ==> exists i: nat :: FirstCommand(u.cells, i, u))
  {
    if ts != [] {
      var front, t := ts[..|ts| - 1], ts[|ts| - 1];
      AnswerOfRun(c, front);
      RunsHold(c, front);
      ObserveTick(c, Reached(front), Run(c, front), t);
      var u := Observe(c, Run(c, front), t.cells);
      AnswerOfCells(c, Run(c, front), t.cells);
      StepFrame(c, u, t.input);
      if u.commandEnds != [] {
        var i: nat :| FirstCommand(u.cells, i, u);
        assert FirstCommand(Run(c, ts).cells, i, Run(c, ts));
      }
    }
  }

  /** In a run that reaches cell i, every grid position from the run's start and the trigger's cell up to
      that cell is a cell of speech. */
  lemma SpeechSince(cfg: A.Config, es: seq<A.Evidence>, i: nat, m: nat, run: int, x: int) returns (k: nat)
    requires A.Cells(es) && i < |es| && A.OpenedBy(cfg, es[..i + 1], m, run)
    requires cfg.TriggerCell() <= x && run <= x <= es[i].0.start && x % CELL_SAMPLES == 0
    ensures k <= i && es[k].0.start == x && es[k].0.Speech()
  {
    assert es[..i + 1][..m] == es[..m] && es[..i + 1][m] == es[m];
    assert forall j :: m <= j <= i ==> es[..i + 1][j] == es[j];
    if es[m].0.End() > cfg.trigger {
      A.RunStartIsSpeech(cfg, es, m);
      var p :| 0 <= p <= m && es[p].0.start == run;
      k := A.CellAt(es, i, p, x);
    } else {
      assert cfg.trigger - CELL_SAMPLES < cfg.TriggerCell();
      k := A.CellAt(es, i, m, x);
    }
  }

  /** Every start that route A's minimum counts is that of a cell of the utterance with speech in it. */
  lemma CountedCellsAreSpeech(cfg: A.Config, c: Setup, es: seq<A.Evidence>, ts: seq<Tick>) returns (starts: seq<int>)
    requires A.Cells(es) && cfg.trigger == c.trigger && c.utteranceStart <= c.trigger
    requires Paced(c, ts) && Concat(ts) == Outputs(cfg, es)
    ensures Counted(c, Run(c, ts), starts)
    ensures forall n :: 0 <= n < |starts| ==> exists p :: 0 <= p < |es| && es[p].0.start == starts[n] && es[p].0.Speech()
  {
    OutputsAttributed(cfg, c, es);
    PacedIsFed(c, ts, Outputs(cfg, es));
    EndsAreCommands(c, ts);
    AnswerOfRun(c, ts);
    starts := MinimumCountsDistinctCells(c, ts);
    forall n | 0 <= n < |starts|
      ensures exists p :: 0 <= p < |es| && es[p].0.start == starts[n] && es[p].0.Speech()
    {
      var p := CountedCell(cfg, c, es, Run(c, ts), starts, n);
    }
  }

  lemma {:induction false} CountedCell(cfg: A.Config, c: Setup, es: seq<A.Evidence>, s: Reducer, starts: seq<int>, n: nat) returns (p: nat)
    requires A.Cells(es) && cfg.trigger == c.trigger && Counted(c, s, starts) && n < |starts|
    requires s.cells == Outputs(cfg, es) && s.commandEnds == CommandEnds(s.cells)
    requires s.commandEnds != [] ==> exists i: nat :: FirstCommand(s.cells, i, s)
    ensures p < |es| && es[p].0.start == starts[n] && es[p].0.Speech()
  {
    if n < s.heldCells {
      var i: nat :| FirstCommand(s.cells, i, s);
      p := HeldCell(cfg, c, es, i, s.answerRun.value, starts[n]);
    } else {
      assert starts[n] == starts[s.heldCells + (n - s.heldCells)] == s.commandEnds[n - s.heldCells] - CELL_SAMPLES;
      p := CommandCell(cfg, es, s.commandEnds[n - s.heldCells]);
    }
  }

  lemma {:induction false} CommandCell(cfg: A.Config, es: seq<A.Evidence>, end: int) returns (p: nat)
    requires A.Cells(es) && end in CommandEnds(Outputs(cfg, es))
    ensures p < |es| && es[p].0.start == end - CELL_SAMPLES && es[p].0.Speech()
  {
    p := CommandAt(Outputs(cfg, es), end);
    assert Outputs(cfg, es)[p] == OutputAt(cfg, es, p);
  }

  lemma {:induction false} HeldCell(cfg: A.Config, c: Setup, es: seq<A.Evidence>, i: nat, run: int, x: int) returns (p: nat)
    requires A.Cells(es) && cfg.trigger == c.trigger && i < |es|
    requires OutputAt(cfg, es, i).command && OutputAt(cfg, es, i).runStart == Some(run)
    requires HeldFrom(c, run) <= x < es[i].0.start && x % CELL_SAMPLES == 0
    ensures p < |es| && es[p].0.start == x && es[p].0.Speech()
  {
    var m: nat :| A.OpenedBy(cfg, es[..i + 1], m, run);
    p := SpeechSince(cfg, es, i, m, run, x);
  }
}
