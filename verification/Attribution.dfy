/** Per-cell attribution of one utterance (controller/em_attribution.py, `Attributor`). Levels and
    probabilities are reals; the percentile of the foreground levels is a parameter. */
module AttributionSpec {
  import opened Basics

  const SPEECH_POSITIVE_VAD := 0.50
  const NON_SPEECH_MAX_VAD := 0.35
  const SEED_VAD := 0.35
  const RUN_OPEN_VAD := 0.70
  const RUN_OPEN_R := 0.55
  const BACKGROUND_MARGIN_DB := 10.0
  const R_MIN_SPAN_DB := 12.0
  const FOREGROUND_MIN_CELLS := 10
  const REPLY_OVERLAP := 7_680

  datatype Class = Gap | SelfOutput | NonSpeech | BackgroundSpeech | CommandSpeech | Unknown

  datatype Rule = GapRule | MuteRule | EchoRule | VadRule | LevelRule | HysteresisRule | UnderWayRule | GuardRule

  datatype Echo = EchoOnly | NearEndPresent | NoReference | UnknownEcho

  datatype Cell = Cell(start: int, level: Option<real>, vad: Option<real>, echo: Option<Echo>, gap: bool, muted: bool) {
    function End(): int { start + CELL_SAMPLES }

    function ValidLevel(): Option<real> { if gap || muted then None else level }

    predicate SpeechPositive() { ValidLevel().Some? && vad.Some? && vad.value >= SPEECH_POSITIVE_VAD }

    /** Speech for a run's dating: no gap, no self-output, and above the non-speech probability. */
    predicate Speech() {
      ValidLevel().Some? && echo != Some(EchoOnly) && vad.Some? && vad.value > NON_SPEECH_MAX_VAD
    }
  }

  datatype Classified = Classified(
    start: int, cls: Class, rule: Rule, speechPositive: bool, command: bool, runStart: Option<int>) {
    function End(): int { start + CELL_SAMPLES }
  }

  datatype Config = Config(
    trigger: int, seedStart: Option<int>, reply: bool, guardUntil: Option<int>, percentile: seq<real> -> real) {
    /** The start of the cell holding the trigger. */
    function TriggerCell(): int { trigger - trigger % CELL_SAMPLES }
  }

  datatype State = State(
    seed: Option<seq<real>>, foreground: seq<real>, f: Option<real>,
    inRun: bool, runStart: int, speechStart: Option<int>, next: Option<int>)

  function Initial(c: Config): State {
    State(if c.seedStart.Some? then Some([]) else None, [], None, false, 0, None, None)
  }

  function AddForeground(c: Config, st: State, level: real): State {
    var levels := st.foreground + [level];
    st.(foreground := levels, f := if |levels| >= FOREGROUND_MIN_CELLS then Some(c.percentile(levels)) else st.f)
  }

  function AddAll(c: Config, st: State, levels: seq<real>): State {
    if levels == [] then st
    else AddForeground(c, AddAll(c, st, levels[..|levels| - 1]), levels[|levels| - 1])
  }

  function CloseSeed(c: Config, st: State): State {
    match st.seed
    case None => st
    case Some(levels) =>
      var u := st.(seed := None);
      if |levels| >= FOREGROUND_MIN_CELLS then AddAll(c, u, levels) else u
  }

  predicate UnderWay(c: Config, st: State) { c.reply && st.runStart < c.trigger - REPLY_OVERLAP }

  predicate Guarded(c: Config, cell: Cell) {
    c.guardUntil.Some? && cell.End() > c.trigger && cell.start < c.guardUntil.value
  }

  /** The start a newly opened run is given: the cell's own, unless the guard held its speech back. */
  function OpenedRunStart(c: Config, st: State, cell: Cell): int {
    if c.guardUntil.None? || st.speechStart.None? || st.speechStart.value >= c.guardUntil.value then cell.start
    else if st.speechStart.value < c.TriggerCell() then c.TriggerCell()
    else st.speechStart.value
  }

  function Max(a: real, b: real): real { if a < b then b else a }

  function Ratio(level: real, background: Option<real>, f: Option<real>): Option<real> {
    if background.None? || f.None? then None
    else Some((level - background.value) / Max(f.value - background.value, R_MIN_SPAN_DB))
  }

  datatype Decision = Decision(cls: Class, rule: Rule, inRun: bool, runStart: int)

  function DecideCell(c: Config, st: State, cell: Cell, background: Option<real>): Decision {
    var level := cell.ValidLevel();
    if level.None? then Decision(Gap, if cell.muted then MuteRule else GapRule, false, st.runStart)
    else if cell.echo == Some(EchoOnly) then Decision(SelfOutput, EchoRule, false, st.runStart)
    else if cell.vad.None? then Decision(Unknown, VadRule, false, st.runStart)
    else if cell.vad.value <= NON_SPEECH_MAX_VAD then Decision(NonSpeech, VadRule, false, st.runStart)
    else if cell.vad.value >= SPEECH_POSITIVE_VAD && st.f.Some? && level.value <= st.f.value - BACKGROUND_MARGIN_DB then
      Decision(BackgroundSpeech, LevelRule, false, st.runStart)
    else if st.inRun then
      if UnderWay(c, st) && cell.End() > c.trigger then Decision(BackgroundSpeech, UnderWayRule, true, st.runStart)
      else Decision(CommandSpeech, HysteresisRule, true, st.runStart)
    else if cell.vad.value >= RUN_OPEN_VAD then
      var r := Ratio(level.value, background, st.f);
      if r.Some? && r.value < RUN_OPEN_R then Decision(Unknown, LevelRule, false, st.runStart)
      else if Guarded(c, cell) then Decision(Unknown, GuardRule, false, st.runStart)
      else Decision(CommandSpeech, if r.None? then VadRule else LevelRule, true, OpenedRunStart(c, st, cell))
    else Decision(Unknown, VadRule, false, st.runStart)
  }

  function SpeechStartAfter(st: State, cls: Class, cell: Cell): Option<int> {
    if cls.Gap? || cls.SelfOutput? || cls.NonSpeech? || cell.vad.None? then None
    else if st.speechStart.None? then Some(cell.start)
    else st.speechStart
  }

  predicate Seeds(c: Config, st: State, cell: Cell) {
    && st.seed.Some? && c.seedStart.Some? && cell.ValidLevel().Some? && cell.start >= c.seedStart.value
    && cell.End() <= c.trigger && cell.vad.Some? && cell.vad.value >= SEED_VAD
  }

  /** A command cell's level joins the foreground, a wake cell's the seed. */
  function Learn(c: Config, st: State, cell: Cell, command: bool): (u: State)
    ensures u.inRun == st.inRun && u.runStart == st.runStart && u.speechStart == st.speechStart && u.next == st.next
  {
    var s := if command && cell.ValidLevel().Some? then AddForeground(c, st, cell.ValidLevel().value) else st;
    if Seeds(c, s, cell) then s.(seed := Some(s.seed.value + [cell.ValidLevel().value])) else s
  }

  datatype OrderError = NotContiguous

  function Classify(c: Config, st: State, cell: Cell, background: Option<real>): Result<(State, Classified), OrderError> {
    if st.next.Some? && cell.start != st.next.value then Err(NotContiguous)
    else
      var s0 := if cell.End() > c.trigger then CloseSeed(c, st) else st;
      Ok(Apply(c, s0, cell, DecideCell(c, s0, cell, background)))
  }

  function Apply(c: Config, s0: State, cell: Cell, d: Decision): (State, Classified) {
    var command := d.cls.CommandSpeech? && cell.End() > c.trigger;
    var s1 := s0.(inRun := d.inRun, runStart := d.runStart, speechStart := SpeechStartAfter(s0, d.cls, cell), next := Some(cell.End()));
    (Learn(c, s1, cell, command), Classified(cell.start, d.cls, d.rule, cell.SpeechPositive(), command,
      if d.cls.CommandSpeech? then Some(d.runStart) else None))
  }

  // ---- whole utterances ----

  type Evidence = (Cell, Option<real>)

  /** The utterance's cells: aligned, contiguous, in order. */
  predicate Cells(es: seq<Evidence>) {
    && (forall i :: 0 <= i < |es| ==> es[i].0.start % CELL_SAMPLES == 0)
    && (forall i :: 0 <= i < |es| ==> es[i].0.start == es[0].0.start + CELL_SAMPLES * i)
  }

  /** The state after the cells; the last one's classification. */
  function Run(c: Config, es: seq<Evidence>): State {
    if es == [] then Initial(c)
    else
      var st := Run(c, es[..|es| - 1]);
      match Classify(c, st, es[|es| - 1].0, es[|es| - 1].1)
      case Ok((u, _)) => u
      case Err(_) => st
  }

  /** Cell i's decision, from the state after the cells before it. */
  function DecisionAt(c: Config, es: seq<Evidence>, i: nat): Decision
    requires i < |es|
  {
    var st := Run(c, es[..i]);
    DecideCell(c, if es[i].0.End() > c.trigger then CloseSeed(c, st) else st, es[i].0, es[i].1)
  }

  /** Cell i opens a run. */
  predicate Opens(c: Config, es: seq<Evidence>, i: nat)
    requires i < |es|
  {
    DecisionAt(c, es, i).cls.CommandSpeech? && !Run(c, es[..i]).inRun
  }

  function ResultAt(c: Config, es: seq<Evidence>, i: nat): Result<(State, Classified), OrderError>
    requires i < |es|
  {
    Classify(c, Run(c, es[..i]), es[i].0, es[i].1)
  }

  lemma {:induction false} AddAllKeeps(c: Config, st: State, levels: seq<real>)
    ensures var u := AddAll(c, st, levels);
      u.inRun == st.inRun && u.runStart == st.runStart && u.speechStart == st.speechStart && u.next == st.next && u.seed == st.seed
  {
    if levels != [] {
      AddAllKeeps(c, st, levels[..|levels| - 1]);
    }
  }

  /** Closing the seed changes the foreground only. */
  lemma CloseSeedKeeps(c: Config, st: State)
    ensures var u := CloseSeed(c, st);
      u.inRun == st.inRun && u.runStart == st.runStart && u.speechStart == st.speechStart && u.next == st.next
  {
    if st.seed.Some? {
      AddAllKeeps(c, st.(seed := None), st.seed.value);
    }
  }

  /** One unbroken stretch of speech from `from`, which is a cell's start, to the end of the cells. */
  ghost predicate Streak(es: seq<Evidence>, start: int) {
    && (exists i :: 0 <= i < |es| && es[i].0.start == start)
    && (forall i :: 0 <= i < |es| && es[i].0.start >= start ==> es[i].0.Speech())
  }

  /** What the state says about the cells so far. */
  ghost predicate Tracks(c: Config, es: seq<Evidence>, st: State) {
    && st.next == (if es == [] then None else Some(es[|es| - 1].0.End()))
    && (st.speechStart.Some? ==> Streak(es, st.speechStart.value))
    && (st.inRun ==> es != [] && (st.runStart <= es[|es| - 1].0.start || st.runStart == c.TriggerCell()))
  }

  lemma StepTracks(c: Config, es: seq<Evidence>, st: State, e: Evidence)
    requires Tracks(c, es, st) && Cells(es + [e])
    ensures Classify(c, st, e.0, e.1).Ok? && Tracks(c, es + [e], Classify(c, st, e.0, e.1).value.0)
  {
    CloseSeedKeeps(c, st);
    var all, u := es + [e], Classify(c, st, e.0, e.1);
    assert all[|es|] == e;
    if es != [] {
      assert all[|es| - 1] == es[|es| - 1];
      assert all[|es|].0.start == all[0].0.start + CELL_SAMPLES * |es|;
      assert all[|es| - 1].0.start == all[0].0.start + CELL_SAMPLES * (|es| - 1);
    }
    if u.value.0.speechStart.Some? {
      StreakGrows(c, es, st, e);
    }
  }

  lemma StreakGrows(c: Config, es: seq<Evidence>, st: State, e: Evidence)
    requires Tracks(c, es, st) && Cells(es + [e]) && Classify(c, st, e.0, e.1).Ok?
    requires Classify(c, st, e.0, e.1).value.0.speechStart.Some?
    ensures Streak(es + [e], Classify(c, st, e.0, e.1).value.0.speechStart.value)
  {
    CloseSeedKeeps(c, st);
    var all, s := es + [e], Classify(c, st, e.0, e.1).value.0.speechStart.value;
    assert e.0.Speech();
    if st.speechStart.Some? {
      var i :| 0 <= i < |es| && es[i].0.start == s;
      assert all[i] == es[i];
    } else {
      assert all[|es|] == e;
      assert forall i :: 0 <= i < |es| ==> all[i].0.start < e.0.start by {
        forall i | 0 <= i < |es| ensures all[i].0.start < e.0.start {
          assert all[i].0.start == all[0].0.start + CELL_SAMPLES * i && all[|es|].0.start == all[0].0.start + CELL_SAMPLES * |es|;
        }
      }
    }
  }

  lemma {:induction false} RunTracks(c: Config, es: seq<Evidence>)
    requires Cells(es)
    ensures Tracks(c, es, Run(c, es))
  {
    if es != [] {
      var front := es[..|es| - 1];
      assert es == front + [es[|es| - 1]];
      RunTracks(c, front);
      StepTracks(c, front, Run(c, front), es[|es| - 1]);
    }
  }

  lemma Prefix(es: seq<Evidence>, i: nat)
    requires Cells(es) && i <= |es|
    ensures Cells(es[..i])
  {
  }

  /** Cells are spaced one cell apart, so every aligned position between two of them is a cell. */
  lemma CellAt(es: seq<Evidence>, i: nat, p: nat, x: int) returns (k: nat)
    requires Cells(es) && p <= i < |es| && x % CELL_SAMPLES == 0 && es[p].0.start <= x <= es[i].0.start
    ensures p <= k <= i && es[k].0.start == x
  {
    var first := es[0].0.start;
    assert es[p].0.start == first + CELL_SAMPLES * p && es[i].0.start == first + CELL_SAMPLES * i;
    assert (x - first) % CELL_SAMPLES == 0;
    k := (x - first) / CELL_SAMPLES;
    assert es[k].0.start == first + CELL_SAMPLES * k;
  }

  /** Where a run that opens on a cell ending after the trigger starts: no earlier than the trigger's
      cell, no later than the opening cell, at a cell of the utterance, with speech (no gap, no
      self-output, probability above 0.35) in every cell from there on. Such a run never opens
      inside the guard. */
  lemma RunStartIsSpeech(c: Config, es: seq<Evidence>, i: nat)
    requires Cells(es) && i < |es| && Opens(c, es, i) && es[i].0.End() > c.trigger
    ensures !Guarded(c, es[i].0)
    ensures var r := DecisionAt(c, es, i).runStart;
      && c.TriggerCell() <= r <= es[i].0.start
      && (exists p :: 0 <= p <= i && es[p].0.start == r)
      && (forall p :: 0 <= p < i && es[p].0.start >= r ==> es[p].0.Speech())
  {
    var st := Run(c, es[..i]);
    Prefix(es, i);
    RunTracks(c, es[..i]);
    CloseSeedKeeps(c, st);
    var r := DecisionAt(c, es, i).runStart;
    assert (c.trigger - c.trigger % CELL_SAMPLES) % CELL_SAMPLES == 0;
    if r == es[i].0.start {
      assert forall p :: 0 <= p < i ==> es[p].0.start < r by {
        forall p | 0 <= p < i ensures es[p].0.start < r {
          assert es[p].0.start == es[0].0.start + CELL_SAMPLES * p && es[i].0.start == es[0].0.start + CELL_SAMPLES * i;
        }
      }
    } else {
      var s := st.speechStart.value;
      assert Streak(es[..i], s);
      var p :| 0 <= p < i && es[..i][p].0.start == s;
      assert es[p].0.start == s && es[i].0.start == es[0].0.start + CELL_SAMPLES * i && es[p].0.start == es[0].0.start + CELL_SAMPLES * p;
      var k := CellAt(es, i, p, r);
      forall q | 0 <= q < i && es[q].0.start >= r
        ensures es[q].0.Speech()
      {
        assert es[..i][q] == es[q];
      }
    }
  }

  /** The run a state is in was opened by some cell, dated as that cell's decision said, and every
      cell since belongs to it. */
  ghost predicate OpenedBy(c: Config, es: seq<Evidence>, m: nat, runStart: int) {
    && m < |es| && Opens(c, es, m) && DecisionAt(c, es, m).runStart == runStart
    && forall k :: m <= k < |es| ==> es[k].0.Speech()
  }

  ghost predicate HasOpener(c: Config, es: seq<Evidence>, runStart: int) {
    exists m: nat :: OpenedBy(c, es, m, runStart)
  }

  lemma OpenerStays(c: Config, es: seq<Evidence>, e: Evidence, runStart: int)
    requires HasOpener(c, es, runStart) && e.0.Speech()
    ensures HasOpener(c, es + [e], runStart)
  {
    var m: nat :| OpenedBy(c, es, m, runStart);
    var all := es + [e];
    assert all[..m] == es[..m] && all[m] == es[m];
    assert OpenedBy(c, all, m, runStart);
  }

  lemma {:induction false} RunHasOpener(c: Config, es: seq<Evidence>)
    requires Cells(es)
    ensures Run(c, es).inRun ==> HasOpener(c, es, Run(c, es).runStart)
  {
    if es != [] {
      var n := |es| - 1;
      Prefix(es, n);
      RunHasOpener(c, es[..n]);
      RunTracks(c, es[..n]);
      assert es == es[..n] + [es[n]];
      OpenerStep(c, es[..n], es[n]);
    }
  }

  lemma OpenerStep(c: Config, front: seq<Evidence>, e: Evidence)
    requires Cells(front + [e]) && Tracks(c, front, Run(c, front))
    requires Run(c, front).inRun ==> HasOpener(c, front, Run(c, front).runStart)
    ensures Run(c, front + [e]).inRun ==> HasOpener(c, front + [e], Run(c, front + [e]).runStart)
  {
    var es, st := front + [e], Run(c, front);
    assert es[..|front|] == front && es[|front|] == e;
    StepTracks(c, front, st, e);
    CloseSeedKeeps(c, st);
    if Run(c, es).inRun {
      if st.inRun {
        OpenerStays(c, front, e, st.runStart);
      } else {
        assert OpenedBy(c, es, |front|, Run(c, es).runStart);
      }
    }
  }

  /** Command speech proper: a command_speech cell ending after the trigger carries its run's start,
      which is not after the cell; for a reply the run is not one already under way, so it starts at
      most the overlap before the trigger; and the run was opened by a cell with speech ever since. */
  lemma CommandCells(c: Config, es: seq<Evidence>, i: nat)
    requires Cells(es) && i < |es|
    ensures ResultAt(c, es, i).Ok?
    ensures var out := ResultAt(c, es, i).value.1;
      && out.start == es[i].0.start
      && (out.command ==>
        && out.cls.CommandSpeech? && out.End() > c.trigger && es[i].0.Speech()
        && out.runStart.Some? && out.runStart.value <= out.start
        && (c.reply ==> out.runStart.value >= c.trigger - REPLY_OVERLAP)
        && HasOpener(c, es[..i + 1], out.runStart.value))
  {
    var st := Run(c, es[..i]);
    Prefix(es, i);
    Prefix(es, i + 1);
    RunTracks(c, es[..i]);
    assert es[..i + 1] == es[..i] + [es[i]];
    assert es[..i + 1][..i] == es[..i];
    StepTracks(c, es[..i], st, es[i]);
    CloseSeedKeeps(c, st);
    RunHasOpener(c, es[..i + 1]);
    var out := ResultAt(c, es, i).value.1;
    if out.command {
      StartNotAfter(c, es, i);
      assert Run(c, es[..i + 1]).runStart == out.runStart.value;
    }
  }

  lemma StartNotAfter(c: Config, es: seq<Evidence>, i: nat)
    requires Cells(es) && i < |es| && es[i].0.End() > c.trigger && DecisionAt(c, es, i).cls.CommandSpeech?
    ensures DecisionAt(c, es, i).runStart <= es[i].0.start
    ensures c.reply ==> DecisionAt(c, es, i).runStart >= c.trigger - REPLY_OVERLAP
  {
    var st := Run(c, es[..i]);
    Prefix(es, i);
    RunTracks(c, es[..i]);
    CloseSeedKeeps(c, st);
    assert c.TriggerCell() % CELL_SAMPLES == 0 && es[i].0.start % CELL_SAMPLES == 0;
    if !st.inRun {
      RunStartIsSpeech(c, es, i);
    } else {
      assert es[i - 1].0.start == es[0].0.start + CELL_SAMPLES * (i - 1) && es[i].0.start == es[0].0.start + CELL_SAMPLES * i;
    }
  }
}

/** The run-length decision trace. */
module Traces {
  import opened Basics
  import opened AttributionSpec

  datatype Segment = Segment(cls: Class, rule: Rule, start: int, end: int)

  /** One cell's label, as the trace records it. */
  datatype Label = Label(start: int, cls: Class, rule: Rule)

  predicate Whole(s: Segment) { s.start < s.end && (s.end - s.start) % CELL_SAMPLES == 0 }

  function SegmentLabels(s: Segment): seq<Label>
    requires Whole(s)
    decreases s.end - s.start
  {
    if s.end - s.start == CELL_SAMPLES then [Label(s.start, s.cls, s.rule)]
    else SegmentLabels(s.(end := s.end - CELL_SAMPLES)) + [Label(s.end - CELL_SAMPLES, s.cls, s.rule)]
  }

  /** The cells a trace stands for. */
  function Labels(trace: seq<Segment>): seq<Label>
    requires forall i :: 0 <= i < |trace| ==> Whole(trace[i])
  {
    if trace == [] then [] else Labels(trace[..|trace| - 1]) + SegmentLabels(trace[|trace| - 1])
  }

  /** One more cell: the last segment grows when it touches and agrees, else a new one starts. */
  function Extend(trace: seq<Segment>, mark: Label): seq<Segment> {
    var last := |trace| - 1;
    if trace != [] && trace[last].cls == mark.cls && trace[last].rule == mark.rule && trace[last].end == mark.start
    then trace[last := trace[last].(end := mark.start + CELL_SAMPLES)]
    else trace + [Segment(mark.cls, mark.rule, mark.start, mark.start + CELL_SAMPLES)]
  }

  /** The run-length trace is the list of labels, cell by cell. */
  lemma ExtendAddsOne(trace: seq<Segment>, mark: Label)
    requires forall i :: 0 <= i < |trace| ==> Whole(trace[i])
    ensures var t := Extend(trace, mark);
      (forall i :: 0 <= i < |t| ==> Whole(t[i])) && Labels(t) == Labels(trace) + [mark]
  {
    var t, one := Extend(trace, mark), Segment(mark.cls, mark.rule, mark.start, mark.start + CELL_SAMPLES);
    if |t| == |trace| {
      assert t[..|t| - 1] == trace[..|t| - 1];
    } else {
      assert t[..|t| - 1] == trace && SegmentLabels(one) == [mark];
    }
  }
}

module Attributors {
  import opened Basics
  import opened AttributionSpec
  import opened Traces

  /** The attributor in place; `labels` is the plain list its run-length trace stands for. */
  class Attributor {
    const config: Config
    var seed: Option<seq<real>>
    var foreground: seq<real>
    var f: Option<real>
    var inRun: bool
    var runStart: int
    var speechStart: Option<int>
    var next: Option<int>
    var trace: seq<Segment>
    ghost var labels: seq<Label>

    function View(): State
      reads this
    {
      State(seed, foreground, f, inRun, runStart, speechStart, next)
    }

    ghost predicate Valid()
      reads this
    {
      (forall i :: 0 <= i < |trace| ==> Whole(trace[i])) && Labels(trace) == labels
    }

    constructor (config: Config)
      ensures Valid() && this.config == config && View() == Run(config, []) && labels == []
    {
      this.config := config;
      seed := if config.seedStart.Some? then Some([]) else None;
      foreground, f, inRun, runStart, speechStart, next := [], None, false, 0, None, None;
      trace, labels := [], [];
    }

    /** The open run's start, if a run of command speech is open now. */
    function AnswerStart(): Option<int>
      reads this
    {
      if inRun && !UnderWay(config, View()) then Some(runStart) else None
    }

    method Note(level: real)
      modifies this`foreground, this`f
      ensures View() == AddForeground(config, old(View()), level)
    {
      foreground := foreground + [level];
      if |foreground| >= FOREGROUND_MIN_CELLS {
        f := Some(config.percentile(foreground));
      }
    }

    method DropSeed()
      modifies this`foreground, this`f, this`seed
      ensures View() == CloseSeed(config, old(View()))
    {
      var levels := seed;
      seed := None;
      ghost var u := View();
      if levels.Some? && |levels.value| >= FOREGROUND_MIN_CELLS {
        for i := 0 to |levels.value|
          invariant View() == AddAll(config, u, levels.value[..i])
        {
          assert levels.value[..i + 1][..i] == levels.value[..i];
          Note(levels.value[i]);
        }
        assert levels.value[..|levels.value|] == levels.value;
      }
    }

    /** The cell's class and rule; opens, continues or closes the run. */
    method Decide(cell: Cell, background: Option<real>) returns (ghost d: Decision, cls: Class, rule: Rule)
      modifies this`inRun, this`runStart
      ensures d == DecideCell(config, old(View()), cell, background)
      ensures cls == d.cls && rule == d.rule && inRun == d.inRun && runStart == d.runStart
    {
      d := DecideCell(config, View(), cell, background);
      var level := cell.ValidLevel();
      if level.None? {
        inRun := false;
        return d, Gap, if cell.muted then MuteRule else GapRule;
      }
      if cell.echo == Some(EchoOnly) {
        inRun := false;
        return d, SelfOutput, EchoRule;
      }
      if cell.vad.None? {
        inRun := false;
        return d, Unknown, VadRule;
      }
      var vad := cell.vad.value;
      if vad <= NON_SPEECH_MAX_VAD {
        inRun := false;
        return d, NonSpeech, VadRule;
      }
      if vad >= SPEECH_POSITIVE_VAD && f.Some? && level.value <= f.value - BACKGROUND_MARGIN_DB {
        inRun := false;
        return d, BackgroundSpeech, LevelRule;
      }
      if inRun {
        if UnderWay(config, View()) && cell.End() > config.trigger {
          return d, BackgroundSpeech, UnderWayRule;
        }
        return d, CommandSpeech, HysteresisRule;
      }
      if vad >= RUN_OPEN_VAD {
        var r := Ratio(level.value, background, f);
        if r.Some? && r.value < RUN_OPEN_R {
          return d, Unknown, LevelRule;
        }
        if Guarded(config, cell) {
          return d, Unknown, GuardRule;
        }
        inRun, runStart := true, OpenedRunStart(config, View(), cell);
        return d, CommandSpeech, if r.None? then VadRule else LevelRule;
      }
      return d, Unknown, VadRule;
    }

    /** Classify the next cell; the trace gains exactly its label. */
    method Classify(cell: Cell, background: Option<real>) returns (r: Result<Classified, OrderError>)
      requires Valid()
      modifies this
      ensures Valid()
      ensures match AttributionSpec.Classify(config, old(View()), cell, background)
        case Err(e) => r == Err(e) && View() == old(View()) && labels == old(labels)
        case Ok((u, out)) => r == Ok(out) && View() == u && labels == old(labels) + [Label(cell.start, out.cls, out.rule)]
    {
      if next.Some? && cell.start != next.value {
        return Err(NotContiguous);
      }
      var out := Take(cell, background);
      r := Ok(out);
    }

    /** A cell in its place: closed seed, decision, bookkeeping and trace. */
    method Take(cell: Cell, background: Option<real>) returns (out: Classified)
      requires Valid()
      modifies this
      ensures Valid() && labels == old(labels) + [Label(cell.start, out.cls, out.rule)]
      ensures var s0 := if cell.End() > config.trigger then CloseSeed(config, old(View())) else old(View());
        (View(), out) == Apply(config, s0, cell, DecideCell(config, s0, cell, background))
    {
      if seed.Some? && cell.End() > config.trigger {
        DropSeed();
      }
      ghost var s0 := View();
      ghost var d;
      var cls, rule;
      d, cls, rule := Decide(cell, background);
      out := Settle(cell, cls, rule, s0, d);
      Record(Label(cell.start, cls, rule));
    }

    /** The rest of a cell's work once it is decided. */
    method Settle(cell: Cell, cls: Class, rule: Rule, ghost s0: State, ghost d: Decision) returns (out: Classified)
      requires View() == s0.(inRun := d.inRun, runStart := d.runStart) && cls == d.cls && rule == d.rule
      modifies this`speechStart, this`next, this`foreground, this`f, this`seed
      ensures (View(), out) == Apply(config, s0, cell, d)
    {
      Place(cell, cls);
      var command := cls.CommandSpeech? && cell.End() > config.trigger;
      TakeLevel(cell, command);
      out := Classified(cell.start, cls, rule, cell.SpeechPositive(), command,
        if cls.CommandSpeech? then Some(runStart) else None);
    }

    /** Where the speech at the cell began, and the next cell's place. */
    method Place(cell: Cell, cls: Class)
      modifies this`speechStart, this`next
      ensures next == Some(cell.End())
      ensures speechStart == SpeechStartAfter(old(View()), cls, cell)
    {
      next := Some(cell.End());
      if cls.Gap? || cls.SelfOutput? || cls.NonSpeech? || cell.vad.None? {
        speechStart := None;
      } else if speechStart.None? {
        speechStart := Some(cell.start);
      }
    }

    method TakeLevel(cell: Cell, command: bool)
      modifies this`foreground, this`f, this`seed
      ensures View() == Learn(config, old(View()), cell, command)
    {
      if command && cell.ValidLevel().Some? {
        Note(cell.ValidLevel().value);
      }
      if Seeds(config, View(), cell) {
        seed := Some(seed.value + [cell.ValidLevel().value]);
      }
    }

    method Record(mark: Label)
      requires Valid()
      modifies this`trace, this`labels
      ensures Valid() && labels == old(labels) + [mark]
    {
      ExtendAddsOne(trace, mark);
      trace := Extend(trace, mark);
      labels := labels + [mark];
    }
  }
}
