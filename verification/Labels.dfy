/** What each cell of an utterance is called, and when a run of command speech must open
    (controller/em_attribution.py, `Attributor`), told of the evidence and of the earlier labels alone. */
module Labelling {
  import opened Basics
  import opened AttributionSpec

  /** The label of cell i. */
  function LabelAt(c: Config, es: seq<Evidence>, i: nat): Classified
    requires i < |es| && ResultAt(c, es, i).Ok?
  {
    ResultAt(c, es, i).value.1
  }

  lemma {:induction false} EveryCellIsLabelled(c: Config, es: seq<Evidence>, i: nat)
    requires Cells(es) && i < |es|
    ensures ResultAt(c, es, i).Ok? && Run(c, es[..i + 1]) == ResultAt(c, es, i).value.0
  {
    Prefix(es, i);
    Prefix(es, i + 1);
    RunTracks(c, es[..i]);
    assert es[..i + 1] == es[..i] + [es[i]] && es[..i + 1][..i] == es[..i];
    StepTracks(c, es[..i], Run(c, es[..i]), es[i]);
  }

  // ---- the foreground ----

  /** A wake cell: it counts for the seed. */
  predicate Wakes(c: Config, cell: Cell) {
    && c.seedStart.Some? && c.seedStart.value <= cell.start && cell.End() <= c.trigger
    && !cell.gap && !cell.muted && cell.level.Some? && cell.vad.Some? && 0.35 <= cell.vad.value
  }

  function WakeLevels(c: Config, es: seq<Evidence>): seq<real> {
    if es == [] then []
    else
      var cell := es[|es| - 1].0;
      if Wakes(c, cell) then WakeLevels(c, es[..|es| - 1]) + [cell.level.value] else WakeLevels(c, es[..|es| - 1])
  }

  /** The levels of the cells so far that were called command speech after the trigger. */
  function CommandLevels(c: Config, es: seq<Evidence>): seq<real> {
    if es == [] then []
    else
      var n, cell := |es| - 1, es[|es| - 1].0;
      if ResultAt(c, es, n).Ok? && LabelAt(c, es, n).cls.CommandSpeech? && cell.End() > c.trigger && cell.level.Some? then
        CommandLevels(c, es[..n]) + [cell.level.value]
      else CommandLevels(c, es[..n])
  }

  /** The levels that stand behind the foreground of a cell with `es` before it: those of command speech,
      after the wake word's when there are ten of them and the trigger is past. */
  function Levels(c: Config, es: seq<Evidence>, cell: Cell): seq<real> {
    if cell.End() > c.trigger && |WakeLevels(c, es)| >= 10 then WakeLevels(c, es) + CommandLevels(c, es) else CommandLevels(c, es)
  }

  function Foreground(c: Config, es: seq<Evidence>, cell: Cell): Option<real> {
    var levels := Levels(c, es, cell);
    if |levels| >= 10 then Some(c.percentile(levels)) else None
  }

  function FOf(c: Config, levels: seq<real>): Option<real> {
    if |levels| >= 10 then Some(c.percentile(levels)) else None
  }

  lemma {:induction false} AddAllIs(c: Config, st: State, levels: seq<real>)
    requires st.f == FOf(c, st.foreground)
    ensures var u := AddAll(c, st, levels); u.foreground == st.foreground + levels && u.f == FOf(c, u.foreground)
  {
    if levels == [] {
      assert st.foreground + levels == st.foreground;
    } else {
      var n := |levels| - 1;
      AddAllIs(c, st, levels[..n]);
      assert st.foreground + levels == st.foreground + levels[..n] + [levels[n]];
    }
  }

  /** How the state's foreground stands to the cells so far. */
  ghost predicate Grounded(c: Config, es: seq<Evidence>, st: State) {
    && st.f == FOf(c, st.foreground)
    && (if es == [] || es[|es| - 1].0.End() <= c.trigger then
          st.foreground == [] && CommandLevels(c, es) == [] && st.seed == if c.seedStart.Some? then Some(WakeLevels(c, es)) else None
        else st.seed.None? && st.foreground == (if |WakeLevels(c, es)| >= 10 then WakeLevels(c, es) + CommandLevels(c, es) else CommandLevels(c, es)))
    && (c.seedStart.None? ==> WakeLevels(c, es) == [])
  }

  /** With the seed closed for the next cell, the foreground is that of the levels behind it. */
  lemma {:induction false} ClosedIs(c: Config, es: seq<Evidence>, st: State, cell: Cell)
    requires Grounded(c, es, st) && (es != [] ==> es[|es| - 1].0.End() <= cell.End())
    ensures var s0 := if cell.End() > c.trigger then CloseSeed(c, st) else st;
      && s0.foreground == Levels(c, es, cell) && s0.f == Foreground(c, es, cell)
      && (cell.End() > c.trigger ==> s0.seed.None?) && (cell.End() <= c.trigger ==> s0 == st)
  {
    if cell.End() > c.trigger && st.seed.Some? && |st.seed.value| >= FOREGROUND_MIN_CELLS {
      AddAllIs(c, st.(seed := None), st.seed.value);
      AddAllKeeps(c, st.(seed := None), st.seed.value);
      assert [] + st.seed.value == st.seed.value && st.seed.value + [] == st.seed.value;
    }
  }

  lemma {:induction false} StepGrounds(c: Config, es: seq<Evidence>, e: Evidence)
    requires Cells(es + [e]) && Grounded(c, es, Run(c, es))
    ensures Grounded(c, es + [e], Run(c, es + [e]))
  {
    var all, st, cell := es + [e], Run(c, es), e.0;
    assert all[..|es|] == es && all[|es|] == e;
    EveryCellIsLabelled(c, all, |es|);
    assert all[..|es| + 1] == all;
    if es != [] {
      assert all[|es| - 1] == es[|es| - 1];
      assert all[|es|].0.start == all[0].0.start + CELL_SAMPLES * |es|;
      assert all[|es| - 1].0.start == all[0].0.start + CELL_SAMPLES * (|es| - 1);
    }
    ClosedIs(c, es, st, cell);
    var s0 := if cell.End() > c.trigger then CloseSeed(c, st) else st;
    var d := DecideCell(c, s0, cell, e.1);
    LearnGrounds(c, es, e, s0, d);
  }

  lemma {:induction false} LearnGrounds(c: Config, es: seq<Evidence>, e: Evidence, s0: State, d: Decision)
    requires var all := es + [e];
      && s0 == (if e.0.End() > c.trigger then CloseSeed(c, Run(c, es)) else Run(c, es)) && d == DecideCell(c, s0, e.0, e.1)
      && all[..|es|] == es && ResultAt(c, all, |es|) == Ok(Apply(c, s0, e.0, d)) && Run(c, all) == Apply(c, s0, e.0, d).0
    requires Grounded(c, es, Run(c, es)) && s0.foreground == Levels(c, es, e.0) && s0.f == Foreground(c, es, e.0)
    requires (e.0.End() > c.trigger ==> s0.seed.None?) && (e.0.End() <= c.trigger ==> s0 == Run(c, es))
    requires es != [] ==> es[|es| - 1].0.End() <= e.0.End()
    ensures Grounded(c, es + [e], Run(c, es + [e]))
  {
    var all := es + [e];
    assert WakeLevels(c, all) == if Wakes(c, e.0) then WakeLevels(c, es) + [e.0.level.value] else WakeLevels(c, es);
    if e.0.End() > c.trigger {
      assert WakeLevels(c, all) == WakeLevels(c, es);
    } else {
      assert CommandLevels(c, all) == CommandLevels(c, es);
    }
  }

  lemma {:induction false} RunGrounds(c: Config, es: seq<Evidence>)
    requires Cells(es)
    ensures Grounded(c, es, Run(c, es))
  {
    if es != [] {
      var n := |es| - 1;
      Prefix(es, n);
      RunGrounds(c, es[..n]);
      assert es == es[..n] + [es[n]];
      StepGrounds(c, es[..n], es[n]);
    }
  }

  // ---- the run and the stretch of speech ----

  /** The start of the run that is open after the cells, by their labels. */
  function OpenRun(c: Config, es: seq<Evidence>): Option<int> {
    if es == [] || ResultAt(c, es, |es| - 1).Err? then None
    else
      var last := LabelAt(c, es, |es| - 1);
      if last.cls.CommandSpeech? then last.runStart
      else if last.rule.UnderWayRule? then OpenRun(c, es[..|es| - 1])
      else None
  }

  /** `start` is where the speech that is under way after the cells began, if there is any. */
  ghost predicate StretchIs(es: seq<Evidence>, start: Option<int>) {
    match start
    case None => es == [] || !es[|es| - 1].0.Speech()
    case Some(s) => exists p :: 0 <= p < |es| && StretchFrom(es, p) && es[p].0.start == s
  }

  ghost predicate StretchFrom(es: seq<Evidence>, p: nat)
    requires p < |es|
  {
    (forall q :: p <= q < |es| ==> es[q].0.Speech()) && (p > 0 ==> !es[p - 1].0.Speech())
  }

  lemma {:induction false} StretchStep(es: seq<Evidence>, e: Evidence, start: Option<int>)
    requires StretchIs(es, start)
    ensures StretchIs(es + [e], if !e.0.Speech() then None else if start.Some? then start else Some(e.0.start))
  {
    var all := es + [e];
    assert all[|es|] == e;
    if e.0.Speech() {
      if start.Some? {
        var p :| 0 <= p < |es| && StretchFrom(es, p) && es[p].0.start == start.value;
        assert all[p] == es[p] && StretchFrom(all, p);
      } else {
        assert StretchFrom(all, |es|);
      }
    }
  }

  /** What the state says of the run and of the stretch is what the labels and the evidence say. */
  lemma {:induction false} RunFollows(c: Config, es: seq<Evidence>)
    requires Cells(es)
    ensures OpenRun(c, es) == (if Run(c, es).inRun then Some(Run(c, es).runStart) else None)
    ensures StretchIs(es, Run(c, es).speechStart)
  {
    if es != [] {
      var n := |es| - 1;
      Prefix(es, n);
      RunFollows(c, es[..n]);
      EveryCellIsLabelled(c, es, n);
      assert es[..n + 1] == es == es[..n] + [es[n]];
      var st := Run(c, es[..n]);
      CloseSeedKeeps(c, st);
      StretchStep(es[..n], es[n], st.speechStart);
      StepFollows(c, if es[n].0.End() > c.trigger then CloseSeed(c, st) else st, es[n].0, es[n].1);
    }
  }

  lemma {:induction false} StepFollows(c: Config, st: State, cell: Cell, background: Option<real>)
    ensures var (u, out) := Apply(c, st, cell, DecideCell(c, st, cell, background));
      && u.speechStart == (if !cell.Speech() then None else if st.speechStart.Some? then st.speechStart else Some(cell.start))
      && u.inRun == (out.cls.CommandSpeech? || out.rule.UnderWayRule?)
      && (out.cls.CommandSpeech? ==> out.runStart == Some(u.runStart))
      && (!out.cls.CommandSpeech? && out.rule.UnderWayRule? ==> st.inRun && u.runStart == st.runStart)
  {
  }

  // ---- what a cell is called ----

  predicate Usable(cell: Cell) { !cell.gap && !cell.muted && cell.level.Some? }

  /** A cell whose probability decides, and that is no silence. */
  predicate Sounds(cell: Cell) {
    Usable(cell) && cell.echo != Some(EchoOnly) && cell.vad.Some? && cell.vad.value > 0.35
  }

  /** Speech well below the foreground. */
  predicate Faint(cell: Cell, f: Option<real>) {
    Sounds(cell) && cell.vad.value >= 0.50 && f.Some? && cell.level.value <= f.value - 10.0
  }

  /** Speech under way long before a reply's window. */
  predicate Early(c: Config, cell: Cell, run: Option<int>) {
    run.Some? && c.reply && run.value < c.trigger - 7_680 && cell.End() > c.trigger
  }

  /** Far enough above the background, as far as that is known. */
  predicate Clear(cell: Cell, background: Option<real>, f: Option<real>) {
    Usable(cell) && (background.None? || f.None? ||
      cell.level.value - background.value >= 0.55 * (if f.value - background.value < 12.0 then 12.0 else f.value - background.value))
  }

  /** After the trigger and still before the guard's end. */
  predicate Held(c: Config, cell: Cell) {
    c.guardUntil.Some? && cell.End() > c.trigger && cell.start < c.guardUntil.value
  }

  /** A run opens here if none is open. */
  predicate Opening(c: Config, cell: Cell, background: Option<real>, f: Option<real>) {
    Sounds(cell) && cell.vad.value >= 0.70 && Clear(cell, background, f) && !Held(c, cell)
  }

  /** Where a run that opens here starts. */
  function OpeningStart(c: Config, cell: Cell, stretch: Option<int>): int {
    if c.guardUntil.None? || stretch.None? || c.guardUntil.value <= stretch.value then cell.start
    else if stretch.value < c.trigger - c.trigger % 512 then c.trigger - c.trigger % 512
    else stretch.value
  }

  /** The label that a cell must have, given the foreground, the background, the open run and the stretch. */
  predicate Right(c: Config, cell: Cell, background: Option<real>, f: Option<real>, run: Option<int>, stretch: Option<int>, out: Classified) {
    && out.start == cell.start
    && (out.cls.Gap? <==> !Usable(cell))
    && (out.cls.SelfOutput? <==> Usable(cell) && cell.echo == Some(EchoOnly))
    && (out.cls.NonSpeech? <==> Usable(cell) && cell.echo != Some(EchoOnly) && cell.vad.Some? && cell.vad.value <= 0.35)
    && (out.cls.BackgroundSpeech? <==> Sounds(cell) && (Faint(cell, f) || Early(c, cell, run)))
    && (out.cls.CommandSpeech? <==>
      Sounds(cell) && !Faint(cell, f) && if run.Some? then !Early(c, cell, run) else Opening(c, cell, background, f))
    && (out.cls.CommandSpeech? ==> out.runStart == if run.Some? then run else Some(OpeningStart(c, cell, stretch)))
    && (!out.cls.CommandSpeech? ==> out.runStart.None?)
    && (out.command <==> out.cls.CommandSpeech? && cell.End() > c.trigger)
    && (out.speechPositive <==> Usable(cell) && cell.vad.Some? && cell.vad.value >= 0.50)
    && RuleRight(c, cell, background, f, run, out)
  }

  /** The level decides whether a run opens. */
  predicate Asked(cell: Cell, background: Option<real>, f: Option<real>, run: Option<int>) {
    Sounds(cell) && run.None? && cell.vad.value >= 0.70 && background.Some? && f.Some?
  }

  /** And the rule it is recorded with. */
  predicate RuleRight(c: Config, cell: Cell, background: Option<real>, f: Option<real>, run: Option<int>, out: Classified) {
    && (out.rule.MuteRule? <==> !Usable(cell) && cell.muted)
    && (out.rule.GapRule? <==> !Usable(cell) && !cell.muted)
    && (out.rule.EchoRule? <==> Usable(cell) && cell.echo == Some(EchoOnly))
    && (out.rule.UnderWayRule? <==> Sounds(cell) && !Faint(cell, f) && Early(c, cell, run))
    && (out.rule.HysteresisRule? <==> out.cls.CommandSpeech? && run.Some?)
    && (out.rule.GuardRule? <==> Sounds(cell) && !Faint(cell, f) && run.None? && cell.vad.value >= 0.70 && Clear(cell, background, f) && Held(c, cell))
    && (out.rule.LevelRule? <==> Faint(cell, f) || (Asked(cell, background, f, run) && (out.cls.CommandSpeech? || !Clear(cell, background, f))))
  }

  lemma RatioIs(level: real, background: real, span: real)
    requires span > 0.0
    ensures (level - background) / span < 0.55 <==> level - background < 0.55 * span
  {
    var q := (level - background) / span;
    assert q * span == level - background;
    if q < 0.55 {
      assert (0.55 - q) * span > 0.0;
    } else {
      assert (q - 0.55) * span >= 0.0;
    }
  }

  lemma {:induction false} DecisionIsRight(c: Config, st: State, cell: Cell, background: Option<real>)
    ensures Right(c, cell, background, st.f, if st.inRun then Some(st.runStart) else None, st.speechStart,
      Apply(c, st, cell, DecideCell(c, st, cell, background)).1)
  {
    if background.Some? && st.f.Some? && cell.ValidLevel().Some? {
      RatioIs(cell.level.value, background.value, if st.f.value - background.value < 12.0 then 12.0 else st.f.value - background.value);
    }
  }

  /** Every cell of an utterance is called what its evidence, the levels heard so far, the background, the
      run that its predecessors' labels leave open and the stretch of speech it belongs to say: in
      particular a run must open on a cell that is clear speech, not faint and not held by the guard. */
  lemma {:induction false} EveryLabelIsRight(c: Config, es: seq<Evidence>, i: nat) returns (stretch: Option<int>)
    requires Cells(es) && i < |es|
    ensures ResultAt(c, es, i).Ok? && StretchIs(es[..i], stretch)
    ensures Right(c, es[i].0, es[i].1, Foreground(c, es[..i], es[i].0), OpenRun(c, es[..i]), stretch, LabelAt(c, es, i))
  {
    var st, cell := Run(c, es[..i]), es[i].0;
    Prefix(es, i);
    EveryCellIsLabelled(c, es, i);
    RunGrounds(c, es[..i]);
    RunFollows(c, es[..i]);
    CloseSeedKeeps(c, st);
    if i > 0 {
      assert es[i].0.start == es[0].0.start + CELL_SAMPLES * i && es[i - 1].0.start == es[0].0.start + CELL_SAMPLES * (i - 1);
    }
    ClosedIs(c, es[..i], st, cell);
    stretch := st.speechStart;
    DecisionIsRight(c, if cell.End() > c.trigger then CloseSeed(c, st) else st, cell, es[i].1);
  }
}
