/** What every step of an utterance must answer (controller/em_endpoint_policy.py, `EndpointReducer`), told of
    the cells observed so far and the step's input alone; counts are those of sets of cells. */
module Routing {
  import opened Basics
  import A = AttributionSpec
  import opened EndpointSpec
  import opened Turns

  type Cells = seq<A.Classified>

  /** The cells with a property, by their indices. */
  function Those(cells: Cells, p: A.Classified -> bool): set<nat> {
    set k: nat | k < |cells| && p(cells[k])
  }

  lemma {:induction false} OneMore(cells: Cells, p: A.Classified -> bool)
    requires cells != []
    ensures |Those(cells, p)| == |Those(cells[..|cells| - 1], p)| + if p(cells[|cells| - 1]) then 1 else 0
  {
    var n := |cells| - 1;
    var before := Those(cells[..n], p);
    if p(cells[n]) {
      assert Those(cells, p) == before + {n};
    } else {
      assert Those(cells, p) == before;
    }
  }

  predicate Command(cell: A.Classified) { cell.command }

  predicate Quiet(cell: A.Classified) { cell.cls.NonSpeech? || cell.cls.SelfOutput? }

  predicate Behind(cell: A.Classified) { cell.cls.BackgroundSpeech? }

  function CommandPast(sample: int): A.Classified -> bool { (cell: A.Classified) => cell.command && cell.End() > sample }

  function SpeechPast(sample: int): A.Classified -> bool { (cell: A.Classified) => cell.speechPositive && cell.End() > sample }

  function BehindPast(sample: int): A.Classified -> bool {
    (cell: A.Classified) => cell.speechPositive && cell.End() > sample && cell.cls.BackgroundSpeech?
  }

  // ---- what a step is asked about ----

  predicate First(cells: Cells, k: nat) { k < |cells| && cells[k].command && forall j :: 0 <= j < k ==> !cells[j].command }

  predicate Last(cells: Cells, k: nat) { k < |cells| && cells[k].command && forall j :: k < j < |cells| ==> !cells[j].command }

  /** The last command cell that ends by `sample`. */
  predicate LastBy(cells: Cells, k: nat, sample: int) {
    && k < |cells| && cells[k].command && cells[k].End() <= sample
    && forall j :: k < j < |cells| && cells[j].command ==> cells[j].End() > sample
  }

  /** The first command cell that starts at or after the trigger. */
  predicate FirstFrom(cells: Cells, k: nat, trigger: int) {
    && k < |cells| && cells[k].command && cells[k].start >= trigger
    && forall j :: 0 <= j < k && cells[j].command ==> cells[j].start < trigger
  }

  /** The numbers of the cells that start in [lo, hi). */
  function Grid(lo: int, hi: int): set<int> { set m | lo / 512 <= m <= hi / 512 && lo <= 512 * m < hi }

  /** Where the cells before the first command cell count from: its run's start or the trigger's cell. */
  function CountsFrom(c: Setup, cell: A.Classified): int {
    var at := c.trigger - c.trigger % 512;
    if cell.runStart.Some? && at < cell.runStart.value then cell.runStart.value else at
  }

  /** Six cells: command cells, and those between the start of the first one's run and that one. */
  ghost predicate Enough(c: Setup, cells: Cells) {
    exists k: nat :: First(cells, k) && |Those(cells, Command)| + |Grid(CountsFrom(c, cells[k]), cells[k].start)| >= 6
  }

  function LongPause(g: Grammar): int { match g case Complete => 9_728 case Extendable => 19_456 case _ => 28_672 }

  predicate Unfinished(g: Grammar) { g.NeedsMore? || g.UnknownText? }

  /** Fifteen of the last nineteen cells are quiet, or quiet or background under a text that is not finished. */
  ghost predicate Voted(cells: Cells, g: Grammar) {
    |cells| >= 19 &&
    var window := cells[|cells| - 19..];
    var quiet, behind := |Those(window, Quiet)|, |Those(window, Behind)|;
    quiet >= 15 || (Unfinished(g) && quiet + behind >= 15)
  }

  /** Route A: a pause after enough command speech. */
  ghost predicate Pauses(c: Setup, cells: Cells, i: Input, k: nat) {
    && Enough(c, cells) && i.stable.prefix != "" && i.stable.trailingBlanks >= 10
    && Voted(cells, c.completeness(i.stable.prefix))
    && Last(cells, k) && i.frontier - cells[k].End() >= LongPause(c.completeness(i.stable.prefix))
  }

  /** Route B: a complete text, unchanged for 608 ms, with background speech since. */
  ghost predicate Drowned(c: Setup, cells: Cells, i: Input, k: nat) {
    && i.stable.prefix != "" && i.stable.prefixSample.Some? && c.completeness(i.stable.prefix).Complete?
    && i.frontier - i.stable.prefixSample.value >= 9_728
    && Those(cells, SpeechPast(i.stable.prefixSample.value)) != {}
    && 100 * |Those(cells, BehindPast(i.stable.prefixSample.value))| >= 80 * |Those(cells, SpeechPast(i.stable.prefixSample.value))|
    && LastBy(cells, k, i.stable.prefixSample.value)
  }

  /** Route R: a plain pause. */
  predicate Rests(cells: Cells, i: Input, k: nat) { Last(cells, k) && i.frontier - cells[k].End() >= 16_384 }

  /** Three seconds without progress, counted from the command's first speech at the earliest. */
  ghost predicate Stuck(c: Setup, cells: Cells, i: Input) {
    && Those(cells, Command) != {} && i.frontier - i.stable.progressSample >= 48_000
    && forall k: nat :: FirstFrom(cells, k, c.trigger) ==> i.frontier - cells[k].start >= 48_000
  }

  /** A turn has lasted too long since its trigger, a reply since its command's first speech. */
  ghost predicate Overlong(c: Setup, cells: Cells, i: Input) {
    var most := if c.extended then 480_000 else 240_000;
    if c.reply then exists k: nat :: FirstFrom(cells, k, c.trigger) && i.frontier - cells[k].start >= most
    else i.frontier - c.trigger >= most
  }

  predicate SomeGap(cells: Cells) { exists k: nat :: k < |cells| && cells[k].cls.Gap? }

  ghost function CloseFor(c: Setup, cells: Cells, i: Input): Option<CloseReason> {
    if i.muted then Some(Muted)
    else if i.sessionLost then Some(SessionLost)
    else if i.gap || SomeGap(cells) then Some(Interrupted)
    else if i.overrun then Some(AudioOverrun)
    else if Those(cells, Command) == {} && i.frontier >= c.noInputAt then Some(NoInput)
    else if Overlong(c, cells, i) then Some(TooLong)
    else None
  }

  // ---- what the reducer's fields stand for ----

  ghost predicate Sums(c: Setup, s: Reducer, cells: Cells) {
    && s.cells == cells && s.commandEnds == CommandEnds(cells)
    && (s.commandStart.None? ==> forall k: nat :: !FirstFrom(cells, k, c.trigger))
    && (s.commandStart.Some? ==> exists k: nat :: FirstFrom(cells, k, c.trigger) && cells[k].start == s.commandStart.value)
    && (s.commandEnds == [] ==> s.heldCells == 0 && s.answerRun.None?)
    && (s.commandEnds != [] ==> exists k: nat :: Answers(c, s, cells, k))
  }

  /** The first command cell, with its run and the cells that count before it. */
  ghost predicate Answers(c: Setup, s: Reducer, cells: Cells, k: nat) {
    First(cells, k) && cells[k].runStart == s.answerRun && s.answerRun.Some? && s.heldCells == |Grid(CountsFrom(c, cells[k]), cells[k].start)|
  }

  lemma {:induction false} EndsCount(cells: Cells)
    ensures |CommandEnds(cells)| == |Those(cells, Command)|
    ensures CommandEnds(cells) == [] <==> Those(cells, Command) == {}
  {
    if cells != [] {
      OneMore(cells, Command);
      EndsCount(cells[..|cells| - 1]);
    }
  }

  lemma {:induction false} EndsSnoc(cells: Cells)
    requires cells != []
    ensures var n, ends := |cells| - 1, CommandEnds(cells);
      if cells[n].command then ends != [] && ends[|ends| - 1] == cells[n].End() && ends[..|ends| - 1] == CommandEnds(cells[..n])
      else ends == CommandEnds(cells[..n])
  {
  }

  lemma {:induction false} PastCount(cells: Cells, sample: int)
    ensures CountAfter(CommandEnds(cells), sample) == |Those(cells, CommandPast(sample))|
  {
    if cells != [] {
      var n := |cells| - 1;
      OneMore(cells, CommandPast(sample));
      PastCount(cells[..n], sample);
      EndsSnoc(cells);
    }
  }

  lemma {:induction false} ClassCount(cells: Cells, quiet: bool)
    ensures CountClass(cells, quiet) == |Those(cells, if quiet then Quiet else Behind)|
  {
    if cells != [] {
      OneMore(cells, if quiet then Quiet else Behind);
      ClassCount(cells[..|cells| - 1], quiet);
    }
  }

  lemma {:induction false} SpeechCount(cells: Cells, sample: int)
    ensures |SpeechAfter(cells, sample)| == |Those(cells, SpeechPast(sample))|
    ensures CountClass(SpeechAfter(cells, sample), false) == |Those(cells, BehindPast(sample))|
    ensures SpeechAfter(cells, sample) == [] <==> Those(cells, SpeechPast(sample)) == {}
  {
    if cells != [] {
      var n := |cells| - 1;
      OneMore(cells, SpeechPast(sample));
      OneMore(cells, BehindPast(sample));
      SpeechCount(cells[..n], sample);
      var after := SpeechAfter(cells, sample);
      if after != [] {
        assert cells[n].End() > sample && cells[n].speechPositive ==> after[..|after| - 1] == SpeechAfter(cells[..n], sample);
      }
    }
  }

  lemma {:induction false} LastEnd(cells: Cells)
    requires CommandEnds(cells) != []
    ensures exists k: nat :: Last(cells, k) && CommandEnds(cells)[|CommandEnds(cells)| - 1] == cells[k].End()
  {
    var n := |cells| - 1;
    if cells[n].command {
      assert Last(cells, n);
    } else {
      LastEnd(cells[..n]);
      var k: nat :| Last(cells[..n], k) && CommandEnds(cells[..n])[|CommandEnds(cells[..n])| - 1] == cells[..n][k].End();
      assert Last(cells, k);
    }
  }

  lemma {:induction false} BoundaryIs(cells: Cells, sample: int)
    ensures var b := BoundaryAt(CommandEnds(cells), sample);
      && (b.None? ==> forall k: nat :: !LastBy(cells, k, sample))
      && (b.Some? ==> exists k: nat :: LastBy(cells, k, sample) && cells[k].End() == b.value)
  {
    if cells != [] {
      var n := |cells| - 1;
      BoundaryIs(cells[..n], sample);
      EndsSnoc(cells);
      BoundaryStep(cells, sample);
    }
  }

  lemma {:induction false} BoundaryStep(cells: Cells, sample: int)
    requires cells != []
    ensures var n := |cells| - 1;
      if cells[n].command && cells[n].End() <= sample then LastBy(cells, n, sample)
      else forall k: nat :: LastBy(cells, k, sample) <==> LastBy(cells[..n], k, sample)
  {
    var n := |cells| - 1;
    if !(cells[n].command && cells[n].End() <= sample) {
      forall k: nat
        ensures LastBy(cells, k, sample) <==> LastBy(cells[..n], k, sample)
      {
        if LastBy(cells[..n], k, sample) {
          assert cells[..n][k] == cells[k];
        }
      }
    }
  }

  // ---- the fields over a run ----

  lemma {:induction false} GridCount(lo: int, h: int)
    ensures |Grid(lo, 512 * h)| == (if 512 * h <= lo then 0 else 512 * h - lo) / 512
    decreases 512 * h - lo
  {
    if lo <= 512 * (h - 1) {
      GridCount(lo, h - 1);
      assert Grid(lo, 512 * h) == Grid(lo, 512 * (h - 1)) + {h - 1};
    } else {
      assert Grid(lo, 512 * h) == {};
    }
  }

  lemma {:induction false} StartStep(c: Setup, s: Reducer, cells: Cells, cell: A.Classified)
    requires Sums(c, s, cells) && ObserveCell(c, s, cell).Ok?
    ensures var u, all := ObserveCell(c, s, cell).value, cells + [cell];
      && (u.commandStart.None? ==> forall k: nat :: !FirstFrom(all, k, c.trigger))
      && (u.commandStart.Some? ==> exists k: nat :: FirstFrom(all, k, c.trigger) && all[k].start == u.commandStart.value)
  {
    var u, all := ObserveCell(c, s, cell).value, cells + [cell];
    assert all[|cells|] == cell && forall k :: 0 <= k < |cells| ==> all[k] == cells[k];
    if s.commandStart.Some? {
      var k: nat :| FirstFrom(cells, k, c.trigger) && cells[k].start == s.commandStart.value;
      assert FirstFrom(all, k, c.trigger);
    } else {
      forall k: nat | FirstFrom(all, k, c.trigger)
        ensures k == |cells|
      {
        if k < |cells| {
          assert FirstFrom(cells, k, c.trigger);
        }
      }
      if u.commandStart.Some? {
        NoneBefore(c, cells);
        assert FirstFrom(all, |cells|, c.trigger);
      }
    }
  }

  /** If no command cell is the first from the trigger on, none starts there. */
  lemma {:induction false} NoneBefore(c: Setup, cells: Cells)
    requires forall k: nat :: !FirstFrom(cells, k, c.trigger)
    ensures forall j: nat :: j < |cells| && cells[j].command ==> cells[j].start < c.trigger
  {
    if j: nat :| j < |cells| && cells[j].command && cells[j].start >= c.trigger {
      var k := 0;
      while !(cells[k].command && cells[k].start >= c.trigger)
        invariant k <= j && forall m :: 0 <= m < k ==> !(cells[m].command && cells[m].start >= c.trigger)
        decreases j - k
      {
        k := k + 1;
      }
      assert FirstFrom(cells, k, c.trigger);
    }
  }

  lemma {:induction false} AnswerStep(c: Setup, s: Reducer, cells: Cells, cell: A.Classified)
    requires Sums(c, s, cells) && ObserveCell(c, s, cell).Ok? && Attributed(c, cell)
    ensures var u, all := ObserveCell(c, s, cell).value, cells + [cell];
      && (u.commandEnds == [] ==> u.heldCells == 0 && u.answerRun.None?)
      && (u.commandEnds != [] ==> exists k: nat :: Answers(c, u, all, k))
  {
    var u, all := ObserveCell(c, s, cell).value, cells + [cell];
    assert all[|cells|] == cell && forall k :: 0 <= k < |cells| ==> all[k] == cells[k];
    if s.commandEnds != [] {
      var k: nat :| Answers(c, s, cells, k);
      assert Answers(c, u, all, k);
    } else if cell.command {
      EndsCount(cells);
      assert forall j :: 0 <= j < |cells| && cells[j].command ==> j in Those(cells, Command);
      GridCount(CountsFrom(c, cell), cell.start / 512);
      assert Answers(c, u, all, |cells|);
    }
  }

  lemma {:induction false} CellSums(c: Setup, s: Reducer, cells: Cells, cell: A.Classified)
    requires Sums(c, s, cells) && Attributed(c, cell) && (cells != [] ==> cells[|cells| - 1].start < cell.start)
    ensures ObserveCell(c, s, cell).Ok? && Sums(c, ObserveCell(c, s, cell).value, cells + [cell])
  {
    assert (cells + [cell])[..|cells|] == cells;
    StartStep(c, s, cells, cell);
    AnswerStep(c, s, cells, cell);
  }

  lemma {:induction false} CellsSum(c: Setup, s: Reducer, cells: Cells, more: Cells)
    requires Sums(c, s, cells) && Increasing(cells + more) && forall j :: 0 <= j < |more| ==> Attributed(c, more[j])
    ensures Sums(c, Observe(c, s, more), cells + more)
    decreases |more|
  {
    if more == [] {
      assert cells + more == cells;
    } else {
      var all := cells + more;
      assert all[|cells|] == more[0] && (cells != [] ==> all[|cells| - 1] == cells[|cells| - 1]);
      CellSums(c, s, cells, more[0]);
      assert cells + [more[0]] + more[1..] == all;
      CellsSum(c, ObserveCell(c, s, more[0]).value, cells + [more[0]], more[1..]);
    }
  }

  /** Before each step the reducer's fields stand for the cells observed so far, all within the frontier. */
  lemma {:induction false} TickSums(c: Setup, ts: seq<Tick>)
    requires Fed(c, ts) && ts != [] && c.utteranceStart <= c.trigger
    ensures var u := Observe(c, Run(c, ts[..|ts| - 1]), ts[|ts| - 1].cells);
      && Sums(c, u, Concat(ts)) && (forall k :: 0 <= k < |Concat(ts)| ==> Concat(ts)[k].End() <= ts[|ts| - 1].input.frontier)
  {
    var front, t := ts[..|ts| - 1], ts[|ts| - 1];
    RunSums(c, front);
    RunsHold(c, front);
    ObserveTick(c, Reached(front), Run(c, front), t);
    CellsSum(c, Run(c, front), Concat(front), t.cells);
  }

  lemma {:induction false} RunSums(c: Setup, ts: seq<Tick>)
    requires Fed(c, ts) && c.utteranceStart <= c.trigger
    ensures Sums(c, Run(c, ts), Concat(ts))
    decreases |ts|
  {
    if ts != [] {
      var front, t := ts[..|ts| - 1], ts[|ts| - 1];
      RunSums(c, front);
      RunsHold(c, front);
      ObserveTick(c, Reached(front), Run(c, front), t);
      CellsSum(c, Run(c, front), Concat(front), t.cells);
      var u := Observe(c, Run(c, front), t.cells);
      StepFrame(c, u, t.input);
      SameSums(c, u, Run(c, ts), Concat(ts));
    }
  }

  lemma {:induction false} SameSums(c: Setup, s: Reducer, u: Reducer, cells: Cells)
    requires Sums(c, s, cells) && u.cells == s.cells && u.commandEnds == s.commandEnds && u.commandStart == s.commandStart
    requires u.answerRun == s.answerRun && u.heldCells == s.heldCells
    ensures Sums(c, u, cells)
  {
    if s.commandEnds != [] {
      var k: nat :| Answers(c, s, cells, k);
      assert Answers(c, u, cells, k);
    }
  }

  // ---- the routes ----

  /** The finding of a route, at the end of cell k. */
  predicate FoundAt(p: Option<Pending>, cells: Cells, i: Input, route: Route, k: nat) {
    k < |cells| && p == Some(Pending(cells[k].End(), i.frontier, route, i.stable.prefix))
  }

  lemma {:induction false} ThroughAll(cells: Cells, frontier: int)
    requires forall k :: 0 <= k < |cells| ==> cells[k].End() <= frontier
    ensures Through(cells, frontier) == cells
  {
    if cells != [] {
      ThroughAll(cells[..|cells| - 1], frontier);
    }
  }

  lemma {:induction false} EnoughIs(c: Setup, s: Reducer, cells: Cells)
    requires Sums(c, s, cells)
    ensures Enough(c, cells) <==> |s.commandEnds| + s.heldCells >= 6
  {
    EndsCount(cells);
    if s.commandEnds != [] {
      var k: nat :| Answers(c, s, cells, k);
      forall j: nat | First(cells, j)
        ensures j == k
      {
      }
    } else {
      assert forall j :: 0 <= j < |cells| && cells[j].command ==> j in Those(cells, Command);
    }
  }

  /** Route A finds an endpoint if and only if its pause is there: at the last command cell's end. */
  lemma {:induction false} RouteAIs(c: Setup, s: Reducer, cells: Cells, i: Input)
    requires Sums(c, s, cells)
    ensures var p := RouteA(c, s, i.frontier, i.stable, cells);
      && (p.None? ==> forall k: nat :: !Pauses(c, cells, i, k))
      && (p.Some? ==> exists k: nat :: Pauses(c, cells, i, k) && FoundAt(p, cells, i, A, k))
  {
    EnoughIs(c, s, cells);
    VotedIs(cells, c.completeness(i.stable.prefix));
    if s.commandEnds != [] {
      var k := OnlyLast(cells);
      RouteAAt(c, s, cells, i, k);
    } else {
      NoCommand(cells);
    }
  }

  lemma {:induction false} RouteAAt(c: Setup, s: Reducer, cells: Cells, i: Input, k: nat)
    requires Sums(c, s, cells) && s.commandEnds != [] && Last(cells, k) && s.commandEnds[|s.commandEnds| - 1] == cells[k].End()
    requires Enough(c, cells) <==> |s.commandEnds| + s.heldCells >= 6
    requires Voted(cells, c.completeness(i.stable.prefix)) <==> Votes(cells, c.completeness(i.stable.prefix))
    ensures var p := RouteA(c, s, i.frontier, i.stable, cells);
      (p.Some? <==> Pauses(c, cells, i, k)) && (p.Some? ==> FoundAt(p, cells, i, A, k))
  {
    RouteACounts(c, s, cells, i, cells[k].End());
  }

  lemma {:induction false} RouteACounts(c: Setup, s: Reducer, cells: Cells, i: Input, last: int)
    requires s.commandEnds != [] && s.commandEnds[|s.commandEnds| - 1] == last
    ensures var p, g := RouteA(c, s, i.frontier, i.stable, cells), c.completeness(i.stable.prefix);
      && (p.Some? <==> (|s.commandEnds| + s.heldCells >= 6 && i.stable.prefix != "" && Votes(cells, g)
        && i.stable.trailingBlanks >= 10 && i.frontier - last >= LongPause(g)))
      && (p.Some? ==> p.value == Pending(last, i.frontier, A, i.stable.prefix))
  {
  }

  /** The vote as the reducer counts it. */
  predicate Votes(cells: Cells, g: Grammar) {
    |cells| >= 19 && CountClass(cells[|cells| - 19..], true) + CountClass(cells[|cells| - 19..], false) >= 15
    && (CountClass(cells[|cells| - 19..], true) >= 15 || g.NeedsMore? || g.UnknownText?)
  }

  lemma {:induction false} VotedIs(cells: Cells, g: Grammar)
    ensures Voted(cells, g) <==> Votes(cells, g)
  {
    if |cells| >= 19 {
      ClassCount(cells[|cells| - 19..], true);
      ClassCount(cells[|cells| - 19..], false);
    }
  }

  lemma {:induction false} OnlyLast(cells: Cells) returns (k: nat)
    requires CommandEnds(cells) != []
    ensures Last(cells, k) && CommandEnds(cells)[|CommandEnds(cells)| - 1] == cells[k].End()
    ensures forall j: nat :: Last(cells, j) ==> j == k
  {
    LastEnd(cells);
    k :| Last(cells, k) && CommandEnds(cells)[|CommandEnds(cells)| - 1] == cells[k].End();
  }

  lemma {:induction false} NoCommand(cells: Cells)
    requires CommandEnds(cells) == []
    ensures Those(cells, Command) == {} && forall k: nat :: k < |cells| ==> !cells[k].command
  {
    EndsCount(cells);
    assert forall j :: 0 <= j < |cells| && cells[j].command ==> j in Those(cells, Command);
  }

  /** Route B finds one if and only if the command is drowned: at the last command end the text covers. */
  lemma {:induction false} RouteBIs(c: Setup, s: Reducer, cells: Cells, i: Input)
    requires Sums(c, s, cells)
    ensures var p := RouteB(c, s, i.frontier, i.stable, cells);
      && (p.None? ==> forall k: nat :: !Drowned(c, cells, i, k))
      && (p.Some? ==> exists k: nat :: Drowned(c, cells, i, k) && FoundAt(p, cells, i, B, k))
  {
    if i.stable.prefixSample.Some? {
      var sample, p := i.stable.prefixSample.value, RouteB(c, s, i.frontier, i.stable, cells);
      SpeechCount(cells, sample);
      BoundaryIs(cells, sample);
      if p.Some? {
        var k: nat :| LastBy(cells, k, sample) && cells[k].End() == BoundaryAt(s.commandEnds, sample).value;
        assert Drowned(c, cells, i, k) && FoundAt(p, cells, i, B, k);
      } else if k: nat :| Drowned(c, cells, i, k) {
        assert LastBy(cells, k, sample);
      }
    }
  }

  lemma {:induction false} RouteRIs(c: Setup, s: Reducer, cells: Cells, i: Input)
    requires Sums(c, s, cells)
    ensures var p := RouteR(s, i.frontier, i.stable);
      && (p.None? ==> forall k: nat :: !Rests(cells, i, k))
      && (p.Some? ==> exists k: nat :: Rests(cells, i, k) && FoundAt(p, cells, i, R, k))
  {
    if s.commandEnds != [] {
      var k := OnlyLast(cells);
      assert Rests(cells, i, k) ==> FoundAt(RouteR(s, i.frontier, i.stable), cells, i, R, k);
    } else {
      NoCommand(cells);
    }
  }

  // ---- the whole step ----

  /** The answer to an ending at the end of cell-aligned `boundary`: a commit with these fields, or an error
      when the boundary lies outside the audio. */
  ghost predicate Committed(c: Setup, cells: Cells, boundary: int, route: Route, text: string, validAudioEnd: int, r: Result<Verdict, Fault>) {
    if c.utteranceStart <= boundary <= validAudioEnd then
      && r.Ok? && r.value.Commits? && r.value.commit.boundary == boundary && r.value.commit.route == route && r.value.commit.text == text
      && r.value.commit.end == Min(boundary + 3_072, validAudioEnd) && (r.value.commit.redecode <==> route == B || route == Fallback)
      && (!c.reply || Those(cells, Command) == {} ==> r.value.commit.start == c.utteranceStart)
      && (c.reply ==> forall k: nat :: First(cells, k) && cells[k].runStart.Some? ==>
        r.value.commit.start == Max(c.utteranceStart, cells[k].runStart.value - 4_800))
    else r == Err(BoundaryOutside)
  }

  /** The answer while an endpoint is pending: four command cells after it revoke it, 192 ms commit it. */
  ghost predicate PendingAnswer(c: Setup, cells: Cells, p: Pending, i: Input, r: Result<Verdict, Fault>) {
    if |Those(cells, CommandPast(p.since))| >= 4 then r == Ok(Revoked(p))
    else if i.frontier - p.since >= 3_072 then Committed(c, cells, p.boundary, p.route, p.text, i.validAudioEnd, r)
    else r == Ok(Waiting(p))
  }

  /** An endpoint found now, by one of the routes that are open to the utterance. */
  ghost predicate FoundNow(c: Setup, cells: Cells, i: Input, p: Pending) {
    if c.esphomeReply then exists k: nat :: Rests(cells, i, k) && FoundAt(Some(p), cells, i, R, k)
    else
      || (exists k: nat :: Pauses(c, cells, i, k) && FoundAt(Some(p), cells, i, A, k))
      || ((forall k: nat :: !Pauses(c, cells, i, k)) && exists k: nat :: Drowned(c, cells, i, k) && FoundAt(Some(p), cells, i, B, k))
  }

  /** The answer while listening. */
  ghost predicate ListeningAnswer(c: Setup, cells: Cells, i: Input, r: Result<Verdict, Fault>) {
    || (r.Ok? && r.value.Waiting? && FoundNow(c, cells, i, r.value.pending))
    || ((forall p :: !FoundNow(c, cells, i, p)) && UnendedAnswer(c, cells, i, r))
  }

  /** The text at hand is complete and some command cell ends by it. */
  ghost predicate CompleteBy(c: Setup, cells: Cells, i: Input, k: nat) {
    && i.stable.prefix != "" && c.completeness(i.stable.prefix).Complete? && i.stable.prefixSample.Some?
    && LastBy(cells, k, i.stable.prefixSample.value)
  }

  /** With no endpoint: after three seconds without progress a complete text ends as it is and any other
      asks for a retry; until then there is nothing to say. */
  ghost predicate UnendedAnswer(c: Setup, cells: Cells, i: Input, r: Result<Verdict, Fault>) {
    if !Stuck(c, cells, i) then r == Ok(Nothing)
    else
      && (forall k: nat :: CompleteBy(c, cells, i, k) ==> Committed(c, cells, cells[k].End(), Fallback, i.stable.prefix, i.validAudioEnd, r))
      && ((forall k: nat :: !CompleteBy(c, cells, i, k)) ==> r == Ok(Closes(Retry)))
  }

  ghost predicate Demanded(c: Setup, cells: Cells, pending: Option<Pending>, i: Input, r: Result<Verdict, Fault>) {
    var reason := CloseFor(c, cells, i);
    if reason.Some? then r == Ok(Closes(reason.value))
    else if pending.Some? then PendingAnswer(c, cells, pending.value, i, r)
    else ListeningAnswer(c, cells, i, r)
  }

  lemma {:induction false} ClosingIs(c: Setup, s: Reducer, cells: Cells, i: Input)
    requires Sums(c, s, cells) && forall k :: 0 <= k < |cells| ==> cells[k].End() <= i.frontier
    ensures ClosingReason(c, s, i) == CloseFor(c, cells, i)
  {
    EndsCount(cells);
    assert (exists k :: 0 <= k < |s.cells| && s.cells[k].End() <= i.frontier && s.cells[k].cls.Gap?) <==> SomeGap(cells);
    OverlongIs(c, s, cells, i);
  }

  lemma {:induction false} OverlongIs(c: Setup, s: Reducer, cells: Cells, i: Input)
    requires Sums(c, s, cells)
    ensures var since := if c.reply then s.commandStart else Some(c.trigger);
      Overlong(c, cells, i) <==> since.Some? && i.frontier - since.value >= c.Maximum()
  {
    OnlyFirstFrom(cells, c.trigger);
  }

  lemma {:induction false} OnlyFirstFrom(cells: Cells, trigger: int)
    ensures forall j: nat, k: nat :: FirstFrom(cells, j, trigger) && FirstFrom(cells, k, trigger) ==> j == k
  {
  }

  lemma {:induction false} FinalizeIs(c: Setup, s: Reducer, cells: Cells, boundary: int, route: Route, text: string, validAudioEnd: int)
    requires Sums(c, s, cells) && s.commit.None? && s.close.None?
    ensures Committed(c, cells, boundary, route, text, validAudioEnd, Finalize(c, s, boundary, route, text, validAudioEnd).1)
  {
    AnswerRunIs(c, s, cells);
  }

  lemma {:induction false} AnswerRunIs(c: Setup, s: Reducer, cells: Cells)
    requires Sums(c, s, cells)
    ensures Those(cells, Command) == {} ==> s.answerRun.None?
    ensures Those(cells, Command) != {} ==> s.answerRun.Some? && exists k: nat :: First(cells, k) && cells[k].runStart == s.answerRun
    ensures forall k: nat :: First(cells, k) ==> Those(cells, Command) != {} && cells[k].runStart == s.answerRun
  {
    EndsCount(cells);
    if s.commandEnds != [] {
      var k: nat :| Answers(c, s, cells, k);
      forall j: nat | First(cells, j)
        ensures j == k
      {
      }
    } else {
      NoCommand(cells);
    }
  }

  lemma {:induction false} PendingIs(c: Setup, s: Reducer, cells: Cells, i: Input)
    requires Sums(c, s, cells) && s.pending.Some? && s.commit.None? && s.close.None?
    ensures PendingAnswer(c, cells, s.pending.value, i, StepPending(c, s, i, s.pending.value).1)
  {
    PastCount(cells, s.pending.value.since);
    FinalizeIs(c, s, cells, s.pending.value.boundary, s.pending.value.route, s.pending.value.text, i.validAudioEnd);
  }

  lemma {:induction false} FoundIs(c: Setup, s: Reducer, cells: Cells, i: Input)
    requires Sums(c, s, cells) && forall k :: 0 <= k < |cells| ==> cells[k].End() <= i.frontier
    ensures var p := Found(c, s, i.frontier, i.stable);
      && (p.Some? ==> FoundNow(c, cells, i, p.value))
      && (p.None? ==> forall p' :: !FoundNow(c, cells, i, p'))
  {
    ThroughAll(cells, i.frontier);
    if c.esphomeReply {
      RouteRIs(c, s, cells, i);
    } else {
      RouteAIs(c, s, cells, i);
      RouteBIs(c, s, cells, i);
    }
  }

  lemma {:induction false} StuckIs(c: Setup, s: Reducer, cells: Cells, i: Input)
    requires Sums(c, s, cells)
    ensures var progress := if s.commandStart.None? || s.commandStart.value <= i.stable.progressSample then i.stable.progressSample else s.commandStart.value;
      Stuck(c, cells, i) <==> s.commandEnds != [] && i.frontier - progress >= NO_PROGRESS
  {
    EndsCount(cells);
    OnlyFirstFrom(cells, c.trigger);
  }

  lemma {:induction false} UnendedIs(c: Setup, s: Reducer, cells: Cells, i: Input)
    requires Sums(c, s, cells) && s.commit.None? && s.close.None? && Found(c, s, i.frontier, i.stable).None?
    ensures UnendedAnswer(c, cells, i, StepListening(c, s, i).1)
  {
    StuckIs(c, s, cells, i);
    CompleteIs(c, s, cells, i);
    if k: nat :| CompleteBy(c, cells, i, k) {
      FinalizeIs(c, s, cells, cells[k].End(), Fallback, i.stable.prefix, i.validAudioEnd);
      assert forall j: nat :: CompleteBy(c, cells, i, j) ==> j == k;
    }
  }

  lemma {:induction false} CompleteIs(c: Setup, s: Reducer, cells: Cells, i: Input)
    requires Sums(c, s, cells)
    ensures var b := if i.stable.prefixSample.Some? then BoundaryAt(s.commandEnds, i.stable.prefixSample.value) else None;
      && (forall k: nat :: CompleteBy(c, cells, i, k) ==> b == Some(cells[k].End()))
      && (i.stable.prefix != "" && c.completeness(i.stable.prefix).Complete? && b.Some? ==> exists k: nat :: CompleteBy(c, cells, i, k))
  {
    if i.stable.prefixSample.Some? {
      var sample := i.stable.prefixSample.value;
      BoundaryIs(cells, sample);
      forall k: nat, j: nat | LastBy(cells, k, sample) && LastBy(cells, j, sample)
        ensures k == j
      {
      }
    }
  }

  lemma {:induction false} StepIs(c: Setup, s: Reducer, cells: Cells, i: Input)
    requires Sums(c, s, cells) && PhaseHolds(c, s) && !Over(s) && s.frontier <= i.frontier && i.validAudioEnd <= i.frontier
    requires forall k :: 0 <= k < |cells| ==> cells[k].End() <= i.frontier
    ensures Demanded(c, cells, s.pending, i, Step(c, s, i).1)
  {
    var u := s.(frontier := i.frontier);
    SameSums(c, s, u, cells);
    ClosingIs(c, u, cells, i);
    if CloseFor(c, cells, i).None? {
      if u.pending.Some? {
        PendingIs(c, u, cells, i);
      } else {
        FoundIs(c, u, cells, i);
        if Found(c, u, i.frontier, i.stable).None? {
          UnendedIs(c, u, cells, i);
        }
      }
    }
  }

  /** Every step of an utterance that is not over answers what the cells so far, the endpoint that is
      pending and its input demand: in particular a route's endpoint is found as soon as its condition
      is there, and by no other. */
  lemma {:induction false} EveryStepIsDemanded(c: Setup, ts: seq<Tick>)
    requires Fed(c, ts) && ts != [] && c.utteranceStart <= c.trigger && !Over(Run(c, ts[..|ts| - 1]))
    ensures Demanded(c, Concat(ts), Run(c, ts[..|ts| - 1]).pending, ts[|ts| - 1].input, LastDecision(c, ts))
  {
    var front, t := ts[..|ts| - 1], ts[|ts| - 1];
    TickSums(c, ts);
    RunsHold(c, front);
    ObserveTick(c, Reached(front), Run(c, front), t);
    StepIs(c, Observe(c, Run(c, front), t.cells), Concat(ts), t.input);
  }

  /** What is pending after a step is what it answered that it waits for. */
  lemma {:induction false} PendingIsAnswered(c: Setup, ts: seq<Tick>)
    requires Fed(c, ts) && ts != [] && c.utteranceStart <= c.trigger && LastDecision(c, ts).Ok? && !Over(Run(c, ts))
    ensures Run(c, ts).pending == if LastDecision(c, ts).value.Waiting? then Some(LastDecision(c, ts).value.pending) else None
  {
    var front, t := ts[..|ts| - 1], ts[|ts| - 1];
    RunsHold(c, front);
    ObserveTick(c, Reached(front), Run(c, front), t);
    StepPends(c, Observe(c, Run(c, front), t.cells), t.input);
  }

  lemma {:induction false} StepPends(c: Setup, s: Reducer, i: Input)
    requires PhaseHolds(c, s) && !Over(Step(c, s, i).0) && Step(c, s, i).1.Ok?
    ensures var (u, r) := Step(c, s, i); u.pending == if r.value.Waiting? then Some(r.value.pending) else None
  {
  }

  /** A pause route's commit leaves fewer than four command cells after its boundary. */
  lemma {:induction false} FewAfter(c: Setup, ts: seq<Tick>)
    requires Fed(c, ts) && ts != [] && c.utteranceStart <= c.trigger
    ensures var m := CommitOf(LastDecision(c, ts));
      m.Some? && (m.value.route.A? || m.value.route.R?) ==> |Those(Concat(ts), CommandPast(m.value.boundary))| < 4
  {
    EveryCommit(c, ts);
    EndsAreCommands(c, ts);
    if CommitOf(LastDecision(c, ts)).Some? {
      PastCount(Concat(ts), CommitOf(LastDecision(c, ts)).value.boundary);
    }
  }
}
