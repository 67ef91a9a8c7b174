/** The `echomuse:` description line of a calendar event (controller/em_alert_wire.py,
    `build_description`, `parse_description`, `_line_from_obj`). JSON text is a parameter: a printer
    of one line and the parser that inverts it. */
module Description {
  import opened Basics

  datatype Kind = Alarm | Snooze

  datatype ParentRef = ParentRef(scheduleId: string, key: string)

  /** The parsed line. `volume` is a number of [0, 1] or None. */
  datatype Line = Line(
    scheduleId: string, kind: Kind, opId: string, parent: Option<ParentRef>,
    sound: string, volume: Option<real>, snoozeMs: int, maxRingMs: int, loopGapMs: int, rampMs: int)

  datatype Json = Null | Bool(b: bool) | Int(i: int) | Real(r: real) | Str(s: string) | Obj(members: map<string, Json>)

  const LINE_KEYS: set<string> :=
    {"id", "kind", "loop_gap_ms", "max_ring_ms", "op", "parent", "ramp_ms", "snooze_ms", "sound", "v", "volume"}

  /** What the line's checks ask about a string: the canonical UUID spelling, a sound reference. */
  datatype Checks = Checks(isUuid: string -> bool, isSound: string -> bool)

  function KindName(k: Kind): string { if k.Alarm? then "alarm" else "snooze" }

  function ParentToJson(p: Option<ParentRef>): Json {
    if p.None? then Null else Obj(map["id" := Str(p.value.scheduleId), "occ" := Str(p.value.key)])
  }

  function ToJson(l: Line): Json {
    Obj(map[
      "id" := Str(l.scheduleId), "kind" := Str(KindName(l.kind)), "loop_gap_ms" := Int(l.loopGapMs),
      "max_ring_ms" := Int(l.maxRingMs), "op" := Str(l.opId), "parent" := ParentToJson(l.parent),
      "ramp_ms" := Int(l.rampMs), "snooze_ms" := Int(l.snoozeMs), "sound" := Str(l.sound), "v" := Int(1),
      "volume" := if l.volume.None? then Null else Real(l.volume.value)])
  }

  function ParentOf(c: Checks, j: Json): Option<ParentRef> {
    if j.Obj? && j.members.Keys == {"id", "occ"} && j.members["id"].Str? && c.isUuid(j.members["id"].s)
       && j.members["occ"].Str? && j.members["occ"].s != "" then Some(ParentRef(j.members["id"].s, j.members["occ"].s))
    else None
  }

  function VolumeOf(j: Json): Option<Option<real>> {
    match j
    case Null => Some(None)
    case Int(i) => if 0 <= i <= 1 then Some(Some(i as real)) else None
    case Real(r) => if 0.0 <= r <= 1.0 then Some(Some(r)) else None
    case _ => None
  }

  function FromJson(c: Checks, j: Json): Option<Line> {
    if !j.Obj? || j.members.Keys != LINE_KEYS then None
    else
      var m := j.members;
      if m["v"] != Int(1) && m["v"] != Real(1.0) then None
      else if !(m["id"].Str? && c.isUuid(m["id"].s) && m["op"].Str? && c.isUuid(m["op"].s)) then None
      else if m["kind"] != Str("alarm") && m["kind"] != Str("snooze") then None
      else
        var kind := if m["kind"] == Str("alarm") then Alarm else Snooze;
        var parent := if kind.Alarm? then None else ParentOf(c, m["parent"]);
        if (if kind.Alarm? then m["parent"] != Null else parent.None?) then None
        else if !(m["loop_gap_ms"].Int? && m["loop_gap_ms"].i >= 0 && m["ramp_ms"].Int? && m["ramp_ms"].i >= 0) then None
        else if !(m["max_ring_ms"].Int? && m["max_ring_ms"].i > 0 && m["snooze_ms"].Int? && m["snooze_ms"].i > 0) then None
        else if !(m["sound"].Str? && c.isSound(m["sound"].s)) then None
        else if VolumeOf(m["volume"]).None? then None
        else Some(Line(m["id"].s, kind, m["op"].s, parent, m["sound"].s, VolumeOf(m["volume"]).value,
          m["snooze_ms"].i, m["max_ring_ms"].i, m["loop_gap_ms"].i, m["ramp_ms"].i))
  }

  /** What a line must be to survive its own encoding. */
  predicate ValidLine(c: Checks, l: Line) {
    && c.isUuid(l.scheduleId) && c.isUuid(l.opId) && c.isSound(l.sound)
    && (l.kind.Alarm? <==> l.parent.None?)
    && (l.parent.Some? ==> c.isUuid(l.parent.value.scheduleId) && l.parent.value.key != "")
    && l.loopGapMs >= 0 && l.rampMs >= 0 && l.maxRingMs > 0 && l.snoozeMs > 0
    && (l.volume.Some? ==> 0.0 <= l.volume.value <= 1.0)
  }

  lemma {:induction false} ParentRoundTrip(c: Checks, p: Option<ParentRef>)
    ensures p.None? ==> ParentToJson(p) == Null
    ensures p.Some? ==> ParentToJson(p) != Null
    ensures p.Some? ==> ParentOf(c, ParentToJson(p)) == if c.isUuid(p.value.scheduleId) && p.value.key != "" then p else None
  {
    if p.Some? {
      assert ParentToJson(p).members.Keys == {"id", "occ"};
    }
  }

  lemma {:induction false} LineMembers(l: Line)
    ensures var m := ToJson(l).members;
      && m.Keys == LINE_KEYS && m["v"] == Int(1) && m["id"] == Str(l.scheduleId) && m["op"] == Str(l.opId)
      && m["kind"] == Str(KindName(l.kind)) && m["parent"] == ParentToJson(l.parent) && m["sound"] == Str(l.sound)
      && m["volume"] == (if l.volume.None? then Null else Real(l.volume.value))
      && m["loop_gap_ms"] == Int(l.loopGapMs) && m["ramp_ms"] == Int(l.rampMs)
      && m["max_ring_ms"] == Int(l.maxRingMs) && m["snooze_ms"] == Int(l.snoozeMs)
  {
  }

  /** A line's object reads back as the line exactly when the line is valid. */
  lemma {:induction false} LineRoundTrip(c: Checks, l: Line)
    ensures FromJson(c, ToJson(l)) == Some(l) <==> ValidLine(c, l)
    ensures FromJson(c, ToJson(l)).Some? <==> ValidLine(c, l)
  {
    LineMembers(l);
    ParentRoundTrip(c, l.parent);
    assert "alarm"[0] == 'a' && "snooze"[0] == 's';
  }

  // ---- text ----

  /** The printer, the parser that inverts it, and what counts as white space. */
  datatype Text = Text(print_: Json -> string, parse: string -> Option<Json>, space: char -> bool)

  /** This object prints as one line that ends in a visible character, and the parser inverts that. */
  predicate PrintsOneLine(t: Text, j: Json) {
    var s := t.print_(j);
    t.parse(s) == Some(j) && '\n' !in s && s != "" && !t.space(s[|s| - 1])
  }

  function StripRight(s: string, drop: char -> bool): (r: string)
    ensures |r| <= |s| && r == s[..|r|]
    ensures r != "" ==> !drop(r[|r| - 1])
    ensures forall i :: |r| <= i < |s| ==> drop(s[i])
  {
    if s != "" && drop(s[|s| - 1]) then StripRight(s[..|s| - 1], drop) else s
  }

  /** Python's rpartition("\n"): what comes before the last line break, and the last line. */
  function LastLine(s: string): (string, string) {
    if s == "" then ("", "")
    else if s[|s| - 1] == '\n' then (s[..|s| - 1], "")
    else
      var r := LastLine(s[..|s| - 1]);
      (r.0, r.1 + [s[|s| - 1]])
  }

  const MARKER := "echomuse:"
  const PREFIX := "echomuse: "

  function Encode(t: Text, l: Line): string { PREFIX + t.print_(ToJson(l)) }

  function Build(t: Text, l: Line, human: string): string {
    var text := StripRight(human, c => c == '\n');
    if text == "" then Encode(t, l) else text + "\n" + Encode(t, l)
  }

  datatype Parsed = Parsed(human: Option<string>, line: Option<Line>, malformed: bool)

  function HumanText(t: Text, head: string): Option<string> {
    var human := StripRight(head, t.space);
    if human == "" then None else Some(human)
  }

  function Parse(t: Text, c: Checks, description: string): Parsed {
    var text := StripRight(description, t.space);
    if text == "" then Parsed(None, None, false)
    else
      var (head, last) := LastLine(text);
      if !(MARKER <= last) then Parsed(Some(text), None, false)
      else if !(PREFIX <= last) then Parsed(HumanText(t, head), None, true)
      else
        var json := t.parse(last[|PREFIX|..]);
        if json.None? then Parsed(HumanText(t, head), None, true)
        else
          var line := FromJson(c, json.value);
          Parsed(HumanText(t, head), line, line.None?)
  }

  lemma {:induction false} StripKeeps(s: string, drop: char -> bool)
    requires s != "" && !drop(s[|s| - 1])
    ensures StripRight(s, drop) == s
  {
  }

  lemma {:induction false} LastLineOf(head: string, last: string)
    requires '\n' !in last
    ensures LastLine(head + "\n" + last) == (head, last)
  {
    var s := head + "\n" + last;
    if last == "" {
      assert s[..|s| - 1] == head;
    } else {
      var front := last[..|last| - 1];
      LastLineOf(head, front);
      assert s[..|s| - 1] == head + "\n" + front && s[|s| - 1] == last[|last| - 1];
      assert front + [last[|last| - 1]] == last;
    }
  }

  lemma {:induction false} OnlyLine(s: string)
    requires '\n' !in s
    ensures LastLine(s) == ("", s)
  {
    if s != "" {
      OnlyLine(s[..|s| - 1]);
      assert s == s[..|s| - 1] + [s[|s| - 1]];
    }
  }

  /** Stripping the line breaks first makes no difference to stripping all white space. */
  lemma {:induction false} StripTwice(human: string, t: Text)
    requires t.space('\n')
    ensures StripRight(StripRight(human, c => c == '\n'), t.space) == StripRight(human, t.space)
    decreases |human|
  {
    if human != "" && human[|human| - 1] == '\n' {
      StripTwice(human[..|human| - 1], t);
    }
  }

  /** What parsing first takes a built description apart into: the text without its last line breaks, and
      the encoded line. */
  lemma {:induction false} BuiltParts(t: Text, l: Line, human: string)
    requires t.space('\n') && PrintsOneLine(t, ToJson(l))
    ensures var d, text := Build(t, l, human), StripRight(human, x => x == '\n');
      d != "" && StripRight(d, t.space) == d && LastLine(d) == (text, Encode(t, l))
  {
    var text, line := StripRight(human, x => x == '\n'), Encode(t, l);
    var d := Build(t, l, human);
    assert line[|line| - 1] == t.print_(ToJson(l))[|t.print_(ToJson(l))| - 1] && '\n' !in line;
    assert d[|d| - 1] == line[|line| - 1];
    StripKeeps(d, t.space);
    if text != "" {
      LastLineOf(text, line);
    } else {
      OnlyLine(line);
    }
  }

  /** A description built from a line and any human text parses back to the text, right-stripped (none
      when that is empty), and the line, unmalformed exactly when the line is valid. */
  lemma {:induction false} DescriptionRoundTrip(t: Text, c: Checks, l: Line, human: string)
    requires t.space('\n') && PrintsOneLine(t, ToJson(l))
    ensures var p := Parse(t, c, Build(t, l, human));
      && p.human == HumanText(t, human)
      && (p.line == Some(l) <==> ValidLine(c, l)) && (p.malformed <==> !ValidLine(c, l))
  {
    var line := Encode(t, l);
    BuiltParts(t, l, human);
    assert line[|PREFIX|..] == t.print_(ToJson(l)) && PREFIX <= line && MARKER <= line;
    StripTwice(human, t);
    LineRoundTrip(c, l);
  }

  // ---- any description ----

  /** The object spells the line: it is the line's own, save that its version may be written 1.0 and a
      volume of 0 or 1 without its point. */
  predicate Spells(j: Json, l: Line) {
    && j.Obj? && j.members.Keys == LINE_KEYS
    && (forall k :: k in LINE_KEYS - {"v", "volume"} ==> j.members[k] == Own(l, k))
    && (j.members["v"] == Int(1) || j.members["v"] == Real(1.0))
    && (j.members["volume"] == Own(l, "volume") || (j.members["volume"].Int? && l.volume == Some(j.members["volume"].i as real)))
  }

  function Own(l: Line, k: string): Json
    requires k in LINE_KEYS
  {
    LineMembers(l);
    ToJson(l).members[k]
  }

  /** An object is read as a line if and only if it spells that line and the line is valid. */
  lemma {:induction false} ReadIff(c: Checks, j: Json, l: Line)
    ensures FromJson(c, j) == Some(l) <==> ValidLine(c, l) && Spells(j, l)
  {
    LineMembers(l);
    if FromJson(c, j) == Some(l) {
      ReadIsSpelled(c, j, l);
    }
    if ValidLine(c, l) && Spells(j, l) {
      SpelledIsRead(c, j, l);
    }
  }

  lemma {:induction false} ReadIsSpelled(c: Checks, j: Json, l: Line)
    requires FromJson(c, j) == Some(l)
    ensures ValidLine(c, l) && Spells(j, l)
  {
    LineMembers(l);
    if l.kind.Snooze? {
      var m := j.members["parent"].members;
      assert m == map["id" := m["id"], "occ" := m["occ"]];
    }
  }

  lemma {:induction false} SpelledIsRead(c: Checks, j: Json, l: Line)
    requires ValidLine(c, l) && Spells(j, l)
    ensures FromJson(c, j) == Some(l)
  {
    LineMembers(l);
    ParentRoundTrip(c, l.parent);
    assert "alarm"[0] == 'a' && "snooze"[0] == 's';
  }

  /** head and last are what precedes the last line break, if there is one, and what follows it. */
  predicate Splits(s: string, head: string, last: string) {
    '\n' !in last && (s == head + "\n" + last || (head == "" && s == last))
  }

  lemma {:induction false} LastLineSplits(s: string)
    ensures Splits(s, LastLine(s).0, LastLine(s).1)
  {
    if s != "" && s[|s| - 1] != '\n' {
      LastLineSplits(s[..|s| - 1]);
      assert s == s[..|s| - 1] + [s[|s| - 1]];
    } else if s != "" {
      assert s == s[..|s| - 1] + "\n" + "";
    }
  }

  lemma {:induction false} SplitsOnce(s: string, head: string, last: string)
    requires Splits(s, head, last)
    ensures LastLine(s) == (head, last)
  {
    if s == head + "\n" + last {
      LastLineOf(head, last);
    } else {
      OnlyLine(last);
    }
  }

  /** What is said of a description: its line, if the last line carries a valid one; none and well formed
      if that has no marker; else malformed. The human text is all of it, or what precedes a marked line. */
  lemma {:induction false} ParsedIff(t: Text, c: Checks, d: string, head: string, last: string, l: Line)
    requires Splits(StripRight(d, t.space), head, last)
    ensures var p := Parse(t, c, d);
      && (p.line == Some(l) <==> ValidLine(c, l) && Carries(t, last, l))
      && (p.line.None? && !p.malformed <==> !(MARKER <= last))
      && (p.malformed <==> MARKER <= last && forall m :: !(ValidLine(c, m) && Carries(t, last, m)))
      && p.human == if MARKER <= last then HumanText(t, head) else HumanText(t, d)
  {
    var text := StripRight(d, t.space);
    SplitsOnce(text, head, last);
    assert PREFIX == MARKER + " ";
    var p := Parse(t, c, d);
    if PREFIX <= last && t.parse(last[|PREFIX|..]).Some? {
      ReadAsCarried(t, c, last);
    } else {
      assert forall m :: !Carries(t, last, m);
    }
  }

  /** The last line is the prefix and a text that parses as an object spelling the line. */
  predicate Carries(t: Text, last: string, l: Line) {
    PREFIX <= last && t.parse(last[|PREFIX|..]).Some? && Spells(t.parse(last[|PREFIX|..]).value, l)
  }

  lemma {:induction false} ReadAsCarried(t: Text, c: Checks, last: string)
    requires PREFIX <= last && t.parse(last[|PREFIX|..]).Some?
    ensures var read := FromJson(c, t.parse(last[|PREFIX|..]).value);
      forall m :: ValidLine(c, m) && Carries(t, last, m) <==> read == Some(m)
  {
    forall m
      ensures ValidLine(c, m) && Carries(t, last, m) <==> FromJson(c, t.parse(last[|PREFIX|..]).value) == Some(m)
    {
      ReadIff(c, t.parse(last[|PREFIX|..]).value, m);
    }
  }

  lemma {:induction false} LineIsValid(t: Text, c: Checks, d: string, l: Line)
    requires Parse(t, c, d).line == Some(l)
    ensures ValidLine(c, l)
  {
    var last := LastLine(StripRight(d, t.space)).1;
    ReadIsSpelled(c, t.parse(last[|PREFIX|..]).value, l);
  }

  lemma {:induction false} HumanIsStripped(t: Text, c: Checks, d: string)
    ensures HumanText(t, Plain(Parse(t, c, d))) == Parse(t, c, d).human
  {
    var human := Plain(Parse(t, c, d));
    if human != "" {
      StripKeeps(human, t.space);
    }
  }

  function Plain(p: Parsed): string { if p.human.Some? then p.human.value else "" }

  /** Whoever wrote it, a description with a line can be built anew from what was parsed, and says the same. */
  lemma {:induction false} RebuiltSaysTheSame(t: Text, c: Checks, d: string, l: Line)
    requires t.space('\n') && PrintsOneLine(t, ToJson(l)) && Parse(t, c, d).line == Some(l)
    ensures Parse(t, c, Build(t, l, Plain(Parse(t, c, d)))) == Parse(t, c, d)
  {
    LineIsValid(t, c, d, l);
    HumanIsStripped(t, c, d);
    DescriptionRoundTrip(t, c, l, Plain(Parse(t, c, d)));
  }

  /** There are such printers for every line. */
  lemma {:induction false} LinesCanBePrinted(l: Line) returns (t: Text)
    ensures t.space('\n') && PrintsOneLine(t, ToJson(l))
  {
    t := Text(_ => "{}", _ => Some(ToJson(l)), x => x == '\n' || x == ' ');
  }
}
