/** The epochs a device has opened, and which packets each accepts
    (controller/em_audio_timeline.py, `StreamRegistry`). */
module StreamSpec {
  import opened Basics
  import Codec

  datatype StreamId = Mic | Reference | Cells | Afe

  type Key = (StreamId, int)

  /** The parts of a parsed packet the registry looks at; `stream` is None for a render packet. */
  datatype Packet = Packet(stream: Option<StreamId>, epoch: int, sequence: int, first: int, end: int)

  datatype EpochState = EpochState(
    ended: bool, finalSample: Option<int>, lastSequence: Option<int>,
    high: Option<int>, backfills: nat, runs: seq<int>)

  datatype Registry = Registry(epochs: map<Key, EpochState>, current: map<StreamId, int>)

  datatype Fault = UnexpectedKind | UnknownEpoch | StreamEnded | SequenceOrder | SampleOrder | BadStream | MalformedMessage

  const NEW_EPOCH := EpochState(false, None, None, None, 0, [])

  /** The runs that end before `first`, in order. */
  function Before(runs: seq<int>, first: int): (r: seq<int>)
    ensures forall e :: e in r <==> e in runs && e < first
  {
    if runs == [] then []
    else Before(runs[..|runs| - 1], first) + if runs[|runs| - 1] < first then [runs[|runs| - 1]] else []
  }

  /** The run a packet at `first` continues: of those ending by then, the one ending last (the
      earliest listed on a tie). */
  function Continuing(runs: seq<int>, first: int): (r: Option<nat>)
    ensures r.None? <==> forall i :: 0 <= i < |runs| ==> first < runs[i]
    ensures r.Some? ==> r.value < |runs| && runs[r.value] <= first
    ensures r.Some? ==> forall i :: 0 <= i < |runs| && runs[i] <= first ==> runs[i] <= runs[r.value]
    ensures r.Some? ==> forall i :: 0 <= i < r.value ==> runs[i] != runs[r.value]
  {
    if runs == [] then None
    else
      var last := |runs| - 1;
      var r := Continuing(runs[..last], first);
      if runs[last] <= first && (r.None? || runs[r.value] < runs[last]) then Some(last) else r
  }

  function CheckEpoch(st: EpochState, p: Packet): Result<EpochState, Fault> {
    if st.ended then Err(StreamEnded)
    else if st.lastSequence.Some? && p.sequence <= st.lastSequence.value then Err(SequenceOrder)
    else
      var seen := st.(lastSequence := Some(p.sequence));
      if st.high.None? || p.first >= st.high.value then
        Ok(seen.(runs := Before(st.runs, p.first), high := Some(p.first)))
      else
        match Continuing(st.runs, p.first)
        case Some(i) => Ok(seen.(runs := st.runs[i := p.end]))
        case None =>
          if st.backfills > 0 then Ok(seen.(backfills := st.backfills - 1, runs := st.runs + [p.end])) else Err(SampleOrder)
  }

  function Check(reg: Registry, p: Packet): Result<Registry, Fault> {
    if p.stream.None? then Err(UnexpectedKind)
    else
      var key := (p.stream.value, p.epoch);
      if key !in reg.epochs then Err(UnknownEpoch)
      else
        match CheckEpoch(reg.epochs[key], p)
        case Err(e) => Err(e)
        case Ok(st) => Ok(reg.(epochs := reg.epochs[key := st]))
  }

  // ---- the stream messages ----

  /** The fields of a message as they come: text, numbers, or absent. */
  datatype OpenBody = OpenBody(
    streamId: Option<string>, epoch: Option<string>, kind: Option<int>, sampleRate: Option<int>, format: Option<int>)

  datatype EndBody = EndBody(streamId: Option<string>, epoch: Option<string>, finalSample: Option<string>)

  function Name(sid: StreamId): string {
    match sid case Mic => "mic" case Reference => "reference" case Cells => "cells" case Afe => "afe"
  }

  function StreamOf(name: Option<string>): (r: Option<StreamId>)
    ensures r.Some? ==> name == Some(Name(r.value))
    ensures r.None? ==> forall sid :: name != Some(Name(sid))
  {
    if name == Some("mic") then Some(Mic)
    else if name == Some("reference") then Some(Reference)
    else if name == Some("cells") then Some(Cells)
    else if name == Some("afe") then Some(Afe)
    else None
  }

  function KindOf(sid: StreamId): Codec.Kind {
    match sid case Mic => Codec.Kind.Mic case Reference => Codec.Kind.Reference case Cells => Codec.Kind.Cells case Afe => Codec.Kind.Afe
  }

  /** The announcement's parameters are the stream's own. */
  predicate Matches(body: OpenBody, sid: StreamId) {
    && body.kind == Some(Codec.Code(KindOf(sid))) && body.sampleRate == Some(Codec.Rate(KindOf(sid)))
    && body.format == Some(Codec.Format(KindOf(sid)))
  }

  predicate Digits(text: string) { text != "" && forall i :: 0 <= i < |text| ==> '0' <= text[i] <= '9' }

  function Value(text: string): nat
    requires forall i :: 0 <= i < |text| ==> '0' <= text[i] <= '9'
  {
    if text == "" then 0 else 10 * Value(text[..|text| - 1]) + (text[|text| - 1] - '0') as nat
  }

  function ParseU64(field: Option<string>): Result<nat, Fault> {
    if field.None? || !Digits(field.value) || Value(field.value) > U64_MAX then Err(MalformedMessage)
    else Ok(Value(field.value))
  }

  function FormatU64(n: nat): string {
    var digit := [(n % 10) as char + '0'];
    if n < 10 then digit else FormatU64(n / 10) + digit
  }

  /** Every 64-bit number survives its decimal text. */
  lemma {:induction false} U64RoundTrip(n: nat)
    requires n <= U64_MAX
    ensures ParseU64(Some(FormatU64(n))) == Ok(n)
  {
    DigitsOf(n);
  }

  lemma {:induction false} DigitsOf(n: nat)
    ensures Digits(FormatU64(n)) && Value(FormatU64(n)) == n
  {
    var text := FormatU64(n);
    if n >= 10 {
      DigitsOf(n / 10);
      assert text[..|text| - 1] == FormatU64(n / 10);
    } else {
      assert text[..0] == "";
    }
  }

  function Open(reg: Registry, body: OpenBody): Result<Registry, Fault> {
    var sid, epoch := StreamOf(body.streamId), ParseU64(body.epoch);
    if sid.None? then Err(BadStream)
    else if epoch.Err? then Err(MalformedMessage)
    else if epoch.value == 0 || !Matches(body, sid.value) then Err(BadStream)
    else
      var key := (sid.value, epoch.value);
      if key in reg.epochs && reg.epochs[key].ended then Err(BadStream)
      else Ok(Registry(if key in reg.epochs then reg.epochs else reg.epochs[key := NEW_EPOCH], reg.current[sid.value := epoch.value]))
  }

  function End(reg: Registry, body: EndBody): Result<Registry, Fault> {
    var sid, epoch, final := StreamOf(body.streamId), ParseU64(body.epoch), ParseU64(body.finalSample);
    if epoch.Err? || final.Err? then Err(MalformedMessage)
    else if sid.None? || (sid.value, epoch.value) !in reg.epochs then Err(UnknownEpoch)
    else
      var key := (sid.value, epoch.value);
      Ok(Registry(
        reg.epochs[key := reg.epochs[key].(ended := true, finalSample := Some(final.value))],
        if key.0 in reg.current && reg.current[key.0] == key.1 then reg.current - {key.0} else reg.current))
  }

  /** Which epochs a grant reaches: the open ones of the stream that have packets, all of them or
      the named one. */
  predicate Grants(key: Key, st: EpochState, sid: StreamId, epoch: Option<int>) {
    key.0 == sid && !st.ended && st.high.Some? && (epoch.None? || epoch.value == key.1)
  }

  function GrantOne(key: Key, st: EpochState, sid: StreamId, epoch: Option<int>): EpochState {
    if Grants(key, st, sid, epoch) then st.(backfills := st.backfills + 1) else st
  }

  function Grant(reg: Registry, sid: StreamId, epoch: Option<int>): Registry {
    reg.(epochs := map key | key in reg.epochs :: GrantOne(key, reg.epochs[key], sid, epoch))
  }

  /** Every epoch but those left has its grant. */
  ghost predicate Granting(epochs: map<Key, EpochState>, was: map<Key, EpochState>, left: set<Key>, sid: StreamId, epoch: Option<int>) {
    && epochs.Keys == was.Keys && left <= was.Keys
    && forall key :: key in was ==> epochs[key] == if key in left then was[key] else GrantOne(key, was[key], sid, epoch)
  }

  lemma GrantNext(epochs: map<Key, EpochState>, was: map<Key, EpochState>, left: set<Key>, sid: StreamId, epoch: Option<int>, key: Key)
    requires Granting(epochs, was, left, sid, epoch) && key in left
    ensures Granting(epochs[key := GrantOne(key, epochs[key], sid, epoch)], was, left - {key}, sid, epoch)
  {
  }

  lemma GrantedAll(epochs: map<Key, EpochState>, reg: Registry, sid: StreamId, epoch: Option<int>)
    requires Granting(epochs, reg.epochs, {}, sid, epoch)
    ensures epochs == Grant(reg, sid, epoch).epochs
  {
  }

  // ---- runs ----

  datatype Op =
    | OpenOp(announced: OpenBody)
    | EndOp(closing: EndBody)
    | GrantOp(sid: StreamId, only: Option<int>)
    | PacketOp(packet: Packet)

  function Kept(reg: Registry, r: Result<Registry, Fault>): Registry {
    if r.Ok? then r.value else reg
  }

  function Apply(reg: Registry, op: Op): Registry {
    match op
    case OpenOp(body) => Kept(reg, Open(reg, body))
    case EndOp(body) => Kept(reg, End(reg, body))
    case GrantOp(sid, epoch) => Grant(reg, sid, epoch)
    case PacketOp(p) => Kept(reg, Check(reg, p))
  }

  function Run(ops: seq<Op>): Registry {
    if ops == [] then Registry(map[], map[]) else Apply(Run(ops[..|ops| - 1]), ops[|ops| - 1])
  }

  function Accepts(reg: Registry, op: Op, key: Key): seq<Packet> {
    if op.PacketOp? && op.packet.stream == Some(key.0) && op.packet.epoch == key.1 && Check(reg, op.packet).Ok?
    then [op.packet] else []
  }

  function Allows(reg: Registry, op: Op, key: Key): nat {
    if op.GrantOp? && key in reg.epochs && Grants(key, reg.epochs[key], op.sid, op.only) then 1 else 0
  }

  /** The packets a stream epoch accepted, in order. */
  function Accepted(ops: seq<Op>, key: Key): seq<Packet> {
    if ops == [] then []
    else Accepted(ops[..|ops| - 1], key) + Accepts(Run(ops[..|ops| - 1]), ops[|ops| - 1], key)
  }

  /** How many backfill runs the epoch was granted. */
  function Granted(ops: seq<Op>, key: Key): nat {
    if ops == [] then 0
    else Granted(ops[..|ops| - 1], key) + Allows(Run(ops[..|ops| - 1]), ops[|ops| - 1], key)
  }

  /** `labels` splits the packets into one live chain (label 0) whose first samples never go back
      and at most `granted` backfill chains, each of whose packets starts where the chain's earlier
      packets have ended. */
  predicate Splits(hist: seq<Packet>, labels: seq<nat>, granted: nat) {
    && |labels| == |hist|
    && (forall i :: 0 <= i < |labels| ==> labels[i] <= granted)
    && (forall i, j :: 0 <= i < j < |hist| && labels[i] == labels[j] ==>
      if labels[i] == 0 then hist[i].first <= hist[j].first else hist[i].end <= hist[j].first)
  }

  predicate Sequenced(hist: seq<Packet>) {
    forall i, j :: 0 <= i < j < |hist| ==> hist[i].sequence < hist[j].sequence
  }

  /** How an epoch's state relates to its history: `tags` names the chain of each running backfill. */
  predicate Explains(st: EpochState, hist: seq<Packet>, labels: seq<nat>, tags: seq<nat>, granted: nat) {
    && Sequenced(hist) && st.backfills <= granted && Splits(hist, labels, granted - st.backfills)
    && (st.lastSequence.None? <==> hist == []) && (st.high.None? <==> hist == [])
    && (forall i :: 0 <= i < |hist| ==> st.lastSequence.Some? && hist[i].sequence <= st.lastSequence.value)
    && (forall i :: 0 <= i < |hist| && labels[i] == 0 ==> st.high.Some? && hist[i].first <= st.high.value)
    && |tags| == |st.runs|
    && AllDifferent(tags)
    && (forall k :: 0 <= k < |tags| ==> 0 < tags[k] <= granted - st.backfills)
    && (forall k, i :: 0 <= k < |tags| && 0 <= i < |hist| && labels[i] == tags[k] ==> hist[i].end <= st.runs[k])
  }

  /** The tags of the runs that stay when a live packet arrives. */
  function TagsBefore(runs: seq<int>, tags: seq<nat>, first: int): seq<nat>
    requires |runs| == |tags|
  {
    if runs == [] then []
    else
      var n := |runs| - 1;
      var kept := TagsBefore(runs[..n], tags[..n], first);
      if runs[n] < first then kept + [tags[n]] else kept
  }

  /** Each kept tag still goes with its own run. */
  predicate Pairs(kept: seq<nat>, ends: seq<int>, runs: seq<int>, tags: seq<nat>)
    requires |runs| == |tags|
  {
    |kept| == |ends| && forall k :: 0 <= k < |kept| ==> Paired(kept[k], ends[k], runs, tags)
  }

  predicate Paired(tag: nat, end: int, runs: seq<int>, tags: seq<nat>)
    requires |runs| == |tags|
  {
    exists m :: 0 <= m < |runs| && tag == tags[m] && end == runs[m]
  }

  predicate AllDifferent(tags: seq<nat>) {
    forall k, m :: 0 <= k < m < |tags| ==> tags[k] != tags[m]
  }

  lemma {:induction false} TagsBeforeArePaired(runs: seq<int>, tags: seq<nat>, first: int)
    requires |runs| == |tags|
    ensures Pairs(TagsBefore(runs, tags, first), Before(runs, first), runs, tags)
    ensures AllDifferent(tags) ==> AllDifferent(TagsBefore(runs, tags, first))
  {
    if runs != [] {
      var n := |runs| - 1;
      var kept, ends := TagsBefore(runs[..n], tags[..n], first), Before(runs[..n], first);
      TagsBeforeArePaired(runs[..n], tags[..n], first);
      forall k | 0 <= k < |kept|
        ensures Paired(kept[k], ends[k], runs, tags) && (AllDifferent(tags) ==> kept[k] != tags[n])
      {
        assert Paired(kept[k], ends[k], runs[..n], tags[..n]);
        var m :| 0 <= m < n && kept[k] == tags[..n][m] && ends[k] == runs[..n][m];
        assert kept[k] == tags[m] && ends[k] == runs[m];
      }
      assert Paired(tags[n], runs[n], runs, tags);
      assert AllDifferent(tags) ==> AllDifferent(tags[..n]);
    }
  }

  lemma LiveKeeps(st: EpochState, p: Packet, hist: seq<Packet>, labels: seq<nat>, tags: seq<nat>, granted: nat)
    requires Explains(st, hist, labels, tags, granted) && CheckEpoch(st, p).Ok?
    requires st.high.None? || p.first >= st.high.value
    ensures Explains(CheckEpoch(st, p).value, hist + [p], labels + [0], TagsBefore(st.runs, tags, p.first), granted)
  {
    var st', tags' := CheckEpoch(st, p).value, TagsBefore(st.runs, tags, p.first);
    var hist', labels' := hist + [p], labels + [0];
    TagsBeforeArePaired(st.runs, tags, p.first);
    forall k | 0 <= k < |tags'|
      ensures 0 < tags'[k] <= granted - st.backfills
      ensures forall i :: 0 <= i < |hist'| && labels'[i] == tags'[k] ==> hist'[i].end <= st'.runs[k]
    {
      assert Paired(tags'[k], Before(st.runs, p.first)[k], st.runs, tags);
      var m :| 0 <= m < |st.runs| && tags'[k] == tags[m] && Before(st.runs, p.first)[k] == st.runs[m];
    }
  }

  lemma ContinueKeeps(st: EpochState, p: Packet, hist: seq<Packet>, labels: seq<nat>, tags: seq<nat>, granted: nat)
    requires Explains(st, hist, labels, tags, granted) && CheckEpoch(st, p).Ok?
    requires st.high.Some? && p.first < st.high.value && Continuing(st.runs, p.first).Some?
    requires p.first <= p.end
    ensures Explains(CheckEpoch(st, p).value, hist + [p], labels + [tags[Continuing(st.runs, p.first).value]], tags, granted)
  {
  }

  lemma StartKeeps(st: EpochState, p: Packet, hist: seq<Packet>, labels: seq<nat>, tags: seq<nat>, granted: nat)
    requires Explains(st, hist, labels, tags, granted) && CheckEpoch(st, p).Ok?
    requires st.high.Some? && p.first < st.high.value && Continuing(st.runs, p.first).None?
    ensures var tag := granted - st.backfills + 1;
      Explains(CheckEpoch(st, p).value, hist + [p], labels + [tag], tags + [tag], granted)
  {
  }

  /** One accepted packet extends the split of its epoch's history. */
  lemma CheckKeeps(st: EpochState, p: Packet, hist: seq<Packet>, labels: seq<nat>, tags: seq<nat>, granted: nat)
      returns (labels': seq<nat>, tags': seq<nat>)
    requires Explains(st, hist, labels, tags, granted) && CheckEpoch(st, p).Ok? && p.first <= p.end
    ensures Explains(CheckEpoch(st, p).value, hist + [p], labels', tags', granted)
  {
    if st.high.None? || p.first >= st.high.value {
      LiveKeeps(st, p, hist, labels, tags, granted);
      labels', tags' := labels + [0], TagsBefore(st.runs, tags, p.first);
    } else if Continuing(st.runs, p.first).Some? {
      ContinueKeeps(st, p, hist, labels, tags, granted);
      labels', tags' := labels + [tags[Continuing(st.runs, p.first).value]], tags;
    } else {
      StartKeeps(st, p, hist, labels, tags, granted);
      labels', tags' := labels + [granted - st.backfills + 1], tags + [granted - st.backfills + 1];
    }
  }

  predicate Forward(ops: seq<Op>) {
    forall i :: 0 <= i < |ops| && ops[i].PacketOp? ==> ops[i].packet.first <= ops[i].packet.end
  }

  ghost predicate Explained(reg: Registry, key: Key, hist: seq<Packet>, labels: seq<nat>, tags: seq<nat>, granted: nat) {
    if key in reg.epochs then Explains(reg.epochs[key], hist, labels, tags, granted) else hist == [] && granted == 0
  }

  lemma StepOf(reg: Registry, op: Op, key: Key, hist: seq<Packet>, labels: seq<nat>, tags: seq<nat>, granted: nat)
      returns (labels': seq<nat>, tags': seq<nat>)
    requires Explained(reg, key, hist, labels, tags, granted)
    requires op.PacketOp? ==> op.packet.first <= op.packet.end
    ensures Explained(Apply(reg, op), key, hist + Accepts(reg, op, key), labels', tags', granted + Allows(reg, op, key))
  {
    labels', tags' := labels, tags;
    assert hist + [] == hist;
    if Accepts(reg, op, key) != [] {
      labels', tags' := CheckKeeps(reg.epochs[key], op.packet, hist, labels, tags, granted);
    } else if key !in reg.epochs {
      labels', tags' := [], [];
      OtherStep(reg, op, key, hist, [], [], granted);
    } else {
      OtherStep(reg, op, key, hist, labels, tags, granted);
    }
  }

  lemma {:induction false} OtherStep(reg: Registry, op: Op, key: Key, hist: seq<Packet>, labels: seq<nat>, tags: seq<nat>, granted: nat)
    requires Explained(reg, key, hist, labels, tags, granted) && Accepts(reg, op, key) == []
    requires key !in reg.epochs ==> labels == [] && tags == []
    ensures Explained(Apply(reg, op), key, hist, labels, tags, granted + Allows(reg, op, key))
  {
    if key in reg.epochs {
      OtherFrame(reg, op, key);
      StillExplains(reg.epochs[key], Apply(reg, op).epochs[key], hist, labels, tags, granted, Allows(reg, op, key));
    } else {
      assert Explains(NEW_EPOCH, [], [], [], 0);
    }
  }

  /** A change of the end, or one more grant with its backfill, leaves the split as it is. */
  lemma {:induction false} StillExplains(
    st: EpochState, st': EpochState, hist: seq<Packet>, labels: seq<nat>, tags: seq<nat>, granted: nat, more: nat)
    requires Explains(st, hist, labels, tags, granted)
    requires st'.(ended := st.ended, finalSample := st.finalSample) == st.(backfills := st.backfills + more)
    ensures Explains(st', hist, labels, tags, granted + more)
  {
  }

  lemma {:induction false} OtherFrame(reg: Registry, op: Op, key: Key)
    requires key in reg.epochs && Accepts(reg, op, key) == []
    ensures key in Apply(reg, op).epochs
    ensures var st, st' := reg.epochs[key], Apply(reg, op).epochs[key];
      st'.(ended := st.ended, finalSample := st.finalSample) == st.(backfills := st.backfills + Allows(reg, op, key))
  {
  }

  lemma {:induction false} HistoryOf(ops: seq<Op>, key: Key) returns (labels: seq<nat>, tags: seq<nat>)
    requires Forward(ops)
    ensures Explained(Run(ops), key, Accepted(ops, key), labels, tags, Granted(ops, key))
  {
    labels, tags := [], [];
    if ops != [] {
      var front, op := ops[..|ops| - 1], ops[|ops| - 1];
      labels, tags := HistoryOf(front, key);
      labels, tags := StepOf(Run(front), op, key, Accepted(front, key), labels, tags, Granted(front, key));
    }
  }

  /** Every accepted packet history of a stream epoch has strictly increasing sequences and splits
      into one live chain and at most as many backfill chains as were granted. */
  lemma HistorySplits(ops: seq<Op>, key: Key)
    requires Forward(ops)
    ensures Sequenced(Accepted(ops, key))
    ensures exists labels :: Splits(Accepted(ops, key), labels, Granted(ops, key))
  {
    var labels, tags := HistoryOf(ops, key);
    if key in Run(ops).epochs {
      assert Splits(Accepted(ops, key), labels, Granted(ops, key));
    } else {
      assert Splits([], [], 0);
    }
  }

  /** An ended epoch accepts nothing more and stays ended, and `current` names an open epoch only. */
  lemma {:induction false} EndedIsFinal(ops: seq<Op>, key: Key)
    ensures forall sid :: sid in Run(ops).current ==>
      (sid, Run(ops).current[sid]) in Run(ops).epochs && !Run(ops).epochs[(sid, Run(ops).current[sid])].ended
    ensures ops != [] && key in Run(ops[..|ops| - 1]).epochs && Run(ops[..|ops| - 1]).epochs[key].ended ==>
      key in Run(ops).epochs && Run(ops).epochs[key].ended && Accepted(ops, key) == Accepted(ops[..|ops| - 1], key)
  {
    if ops != [] {
      EndedIsFinal(ops[..|ops| - 1], key);
    }
  }
}

module Streams {
  import opened Basics
  import opened StreamSpec

  /** The registry in place: each operation moves the view by one `Apply`. */
  class StreamRegistry {
    var epochs: map<Key, EpochState>
    var current: map<StreamId, int>

    function View(): Registry
      reads this
    {
      Registry(epochs, current)
    }

    constructor ()
      ensures View() == Run([])
    {
      epochs, current := map[], map[];
    }

    /** A message naming an unknown stream, an epoch that is no 64-bit number, epoch 0, another
        stream's parameters or an ended epoch is refused and changes nothing. */
    method Open(body: OpenBody) returns (r: Result<Key, Fault>)
      modifies this
      ensures View() == Apply(old(View()), OpenOp(body))
      ensures r.Ok? ==>
        && r.value.1 != 0 && body.streamId == Some(Name(r.value.0)) && ParseU64(body.epoch) == Ok(r.value.1)
        && Matches(body, r.value.0) && r.value.0 in current && current[r.value.0] == r.value.1
        && r.value in epochs && !epochs[r.value].ended
      ensures r.Err? ==>
        && View() == old(View())
        && r.error == (if StreamOf(body.streamId).Some? && ParseU64(body.epoch).Err? then MalformedMessage else BadStream)
        && (forall sid, epoch :: StreamOf(body.streamId) == Some(sid) && ParseU64(body.epoch) == Ok(epoch) ==>
          epoch == 0 || !Matches(body, sid) || ((sid, epoch) in old(epochs) && old(epochs)[(sid, epoch)].ended))
    {
      var sid := StreamOf(body.streamId);
      if sid.None? {
        return Err(BadStream);
      }
      var epoch := ParseU64(body.epoch);
      if epoch.Err? {
        return Err(epoch.error);
      }
      if epoch.value == 0 {
        return Err(BadStream);
      }
      if !Matches(body, sid.value) {
        return Err(BadStream);
      }
      var key := (sid.value, epoch.value);
      if key in epochs && epochs[key].ended {
        return Err(BadStream);
      }
      if key !in epochs {
        epochs := epochs[key := NEW_EPOCH];
      }
      current := current[sid.value := epoch.value];
      r := Ok(key);
    }

    method End(body: EndBody) returns (r: Result<(Key, nat), Fault>)
      modifies this
      ensures View() == Apply(old(View()), EndOp(body))
      ensures r.Ok? ==>
        && body.streamId == Some(Name(r.value.0.0)) && ParseU64(body.epoch) == Ok(r.value.0.1) && ParseU64(body.finalSample) == Ok(r.value.1)
        && r.value.0 in old(epochs) && r.value.0 in epochs && epochs[r.value.0].ended && epochs[r.value.0].finalSample == Some(r.value.1)
      ensures r.Err? ==> View() == old(View())
      ensures r == Err(MalformedMessage) <==> ParseU64(body.epoch).Err? || ParseU64(body.finalSample).Err?
    {
      var epoch := ParseU64(body.epoch);
      if epoch.Err? {
        return Err(epoch.error);
      }
      var final := ParseU64(body.finalSample);
      if final.Err? {
        return Err(final.error);
      }
      var sid := StreamOf(body.streamId);
      if sid.None? || (sid.value, epoch.value) !in epochs {
        return Err(UnknownEpoch);
      }
      var key := (sid.value, epoch.value);
      epochs := epochs[key := epochs[key].(ended := true, finalSample := Some(final.value))];
      if key.0 in current && current[key.0] == key.1 {
        current := current - {key.0};
      }
      r := Ok((key, final.value));
    }

    method IsOpen(sid: StreamId, epoch: int) returns (r: bool)
      ensures r <==> (sid, epoch) in epochs && !epochs[(sid, epoch)].ended
    {
      r := (sid, epoch) in epochs && !epochs[(sid, epoch)].ended;
    }

    method GrantBackfill(sid: StreamId, epoch: Option<int>)
      modifies this
      ensures View() == Apply(old(View()), GrantOp(sid, epoch))
    {
      ghost var was := epochs;
      var left := epochs.Keys;
      while left != {}
        invariant Granting(epochs, was, left, sid, epoch) && current == old(current)
      {
        var key :| key in left;
        GrantNext(epochs, was, left, sid, epoch, key);
        epochs := epochs[key := GrantOne(key, epochs[key], sid, epoch)];
        left := left - {key};
      }
      GrantedAll(epochs, old(View()), sid, epoch);
    }

    /** The backfill runs a live packet leaves open. */
    static method RunsBefore(runs: seq<int>, first: int) returns (kept: seq<int>)
      ensures kept == Before(runs, first)
    {
      kept := [];
      for i := 0 to |runs|
        invariant kept == Before(runs[..i], first)
      {
        assert runs[..i + 1][..i] == runs[..i];
        if runs[i] < first {
          kept := kept + [runs[i]];
        }
      }
      assert runs[..|runs|] == runs;
    }

    /** The backfill run a packet goes on with. */
    static method BestRun(runs: seq<int>, first: int) returns (best: Option<nat>)
      ensures best == Continuing(runs, first)
    {
      best := None;
      for i := 0 to |runs|
        invariant best == Continuing(runs[..i], first)
      {
        assert runs[..i + 1][..i] == runs[..i];
        if runs[i] <= first && (best.None? || runs[best.value] < runs[i]) {
          best := Some(i);
        }
      }
      assert runs[..|runs|] == runs;
    }

    /** Accepts or refuses one packet of an epoch. */
    method Check(p: Packet) returns (r: Result<StreamId, Fault>)
      modifies this
      ensures View() == Apply(old(View()), PacketOp(p))
      ensures r.Ok? <==> StreamSpec.Check(old(View()), p).Ok?
      ensures r.Ok? ==> p.stream == Some(r.value)
      ensures r.Err? ==> r.error == StreamSpec.Check(old(View()), p).error
    {
      if p.stream.None? {
        return Err(UnexpectedKind);
      }
      var key := (p.stream.value, p.epoch);
      if key !in epochs {
        return Err(UnknownEpoch);
      }
      var st := epochs[key];
      if st.ended {
        return Err(StreamEnded);
      }
      if st.lastSequence.Some? && p.sequence <= st.lastSequence.value {
        return Err(SequenceOrder);
      }
      if st.high.None? || p.first >= st.high.value {
        var runs := RunsBefore(st.runs, p.first);
        st := st.(runs := runs, high := Some(p.first));
      } else {
        var best := BestRun(st.runs, p.first);
        if best.Some? {
          st := st.(runs := st.runs[best.value := p.end]);
        } else if st.backfills > 0 {
          st := st.(backfills := st.backfills - 1, runs := st.runs + [p.end]);
        } else {
          return Err(SampleOrder);
        }
      }
      epochs := epochs[key := st.(lastSequence := Some(p.sequence))];
      r := Ok(p.stream.value);
    }

    method Clear()
      modifies this
      ensures View() == Run([])
    {
      epochs, current := map[], map[];
    }
  }
}
